/**
 * The records the service exchanges: the client definitions a caller
 * submits (controller.go), the client record the IdP lists back, and the
 * user records of the user-management calls (idp_api_client.go).
 */
module Records {

  /** Client: the input definition of an OAuth client. */
  datatype Client = Client(
    clientId: string,
    publicClient: bool,
    redirectUris: seq<string>,
    rootUrl: string,
    webOrigins: seq<string>,
    adminUrl: string,
    directAccessGrantsEnabled: bool,
    serviceAccountsEnabled: bool,
    standardFlowEnabled: bool,
    implicitFlowEnabled: bool,
    description: string)

  /** ClientWithSecret: the same definition read again, with the caller's proof of the current secret. */
  datatype ClientWithSecret = ClientWithSecret(
    clientId: string,
    publicClient: bool,
    directAccessGrantsEnabled: bool,
    serviceAccountsEnabled: bool,
    standardFlowEnabled: bool,
    implicitFlowEnabled: bool,
    secret: string)

  /** The validator's "nonzero" rule on a string field. */
  predicate NonZero(s: string)
  {
    s != ""
  }

  /** validator.Validate(Client): only clientId is tagged nonzero. */
  predicate ValidClient(c: Client)
  {
    NonZero(c.clientId)
  }

  /** validator.Validate(ClientWithSecret): clientId and clientSecret are tagged nonzero. */
  predicate ValidClientWithSecret(c: ClientWithSecret)
  {
    NonZero(c.clientId) && NonZero(c.secret)
  }

  /** A field of a record the IdP returns, as the JSON query library sees it. */
  datatype Field = Absent | Text(text: string) | NotText

  /** One element of a client or user listing returned by the IdP. */
  datatype Record = Record(id: Field, clientId: Field, username: Field)

  /** ClientOut: what getClient keeps of the matching record. */
  datatype ClientOut = ClientOut(id: string, clientId: string)

  /** User and UserSecret: the bodies of the user-management calls. */
  datatype User = User(username: string, enabled: bool)
  datatype UserSecret = UserSecret(kind: string, value: string, temporary: bool)
}
