# idp-api in Dafny

A model of the core of `idp-api`, a Go façade in front of a Keycloak-style
identity-provider (IdP) admin API. Callers create, update and delete OAuth
clients through it. Each request first authenticates the caller with HTTP
Basic-Auth against the IdP's token endpoint. The password grant through the
service's configured client is tried first, then a client-credentials grant
using the caller's own name and password. The service then authenticates
itself with an admin password grant against realm `master`, looks the
client up, and, for update and delete, fetches the client's current secret.
It changes the client only when the submitted secret equals that secret.
Failures come back as a fixed vocabulary of `ApiError` codes rendered as JSON.

The IdP and the HTTP transport are an abstract oracle. An `Upstream` holds
two parts:
- `script`: a function from the calls made so far and the next call to the
  reply (a status and body, or a transport error);
- `codec`: the JSON decoders (token, listing, secret), given as functions.

`IdpApiClient.IdpClient` carries that oracle and `calls`, the log of every
request issued. `Http.ResponseWriter` records the status (the first one
written sticks) and the body. Every operation that issues calls or writes a
response is a method. Each method is proved equal to a pure specification
function of the log before it: `AuthRun`, `ClientLookup`, `CreateSpec`,
`UpdateSpec` and the rest. The properties are lemmas about those functions,
stated over the call log and the written response:
- which token requests are issued, and in what order;
- that a client is replaced or removed only right after its secret was
  fetched and matched;
- which token each call carries;
- which status and which error code are written.

Modules and files:

- `wrappers.dfy`: `Option` and `Result`.
- `json_text.dfy` (`JsonText`): Go's JSON string quoting and escaping, as
  `encoding/json` writes it (`<`, `>`, `&` escaped too), with a decoder and
  its round trip.
- `apierror.dfy` (`ApiErrors`): `ApiError`, the constructor table,
  `TestError`, the upstream-failure code `10000`, and the rendering
  `{"code":…,"message":…}`.
- `http.dfy` (`Http`): the `ResponseWriter` and `http.Error`.
- `records.dfy` (`Records`): `Client`, `ClientWithSecret`, the validator's
  `nonzero` rules, the records the IdP lists, and users.
- `idp_api_client.dfy` (`IdpApiClient`), covering `idp_api_client.go`:
  - the URL builders, which follow the templates in `app.go`;
  - `doRequest`'s status classification and the grant-list builders;
  - redaction and `authenticate`;
  - the client and user wrappers, and first-match selection.
- `controller.dfy` (`Controller`): the handlers of `controller.go` as
  methods of class `Controller`, together with their specification functions.
- `controller_properties.dfy` (`ControllerProperties`): what the handlers
  guarantee.

The model follows the code as written. Four behaviours of the code are
easy to misread:

- **`getClientID` returns the empty string on success.** It throws away the
  result of its query (idp_api_client.go:436-452), and the model keeps that
  (`ClientIdAlwaysEmpty`).
- **`DeleteResource` checks only the client shape.** It validates `Client`,
  not `ClientWithSecret` (controller.go:342-347), so an empty
  `clientSecret` is not refused as a missing field, although the body it
  decodes carries the secret. The request goes on to the service's own
  authentication (`EmptySecretPolicy`).
- **A transport failure during authentication is a 401, not a 500.**
  `authenticate` keeps doRequest's transport error as the attempt's failure
  like any other (idp_api_client.go:313) and, once every grant has failed,
  answers 401 with code `10000` (idp_api_client.go:340-350; `AuthOutcomes`,
  `AdminAuthentication`). In the client wrappers, createClient through
  deleteClient, the same failure is a 500 (idp_api_client.go:364-630);
  the user wrappers, createUser through setUserPassword, write no response
  and hand the error back to their caller (idp_api_client.go:632-823).
- **An unreadable body in update and delete is a plain 500.**
  `ioutil.ReadAll` fails there with the reader's own message, not with an
  `ApiError` (controller.go:217-223). In create, the body goes straight to
  the JSON decoder, so a read failure is a decoding failure and gives 400
  with code 1003 (controller.go:133-140).

## Model

| member | source | states |
|---|---|---|
| ApiErrors.Code | apierror/api.go:28-104 | every code the constructor table hands out is a four-digit number starting with 10, so none is the upstream-failure code 10000 |
| ApiErrors.Message | apierror/api.go:28-104 | every constructor of the table carries a non-empty message |
| ApiErrors.TestError | apierror/api.go:21-26 | the test error's code belongs to no constructor of the table and is not the upstream-failure code |
| ApiErrors.Render | apierror/api.go:13-19 | the rendering of an error is a JSON object: it opens with a brace and closes with one |
| ApiErrors.KindOfCode | apierror/api.go:28-104 | a code maps back to a constructor only if that constructor carries exactly this code |
| ApiErrors.CodesIdentifyConstructors | apierror/api.go:21-104 | every constructor's code leads back to that constructor; neither the upstream-failure code 10000 nor TestError's XXX belongs to any constructor |
| ApiErrors.CodesDistinct | apierror/api.go:28-104 | two constructors share a code exactly when they are the same constructor, and no constructor code is 10000 or XXX |
| ApiErrors.RenderRoundTrip | apierror/api.go:13-19 | the JSON rendering of any ApiError, whatever Unicode text its code and message hold, parses back to the same code and message |
| ApiErrors.RenderKeyOrder | apierror/api.go:8-19 | the rendering starts with the "code" key, so code precedes message |
| JsonText.EscapeRoundTrip | apierror/api.go:14 | the escaped form of any string followed by a closing quote decodes back to that string and leaves the rest of the input untouched |
| JsonText.QuoteRoundTrip | apierror/api.go:14 | a quoted string starts with a quote, and its contents decode back to the original string |
| Http.Emit | controller.go:199-201 | the first status written sticks, the body only grows, and writing nothing leaves the response as it was |
| Http.ResponseWriter.WriteHeader | controller.go:91 | sets the status only when none was committed yet |
| Http.ResponseWriter.Write | controller.go:201 | commits 200 when no status was written, then appends the data |
| Http.ResponseWriter.Error | controller.go:140 | writes the status, then the message and a newline |
| Http.ResponseWriter.Reply | controller.go:200-201 | writes the status and then the body |
| IdpApiClient.AdminAuthBody | idp_api_client.go:231-248 | exactly one grant, and the identity it establishes is the configured admin |
| IdpApiClient.AuthBodyFromBasicAuth | idp_api_client.go:250-282 | grants exist exactly when Basic-Auth credentials were given, otherwise code 1008; there are exactly two, and each establishes the Basic-Auth username as the identity |
| IdpApiClient.Classify | idp_api_client.go:205-229 | doRequest's verdict on a reply: success exactly for a response with status 200, 201 or 204; a response's body is passed on as the value or as the error text; a transport or read failure carries its reason |
| IdpApiClient.Label | idp_api_client.go:330-334 | the identity a successful grant establishes: its username when it has one, otherwise its client_id (stated by RedactKeepsLabel and AuthBodyFromBasicAuth) |
| IdpApiClient.Redact | idp_api_client.go:315-321 | keeps the same keys; password and client_secret become "xxx", and every other key keeps its value |
| IdpApiClient.RedactKeepsLabel | idp_api_client.go:315-334 | redaction does not change the identity label that authenticate reads from a grant |
| IdpApiClient.RedactIdempotent | idp_api_client.go:315-321 | redacting twice is the same as redacting once |
| IdpApiClient.RedactedPrefix | idp_api_client.go:300-321 | after n attempts, exactly the first n grants of the list are redacted and the rest are untouched |
| IdpApiClient.TokenCalls | idp_api_client.go:300-313 | one token request per grant, in list order |
| IdpApiClient.Negotiate | idp_api_client.go:300-338 | never more attempts than grants, and at least one when the list is not empty |
| IdpApiClient.NegotiateReplies | idp_api_client.go:300-313 | attempt k is the token request for grant k, made after the requests for the grants before it |
| IdpApiClient.NegotiateStops | idp_api_client.go:323-337 | every attempt but the last failed; stopping before the end of the list means the last attempt succeeded |
| IdpApiClient.NegotiationVerdict | idp_api_client.go:297-338 | the verdict never counts more attempts than there are grants |
| IdpApiClient.GrantLoop | idp_api_client.go:300-338 | the loop continued from attempt n ends at or after n and never beyond the grant list |
| IdpApiClient.GrantLoopAgrees | idp_api_client.go:300-338 | the step-by-step loop state (last error, token body, label) ends at the verdict defined over the whole attempt sequence |
| IdpApiClient.FirstMatch | idp_api_client.go:502 | the index is within the list or just past it; a record there holds the key, and no earlier record does |
| IdpApiClient.FirstMatchIsFirst | idp_api_client.go:502 | any index that matches with no earlier match is the one selected |
| IdpApiClient.FirstMatchNone | idp_api_client.go:502-503 | with no matching record, selection falls off the end of the list |
| IdpApiClient.MissingCredentials | idp_api_client.go:255-262 | with no Basic-Auth header, no call reaches the IdP, the result is code 1008, and 401 is written |
| IdpApiClient.CallerAuthentication | idp_api_client.go:264-338 | the password grant through the configured client goes first; the client-credentials grant follows only if it fails; success always names the Basic-Auth user |
| IdpApiClient.AdminAuthentication | idp_api_client.go:284-362 | exactly one admin password grant, against realm master; its failure is 401 with code 10000 and the IdP's text; a reply whose token decodes is a success carrying that token and the admin's name, with nothing written, and one whose token does not decode is a plain 500 with the decoder's error; every success is of that form |
| IdpApiClient.AuthOutcomes | idp_api_client.go:297-361 | the calls are the token requests for the grants tried, in order; 401 is written exactly when every grant was tried and failed, and then the result is the last attempt's error and the page carries code 10000 with that error's text; when the last attempt succeeded, a token that decodes gives a success carrying that token and that grant's label with nothing written, and one that does not gives a plain 500 with the decoder's error; every success is of that form |
| IdpApiClient.AuthRun | idp_api_client.go:284-362 | authenticate as a function of the grant getter's result and the IdP's replies; its properties are stated by AuthOutcomes and ControllerProperties.AuthWrites |
| IdpApiClient.ClientFailureSurfaced | idp_api_client.go:384-396 | a client call succeeds exactly on status 200, 201 or 204; a failure is code 10000 with the IdP's text or the transport reason, written as 500, and its body parses back to that error |
| IdpApiClient.ClientCall | idp_api_client.go:384-396 | a client wrapper writes a response exactly when the call failed, and that response is a 500 |
| IdpApiClient.ClientLookup | idp_api_client.go:456-507 | getClient writes a response exactly when it fails, and always a 500: the call failed or the listing did not parse |
| IdpApiClient.ClientIdLookup | idp_api_client.go:402-452 | getClientID writes a response exactly when it fails, and always a 500 |
| IdpApiClient.SecretLookup | idp_api_client.go:510-554 | getClientSecret succeeds exactly when the call succeeds and its body decodes as a secret, and then returns the decoded secret with nothing written; otherwise it writes a 500 |
| IdpApiClient.ClientLookupFirstMatch | idp_api_client.go:490-507 | getClient returns the id of the first record whose clientId matches, or an empty record when none does, and writes nothing |
| IdpApiClient.ClientIdAlwaysEmpty | idp_api_client.go:436-452 | getClientID succeeds exactly when the call and the parse do, and then returns "" |
| IdpApiClient.UserLookupOutcomes | idp_api_client.go:706-753 | no matching username is the out-of-range outcome; otherwise the first match decides: its id when that is text, else code 1010 |
| IdpApiClient.UserIdLookup | idp_api_client.go:675-753 | when getUserID fails with an ApiError, it is code 10000 from the IdP call or the internal-server-error constructor for a matching record whose id is not text |
| IdpApiClient.UserFailureWrapped | idp_api_client.go:658-669 | a user call fails exactly on a transport error or a status other than 200, 201 or 204, and the failure is code 10000 with the IdP's text |
| IdpApiClient.UserCall | idp_api_client.go:658-669 | a user wrapper's failure is always an ApiError with code 10000 |
| IdpApiClient.IdpClient.DoRequest | idp_api_client.go:205-229 | logs exactly the one call; success exactly for status 200, 201 or 204 with the body passed on; otherwise the error is the raw body or the transport reason |
| IdpApiClient.IdpClient.TryGrants | idp_api_client.go:297-338 | issues the token requests for the grants the verdict counts, in order; redacts exactly those grants; returns the verdict's error, token body and label |
| IdpApiClient.IdpClient.Authenticate | idp_api_client.go:284-362 | log, result and response equal the authentication outcome; the logged grant list is redacted up to the attempts made |
| IdpApiClient.IdpClient.CreateClient | idp_api_client.go:364-399 | one POST of the client with the given token; the outcome and the response are the wrapped failure or nothing |
| IdpApiClient.IdpClient.GetClientId | idp_api_client.go:402-453 | one listing query; a success returns the empty id |
| IdpApiClient.IdpClient.GetClient | idp_api_client.go:456-508 | one listing query; the result is the first-match lookup of the reply |
| IdpApiClient.IdpClient.GetClientSecret | idp_api_client.go:510-554 | one secret request for the given id; the result is the decoded secret or the wrapped failure |
| IdpApiClient.IdpClient.UpdateClient | idp_api_client.go:556-593 | one PUT of the client to the given id; the outcome is the wrapped failure or nothing |
| IdpApiClient.IdpClient.DeleteClient | idp_api_client.go:595-630 | one DELETE of the given id; the outcome is the wrapped failure or nothing |
| IdpApiClient.IdpClient.CreateUser | idp_api_client.go:632-672 | one POST of the user; a failure is returned and nothing is written |
| IdpApiClient.IdpClient.GetUserId | idp_api_client.go:675-754 | one users query; the result is the first-match lookup of the reply by username |
| IdpApiClient.IdpClient.DeleteUser | idp_api_client.go:756-788 | one DELETE of the user id; a failure is returned and nothing is written |
| IdpApiClient.IdpClient.SetUserPassword | idp_api_client.go:790-823 | one PUT of the credential for the user id; a failure is returned and nothing is written |
| Controller.ApplyRedirectDefaults | controller.go:151-157 | with standard flow on and at least one redirect URI, rootUrl and adminUrl become the first URI and webOrigins becomes the URI list; otherwise the client is unchanged; no other field ever changes |
| Controller.RedirectDefaultsIdempotent | controller.go:151-157 | applying the redirect defaults twice is the same as once |
| Controller.SecretJsonRoundTrip | controller.go:189-201 | the `{"value":…}` body of a created client parses back to the secret |
| Controller.ProvisionSpec | controller.go:169-201 | the create handler's stage after admin login always writes a response |
| Controller.GatedSpec | controller.go:270-297 | the update and delete stage after admin login always writes a response |
| Controller.CreateSpec | controller.go:120-202 | the create handler always writes a response |
| Controller.UpdateSpec | controller.go:205-297 | the update handler always writes a response |
| Controller.DeleteSpec | controller.go:300-383 | the delete handler always writes a response |
| Controller.HealthSpec | controller.go:62-92 | the health check always writes a response |
| Controller.Controller.HealthCheck | controller.go:62-92 | log and response equal the health check's specification |
| Controller.Controller.CreateResource | controller.go:120-202 | log and response equal the create handler's specification: caller auth, decode, validate, defaults, admin auth, stamping, create, look up, fetch secret, reply |
| Controller.Controller.UpdateResource | controller.go:205-297 | log and response equal the update handler's specification, with each step returning early on failure |
| Controller.Controller.DeleteResource | controller.go:300-383 | log and response equal the delete handler's specification, with each step returning early on failure |
| Controller.Controller.Provision | controller.go:169-201 | log and response equal the create-look-up-fetch stage's specification |
| Controller.Controller.Gated | controller.go:270-297 | log and response equal the look-up, secret, compare and change stage's specification |
| Controller.Controller.AdminProvision | controller.go:159-201 | log and response equal create's stage from admin authentication on |
| Controller.Controller.AdminGated | controller.go:262-297 | log and response equal update's and delete's stage from admin authentication on |
| ControllerProperties.AuthWrites | idp_api_client.go:340-361 | authentication writes a response exactly when it fails, and then only 401 or 500 |
| ControllerProperties.AuthCallsTokenOnly | idp_api_client.go:300-313 | authentication issues only token-endpoint requests |
| ControllerProperties.GatedStage | controller.go:270-293 | one to three calls, none to the token endpoint, all with the given token |
| ControllerProperties.GatedGuard | controller.go:270-293 | a call to the change's endpoint is only the last call, made right after the same client's secret was fetched with the same token and equalled the submitted one |
| ControllerProperties.GatedOutcome | controller.go:270-297 | the stage always answers, never with 400, and answers 201 exactly when all three calls were made and the IdP accepted the change |
| ControllerProperties.GatedSteps | controller.go:270-297 | the first call looks the client up by its clientId and a failed lookup ends the stage with its page; otherwise the secret of the id the lookup returned is fetched and a failed fetch ends it; a fetched secret other than the submitted one ends it with 401 and code 1009; a matching one is followed by the change on that same id as the third and last call |
| ControllerProperties.ProvisionStage | controller.go:169-187 | one to three calls with the given token, and the client created is exactly the one given |
| ControllerProperties.ProvisionOutcome | controller.go:169-201 | the client is created first and a failed creation ends the stage with its page; otherwise it is looked up by clientId and a failed lookup ends it; otherwise the secret of the id the lookup returned is fetched as the third and last call; always answers, never with 400; 201 exactly when that secret decoded, and the body parses back to that secret |
| ControllerProperties.AdminGatedStage | controller.go:262-297 | always answers, never with 400; a failed admin login leaves only token requests; otherwise every call carries the admin token; a change is issued only right after a matching secret; 201 exactly when the change was the last call and the IdP accepted it |
| ControllerProperties.AdminProvisionStage | controller.go:159-201 | a failed admin login leaves only token requests; otherwise every call carries the admin token; the given client is created; 201 exactly when the secret was fetched, with a body that parses back to it |
| ControllerProperties.MissingCredentialsRefused | idp_api_client.go:255-262 | with no Basic-Auth header, create, update and delete make no call and answer 401 with code 1008 |
| ControllerProperties.UpdateRefusals | controller.go:215-252 | 400 exactly when the caller authenticated, the body was read and the payload fails to decode or lacks clientId or clientSecret; 400 means no call beyond the caller's token requests; decoding errors are 1003 and a missing field is 1007; an unreadable body is 500 |
| ControllerProperties.UpdateGuarded | controller.go:262-297 | any call beyond token requests means an accepted caller and payload and a successful admin login, whose token every call carries; a replace is issued only right after a matching secret; 201 exactly when the IdP accepted the replace |
| ControllerProperties.UpdateSecretGate | controller.go:262-297 | past the caller, the payload and the admin login: the client is looked up, then the secret of the id found is fetched; a different secret ends the request with 401 and code 1009 after exactly those two calls; a matching one is followed by exactly one more call, the PUT to that id of the submitted client with redirect defaults and publicClient false |
| ControllerProperties.DeleteRefusals | controller.go:310-347 | 400 exactly when the caller authenticated, the body was read and the payload fails to decode or lacks clientId; 400 means no call beyond the caller's token requests; decoding errors are 1003 and a missing field is 1007; an unreadable body is 500 |
| ControllerProperties.DeleteGuarded | controller.go:349-383 | any call beyond token requests means an accepted caller and payload and a successful admin login, whose token every call carries; a delete is issued only right after a matching secret; 201 exactly when the IdP accepted the delete |
| ControllerProperties.DeleteSecretGate | controller.go:349-383 | past the caller, the payload and the admin login: the client is looked up, then the secret of the id found is fetched; a different secret ends the request with 401 and code 1009 after exactly those two calls; a matching one is followed by exactly one more call, the DELETE of that id |
| ControllerProperties.EmptySecretPolicy | controller.go:342-347 | an empty submitted secret is a 1007 refusal in update, but delete goes on to the admin password grant |
| ControllerProperties.CreateRefusals | controller.go:133-149 | 400 exactly when the caller authenticated and the body is unreadable, does not decode, or lacks clientId; a payload that decodes but lacks clientId is 1007; no call beyond the caller's token requests then |
| ControllerProperties.CreateGuarded | controller.go:159-171 | any call beyond token requests means an accepted caller and payload and a successful admin login, whose token every call carries; the client created is the submitted one with redirect defaults, publicClient false and description "Client created by " plus the Basic-Auth user |
| ControllerProperties.CreateSucceeds | controller.go:177-201 | create answers 201 exactly when its last call fetched a secret that decoded, and the body parses back to that secret |
| ControllerProperties.CreateProvisions | controller.go:159-201 | past the caller, the payload and the admin login: the stamped client is created, then looked up by clientId, then the secret of the id found is fetched as the last call, each failure ending the request with that step's page; 201 exactly when that secret decoded, with a body that parses back to it |
| ControllerProperties.HealthOutcomes | controller.go:62-92 | one unauthenticated probe of the check URL; 200 with an empty body exactly when it succeeded, otherwise 500 whose body parses back to code 10000 with the IdP's text |

## Left out

- Request construction: `http.NewRequest` failures (for example
  idp_api_client.go:303-309 and controller.go:68-74) and request headers.
  URLs are built from the templates in app.go; the `Authorization` header is
  the call's `bearer` field; `Content-Type` is not modelled.
- Encoding of request bodies: a form or a marshalled record travels as a
  structured payload, not as bytes.
- JSON decoding: `encoding/json`, `gojsonq` and `mapstructure` are the
  decoders of `Codec` and `PayloadCodec`, taken as given functions. A
  `gojsonq` error list appears as one message on a 500 page.
- `json.Marshal` of the secret and of outgoing records (controller.go:189-197,
  idp_api_client.go:372 and similar): these fixed structs of strings and
  booleans cannot fail to marshal, so those error branches are not modelled.
- IdpApiClient.UserLookupOutcomes: the query library's error reporting is
  abstracted. `jq.Error()` after the parse and after the query
  (idp_api_client.go:711-723) also reports query errors, for example records
  that lack the queried field; the model folds all of them into the listing
  decoder's failure. The shape assertions (idp_api_client.go:725-746) are
  modelled only for the id: a listing that parses is a sequence of records,
  so the array and map assertions cannot fail in the model. The Go index
  panic on an empty match becomes the explicit `IndexOutOfRange` outcome.
- Byte-level text: strings are sequences of Unicode characters. Go strings
  are bytes, and `encoding/json` replaces invalid UTF-8 with U+FFFD when it
  writes a string, so ApiErrors.RenderRoundTrip and
  Controller.SecretJsonRoundTrip hold for valid text only.
- JsonText.EscapeRoundTrip: the escaping is the form `encoding/json` used
  before Go 1.22. It writes backspace and form feed as `\u0008` and `\u000c`;
  Go 1.22 and later write them as `\b` and `\f`. The round trip holds either
  way, but the bytes of an error body with those characters differ.
- ControllerProperties.GatedStage: states only the number of calls, their
  endpoints and their token. The order of the steps, the id the secret is
  fetched for and the answer are stated by GatedSteps, GatedGuard and
  GatedOutcome.
- ControllerProperties.AdminGatedStage: states the secret gate one way only
  (a change follows a matching secret). The converse, and the 401 with code
  1009 on a mismatch, are stated per handler by UpdateSecretGate and
  DeleteSecretGate.
- ControllerProperties.AdminProvisionStage: does not tie the fetched secret
  to the id the lookup returned. CreateProvisions states that.
- ControllerProperties.UpdateGuarded: states the gate one way only and not
  the replace payload. UpdateSecretGate states the mismatch answer, the
  replace on a match and its payload.
- ControllerProperties.DeleteGuarded: states the gate one way only.
  DeleteSecretGate states the mismatch answer and the removal on a match.
- ControllerProperties.CreateSucceeds: does not tie the fetched secret to
  the created client. CreateProvisions states the create, look-up and
  fetch chain on the id the lookup returned.
- Logging (logging/logging.go and every log call). The one logged value
  that matters, the grant list after redaction, is returned as `logged` by
  `Authenticate`.
- The test doubles `APIClientMock` and `APIClientInternalServerErrorMock`
  (idp_api_client.go:74-203), the test files and test_data.go.
- `ReadSwagger` (controller.go:94-117), which is file I/O. Routing,
  environment loading and server timeouts in app.go are left out too.
- Concurrency: each request runs sequentially, and all calls go into one log.
