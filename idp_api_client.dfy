/**
 * The IdP gateway client (idp_api_client.go): the grant bodies used to
 * obtain tokens, the ordered negotiation over them, and the CRUD wrappers
 * around the IdP admin API.
 *
 * The HTTP transport and the IdP behind it are one abstract oracle: an
 * `IdpClient` records every call it is asked to make in `calls`, and the
 * reply to a call is `up.script(history, call)`, a fixed function of the
 * calls made before it and of the call itself. JSON decoding of replies is
 * abstract too (`Codec`). Because replies are a function of the history,
 * every operation also has a pure description (`Negotiate`, `AuthRun`,
 * `ClientCall`, `ClientLookup`, ...) and each method is proved to behave
 * exactly as that description says.
 */
module IdpApiClient {
  import opened Wrappers
  import opened ApiErrors
  import opened Http
  import opened Records

  /** The configuration the handlers read (app.go:18-36), minus the HTTP client and the URL templates. */
  datatype Config = Config(
    idpUrl: string,
    clientId: string,
    clientSecret: string,
    apiClientId: string,
    apiClientSecret: string,
    idpAdmin: string,
    idpPass: string,
    idpRealm: string)

  // The URL templates of app.go:55-62, filled in as fmt.Sprintf does.

  function CheckUrl(cfg: Config): string
  {
    cfg.idpUrl + "/auth/admin"
  }

  function ClientsUrl(cfg: Config): string
  {
    cfg.idpUrl + "/auth/admin/realms/" + cfg.idpRealm + "/clients"
  }

  function ClientUrl(cfg: Config, uid: string): string
  {
    ClientsUrl(cfg) + "/" + uid
  }

  function ClientSecretUrl(cfg: Config, uid: string): string
  {
    ClientUrl(cfg, uid) + "/client-secret"
  }

  function TokenUrl(cfg: Config, realm: string): string
  {
    cfg.idpUrl + "/auth/realms/" + realm + "/protocol/openid-connect/token"
  }

  function UsersUrl(cfg: Config): string
  {
    cfg.idpUrl + "/auth/admin/realms/" + cfg.idpRealm + "/users"
  }

  function UserUrl(cfg: Config, uid: string): string
  {
    UsersUrl(cfg) + "/" + uid
  }

  function UserPasswordUrl(cfg: Config, uid: string): string
  {
    UserUrl(cfg, uid) + "/reset-password"
  }

  /** The username and password of an HTTP Basic-Auth header. */
  datatype Credentials = Credentials(username: string, password: string)

  /** url.Values: a form-encoded body, each key mapped to its list of values. */
  type Form = map<string, seq<string>>

  datatype Verb = Get | Post | Put | Delete

  /** Which IdP endpoint a call addresses. */
  datatype Endpoint =
    | TokenGrant | HealthProbe
    | ListClients | NewClient | FetchSecret | ReplaceClient | RemoveClient
    | ListUsers | NewUser | RemoveUser | ResetPassword

  /** The request body, before JSON or form encoding. */
  datatype Payload =
    | NoPayload
    | FormBody(form: Form)
    | ClientBody(client: Client)
    | ClientWithSecretBody(withSecret: ClientWithSecret)
    | UserBody(user: User)
    | CredentialBody(credential: UserSecret)

  /** One outbound request: its endpoint, method, URL, bearer token (if any) and body. */
  datatype Call = Call(endpoint: Endpoint, verb: Verb, url: string, bearer: Option<string>, payload: Payload)

  /** What the transport hands back: a connection failure, a failure reading the body, or a status and body. */
  datatype Reply = TransportFailure(reason: string) | ReadFailure(reason: string) | Response(status: int, body: string)

  /**
   * JSON decoding of reply bodies: into Token (the access_token), into
   * ClientSecret (the value), and the query library's parse of a listing.
   * A Failure carries the decoder's error text.
   */
  datatype Codec = Codec(
    token: string -> Result<string, string>,
    secret: string -> Result<string, string>,
    listing: string -> Result<seq<Record>, string>)

  /** The IdP as the model sees it: the reply to each call given the calls before it, and the decoders. */
  datatype Upstream = Upstream(script: (seq<Call>, Call) -> Reply, codec: Codec)

  /** Go's `error`: either an ApiError or a plain error carrying a message. */
  datatype Error = Api(apiError: ApiError) | Plain(message: string)

  function ErrorOf<T>(r: Result<T, Error>): Option<Error>
  {
    if r.Failure? then Some(r.error) else None
  }

  // ---------------------------------------------------------------------------
  // doRequest's classification of replies

  predicate IsSuccessStatus(status: int)
  {
    status == 200 || status == 201 || status == 204
  }

  /** doRequest once the transport has answered: the body on success, the failure text otherwise. */
  function Classify(r: Reply): (res: Result<string, string>)
    ensures res.Success? <==> r.Response? && IsSuccessStatus(r.status)
    ensures r.Response? ==> (if res.Success? then res.value else res.error) == r.body
    ensures !r.Response? ==> res == Failure(r.reason)
  {
    match r
    case TransportFailure(reason) => Failure(reason)
    case ReadFailure(reason) => Failure(reason)
    case Response(status, body) => if IsSuccessStatus(status) then Success(body) else Failure(body)
  }

  // ---------------------------------------------------------------------------
  // Grant bodies

  /** A list of grant bodies to try in order, all against one token URL. */
  datatype Grants = Grants(forms: seq<Form>, url: string)

  const PasswordKey: string := "password"
  const ClientSecretKey: string := "client_secret"
  const Mask: string := "xxx"

  function PasswordGrant(username: string, password: string, clientId: string, clientSecret: string): Form
  {
    map["username" := [username], "password" := [password], "grant_type" := ["password"],
        "client_id" := [clientId], "client_secret" := [clientSecret]]
  }

  function ClientCredentialsGrant(clientId: string, clientSecret: string): Form
  {
    map["grant_type" := ["client_credentials"], "client_id" := [clientId], "client_secret" := [clientSecret]]
  }

  /** A grant body from which the identity label can be read without an index panic. */
  predicate Labelled(f: Form)
  {
    if "username" in f then f["username"] != [] else "client_id" in f && f["client_id"] != []
  }

  predicate AllLabelled(forms: seq<Form>)
  {
    forall k :: 0 <= k < |forms| ==> Labelled(forms[k])
  }

  /** The identity a successful grant establishes: its username, otherwise its client_id. */
  function Label(f: Form): string
    requires Labelled(f)
  {
    if "username" in f then f["username"][0] else f["client_id"][0]
  }

  /** getAdminAuthBody: one password grant for the configured admin, always against realm "master". */
  function AdminAuthBody(cfg: Config): (g: Grants)
    ensures AllLabelled(g.forms)
    ensures |g.forms| == 1 && Label(g.forms[0]) == cfg.idpAdmin
  {
    Grants([PasswordGrant(cfg.idpAdmin, cfg.idpPass, cfg.apiClientId, cfg.apiClientSecret)], TokenUrl(cfg, "master"))
  }

  /**
   * getAuthBodyFromBasicAuth: without Basic-Auth credentials, the
   * invalid-basic-auth error; with them, the resource-owner password grant
   * through the configured public client, then the client-credentials grant
   * reading the username as a client id, both against the configured realm.
   */
  function AuthBodyFromBasicAuth(cfg: Config, auth: Option<Credentials>): (r: Result<Grants, ApiError>)
    ensures r.Success? <==> auth.Some?
    ensures r.Failure? ==> r.error.code == Code(InvalidBasicAuthHeaders)
    ensures r.Success? ==> AllLabelled(r.value.forms)
    ensures r.Success? ==> |r.value.forms| == 2 && forall k :: 0 <= k < 2 ==> Label(r.value.forms[k]) == auth.value.username
  {
    match auth
    case None => Failure(Of(InvalidBasicAuthHeaders))
    case Some(Credentials(username, password)) =>
      Success(Grants(
        [PasswordGrant(username, password, cfg.clientId, cfg.clientSecret),
         ClientCredentialsGrant(username, password)],
        TokenUrl(cfg, cfg.idpRealm)))
  }

  /** The in-place overwrite of a grant body after its attempt: secret entries become "xxx", nothing else moves. */
  function Redact(f: Form): (r: Form)
    ensures r.Keys == f.Keys
    ensures forall k :: k in r ==> r[k] == if k == PasswordKey || k == ClientSecretKey then [Mask] else f[k]
  {
    var f1 := if PasswordKey in f then f[PasswordKey := [Mask]] else f;
    if ClientSecretKey in f1 then f1[ClientSecretKey := [Mask]] else f1
  }

  /** Redaction never touches the entries the label is read from, so the label survives it. */
  lemma RedactKeepsLabel(f: Form)
    requires Labelled(f)
    ensures Labelled(Redact(f)) && Label(Redact(f)) == Label(f)
  {
  }

  /** Redacting twice is redacting once. */
  lemma RedactIdempotent(f: Form)
    ensures Redact(Redact(f)) == Redact(f)
  {
  }

  /** The grant list after the first `n` attempts have been redacted. */
  function RedactedPrefix(forms: seq<Form>, n: nat): (r: seq<Form>)
    ensures |r| == |forms|
    ensures forall k :: 0 <= k < |forms| ==> r[k] == if k < n then Redact(forms[k]) else forms[k]
  {
    seq(|forms|, k requires 0 <= k < |forms| => if k < n then Redact(forms[k]) else forms[k])
  }

  lemma RedactedPrefixSnoc(forms: seq<Form>, n: nat)
    requires n < |forms|
    ensures RedactedPrefix(forms, n)[n := Redact(forms[n])] == RedactedPrefix(forms, n + 1)
  {
  }

  // ---------------------------------------------------------------------------
  // Negotiation

  function TokenRequest(url: string, form: Form): Call
  {
    Call(TokenGrant, Post, url, None, FormBody(form))
  }

  /** The token requests for the given grant bodies, in order. */
  function TokenCalls(url: string, forms: seq<Form>): (cs: seq<Call>)
    ensures |cs| == |forms|
    ensures forall k :: 0 <= k < |forms| ==> cs[k] == TokenRequest(url, forms[k])
  {
    seq(|forms|, k requires 0 <= k < |forms| => TokenRequest(url, forms[k]))
  }

  lemma TokenCallsSnoc(url: string, forms: seq<Form>, n: nat)
    requires n < |forms|
    ensures TokenCalls(url, forms[..n + 1]) == TokenCalls(url, forms[..n]) + [TokenRequest(url, forms[n])]
  {
  }

  lemma TokenCallsCons(url: string, forms: seq<Form>, k: nat)
    requires 1 <= k <= |forms|
    ensures TokenCalls(url, forms[..k]) == [TokenRequest(url, forms[0])] + TokenCalls(url, forms[1..][..k - 1])
  {
  }

  /**
   * The replies the negotiation receives, one per attempt it issues: the
   * grants are tried in order and the first success ends the loop.
   */
  function Negotiate(script: (seq<Call>, Call) -> Reply, h: seq<Call>, url: string, forms: seq<Form>)
    : (replies: seq<Result<string, string>>)
    ensures |replies| <= |forms|
    ensures forms != [] ==> replies != []
    decreases |forms|
  {
    if forms == [] then []
    else
      var r := Classify(script(h, TokenRequest(url, forms[0])));
      if r.Success? then [r]
      else [r] + Negotiate(script, h + [TokenRequest(url, forms[0])], url, forms[1..])
  }

  /** One more turn of the negotiation from the state after `n` attempts. */
  lemma NegotiateStep(script: (seq<Call>, Call) -> Reply, h: seq<Call>, url: string, forms: seq<Form>, n: nat)
    requires n < |forms|
    ensures var r := Classify(script(h + TokenCalls(url, forms[..n]), TokenRequest(url, forms[n])));
      Negotiate(script, h + TokenCalls(url, forms[..n]), url, forms[n..]) ==
        if r.Success? then [r] else [r] + Negotiate(script, h + TokenCalls(url, forms[..n + 1]), url, forms[n + 1..])
  {
    TokenCallsSnoc(url, forms, n);
    var h' := h + TokenCalls(url, forms[..n]);
    assert forms[n..] != [] && forms[n..][0] == forms[n];
    assert forms[n..][1..] == forms[n + 1..];
    assert h' + [TokenRequest(url, forms[n])] == h + TokenCalls(url, forms[..n + 1]);
  }

  /** The replies still to come once `n` attempts have been made. */
  function Remaining(script: (seq<Call>, Call) -> Reply, h: seq<Call>, url: string, forms: seq<Form>, n: nat): seq<Result<string, string>>
    requires n <= |forms|
  {
    Negotiate(script, h + TokenCalls(url, forms[..n]), url, forms[n..])
  }

  lemma RemainingStep(script: (seq<Call>, Call) -> Reply, h: seq<Call>, url: string, forms: seq<Form>, n: nat)
    requires n < |forms|
    ensures var r := Classify(script(h + TokenCalls(url, forms[..n]), TokenRequest(url, forms[n])));
      Remaining(script, h, url, forms, n) == if r.Success? then [r] else [r] + Remaining(script, h, url, forms, n + 1)
  {
    NegotiateStep(script, h, url, forms, n);
  }

  lemma RemainingStart(script: (seq<Call>, Call) -> Reply, h: seq<Call>, url: string, forms: seq<Form>)
    ensures Remaining(script, h, url, forms, 0) == Negotiate(script, h, url, forms)
    ensures Remaining(script, h, url, forms, |forms|) == []
  {
    assert forms[..0] == [] && forms[0..] == forms;
    assert h + TokenCalls(url, forms[..0]) == h;
    assert forms[|forms|..] == [];
  }

  lemma ShiftedHistory(h: seq<Call>, url: string, forms: seq<Form>, k: nat)
    requires 1 <= k <= |forms|
    ensures h + TokenCalls(url, forms[..k]) == (h + [TokenRequest(url, forms[0])]) + TokenCalls(url, forms[1..][..k - 1])
  {
    TokenCallsCons(url, forms, k);
  }

  /**
   * Attempt k is the token request for grant k, issued after attempts
   * 0..k-1 and answered by the IdP in that history.
   */
  lemma {:induction false} NegotiateReplies(script: (seq<Call>, Call) -> Reply, h: seq<Call>, url: string, forms: seq<Form>)
    ensures var replies := Negotiate(script, h, url, forms);
      forall k :: 0 <= k < |replies| ==>
        replies[k] == Classify(script(h + TokenCalls(url, forms[..k]), TokenRequest(url, forms[k])))
    decreases |forms|
  {
    if forms != [] {
      var first := TokenRequest(url, forms[0]);
      var r := Classify(script(h, first));
      assert h + TokenCalls(url, forms[..0]) == h by {
        assert forms[..0] == [];
      }
      if r.Failure? {
        var rest := Negotiate(script, h + [first], url, forms[1..]);
        NegotiateReplies(script, h + [first], url, forms[1..]);
        var replies := [r] + rest;
        forall k | 1 <= k < |replies|
          ensures replies[k] == Classify(script(h + TokenCalls(url, forms[..k]), TokenRequest(url, forms[k])))
        {
          ShiftedHistory(h, url, forms, k);
          assert forms[1..][k - 1] == forms[k];
        }
      }
    }
  }

  /** Every attempt but the last failed; fewer attempts than grants means the last one succeeded. */
  lemma {:induction false} NegotiateStops(script: (seq<Call>, Call) -> Reply, h: seq<Call>, url: string, forms: seq<Form>)
    ensures var replies := Negotiate(script, h, url, forms);
      && (forall k :: 0 <= k < |replies| - 1 ==> replies[k].Failure?)
      && (|replies| < |forms| ==> replies[|replies| - 1].Success?)
    decreases |forms|
  {
    if forms != [] {
      var first := TokenRequest(url, forms[0]);
      if Classify(script(h, first)).Failure? {
        NegotiateStops(script, h + [first], url, forms[1..]);
      }
    }
  }

  /** What the grant loop leaves behind: attempts issued, the last failure, the winning body and its label. */
  datatype Verdict = Verdict(attempts: nat, authErr: Option<string>, tokenBody: string, entity: string)

  /** The grant loop's verdict: the failure of the last attempt, or the body and label of the winning one. */
  function NegotiationVerdict(script: (seq<Call>, Call) -> Reply, h: seq<Call>, url: string, forms: seq<Form>): (v: Verdict)
    requires AllLabelled(forms)
    ensures v.attempts <= |forms|
  {
    var replies := Negotiate(script, h, url, forms);
    var n := |replies|;
    if n == 0 then Verdict(0, None, "", "")
    else if replies[n - 1].Failure? then Verdict(n, Some(replies[n - 1].error), "", "")
    else Verdict(n, None, replies[n - 1].value, Label(forms[n - 1]))
  }

  /**
   * The grant loop in functional form: the verdict reached from the state
   * after `n` failed attempts, the last of which failed with `authErr`.
   */
  function GrantLoop(script: (seq<Call>, Call) -> Reply, h: seq<Call>, url: string, forms: seq<Form>, n: nat, authErr: Option<string>)
    : (v: Verdict)
    requires n <= |forms| && AllLabelled(forms)
    ensures n <= v.attempts <= |forms|
    decreases |forms| - n
  {
    if n == |forms| then Verdict(n, authErr, "", "")
    else
      var r := Classify(script(h + TokenCalls(url, forms[..n]), TokenRequest(url, forms[n])));
      if r.Success? then Verdict(n + 1, None, r.value, Label(forms[n]))
      else GrantLoop(script, h, url, forms, n + 1, Some(r.error))
  }

  lemma {:induction false} GrantLoopFrom(script: (seq<Call>, Call) -> Reply, h: seq<Call>, url: string, forms: seq<Form>, n: nat, authErr: Option<string>)
    requires n <= |forms| && AllLabelled(forms)
    ensures var rs := Remaining(script, h, url, forms, n);
      var m := n + |rs|;
      && m <= |forms|
      && GrantLoop(script, h, url, forms, n, authErr) ==
        if rs == [] then Verdict(n, authErr, "", "")
        else if rs[|rs| - 1].Failure? then Verdict(m, Some(rs[|rs| - 1].error), "", "")
        else Verdict(m, None, rs[|rs| - 1].value, Label(forms[m - 1]))
    decreases |forms| - n
  {
    var rs := Remaining(script, h, url, forms, n);
    if n == |forms| {
      RemainingStart(script, h, url, forms);
    } else {
      RemainingStep(script, h, url, forms, n);
      GrantLoopTurn(script, h, url, forms, n, authErr);
      var r := Classify(script(h + TokenCalls(url, forms[..n]), TokenRequest(url, forms[n])));
      if r.Failure? {
        GrantLoopFrom(script, h, url, forms, n + 1, Some(r.error));
        var rest := Remaining(script, h, url, forms, n + 1);
        assert rs == [r] + rest;
        if rest != [] {
          assert rs[|rs| - 1] == rest[|rest| - 1];
        }
      } else {
        assert rs == [r];
      }
    }
  }

  /** Proof helper: one turn of the grant loop, unfolded. */
  lemma GrantLoopTurn(script: (seq<Call>, Call) -> Reply, h: seq<Call>, url: string, forms: seq<Form>, n: nat, authErr: Option<string>)
    requires n < |forms| && AllLabelled(forms)
    ensures var r := Classify(script(h + TokenCalls(url, forms[..n]), TokenRequest(url, forms[n])));
      GrantLoop(script, h, url, forms, n, authErr) ==
        if r.Success? then Verdict(n + 1, None, r.value, Label(forms[n]))
        else GrantLoop(script, h, url, forms, n + 1, Some(r.error))
  {
  }

  /** The loop reaches exactly the verdict the negotiation's replies determine. */
  lemma GrantLoopAgrees(script: (seq<Call>, Call) -> Reply, h: seq<Call>, url: string, forms: seq<Form>)
    requires AllLabelled(forms)
    ensures GrantLoop(script, h, url, forms, 0, None) == NegotiationVerdict(script, h, url, forms)
  {
    GrantLoopFrom(script, h, url, forms, 0, None);
    RemainingStart(script, h, url, forms);
  }

  /** What authenticate hands back on success: the access token and the identity label. */
  datatype Login = Login(token: string, entity: string)

  /** The whole authenticate call: attempts issued, calls made, result and the response it writes. */
  datatype AuthOutcome = AuthOutcome(attempts: nat, calls: seq<Call>, result: Result<Login, Error>, write: Option<Written>)

  /**
   * authenticate, given what the grant getter returned: a getter failure
   * writes 401 and makes no call; otherwise the grant loop runs, a failed
   * last attempt writes 401 with the upstream-failure code and text, a
   * token body that does not decode writes 500, and success yields the
   * token and the label of the winning grant.
   */
  function AuthRun(up: Upstream, h: seq<Call>, getter: Result<Grants, ApiError>): AuthOutcome
    requires getter.Success? ==> AllLabelled(getter.value.forms)
  {
    match getter
    case Failure(e) => AuthOutcome(0, [], Failure(Api(e)), Some(ErrorPage(401, e)))
    case Success(g) =>
      var v := NegotiationVerdict(up.script, h, g.url, g.forms);
      var calls := TokenCalls(g.url, g.forms[..v.attempts]);
      match v.authErr
      case Some(m) => AuthOutcome(v.attempts, calls, Failure(Plain(m)), Some(ErrorPage(401, UpstreamFailure(m))))
      case None =>
        match up.codec.token(v.tokenBody)
        case Failure(m) => AuthOutcome(v.attempts, calls, Failure(Plain(m)), Some(PlainErrorPage(500, m)))
        case Success(t) => AuthOutcome(v.attempts, calls, Success(Login(t, v.entity)), None)
  }

  // ---------------------------------------------------------------------------
  // The CRUD wrappers, reply by reply

  /** The outcome of one wrapper call: its result and what it writes to the response, if anything. */
  datatype Step<T> = Step(result: Result<T, Error>, write: Option<Written>)

  /** What every client wrapper does with doRequest's outcome: a failure becomes code 10000 and a 500. */
  function ClientCall(reply: Reply): (out: Step<string>)
    ensures out.result.Success? <==> out.write.None?
    ensures out.write.Some? ==> out.write.value.status == 500
  {
    match Classify(reply)
    case Success(body) => Step(Success(body), None)
    case Failure(m) => Step(Failure(Api(UpstreamFailure(m))), Some(ErrorPage(500, UpstreamFailure(m))))
  }

  /** The user wrappers wrap a failure the same way but write nothing. */
  function UserCall(reply: Reply): (r: Result<string, Error>)
    ensures r.Failure? ==> r.error.Api? && r.error.apiError.code == UpstreamFailureCode
  {
    match Classify(reply)
    case Success(body) => Success(body)
    case Failure(m) => Failure(Api(UpstreamFailure(m)))
  }

  function JqFailurePage(m: string): Written
  {
    PlainErrorPage(500, "Parsing response to jq failed, [" + m + "]")
  }

  datatype Key = ClientIdKey | UsernameKey

  function KeyOf(r: Record, key: Key): Field
  {
    match key
    case ClientIdKey => r.clientId
    case UsernameKey => r.username
  }

  /** Record `k` is the first one whose `key` field is the text `value`. */
  predicate FirstMatchAt(rs: seq<Record>, key: Key, value: string, k: nat)
  {
    k < |rs| && KeyOf(rs[k], key) == Text(value) && forall j :: 0 <= j < k ==> KeyOf(rs[j], key) != Text(value)
  }

  /** The position of the first record whose `key` field is the text `value`, or |rs| when none is. */
  function FirstMatch(rs: seq<Record>, key: Key, value: string): (k: nat)
    ensures k <= |rs|
    ensures k < |rs| ==> KeyOf(rs[k], key) == Text(value)
    ensures forall j :: 0 <= j < k ==> KeyOf(rs[j], key) != Text(value)
  {
    if rs == [] then 0
    else if KeyOf(rs[0], key) == Text(value) then 0
    else 1 + FirstMatch(rs[1..], key, value)
  }

  function TextOr(f: Field, default: string): string
  {
    if f.Text? then f.text else default
  }

  /** mapstructure's decoding of the selected record; no record leaves every field empty. */
  function ToClientOut(rs: seq<Record>, k: nat): ClientOut
  {
    if k < |rs| then ClientOut(TextOr(rs[k].id, ""), TextOr(rs[k].clientId, "")) else ClientOut("", "")
  }

  /** getClient after its request: the first listed record whose clientId is the requested one. */
  function ClientLookup(codec: Codec, reply: Reply, clientId: string): (out: Step<ClientOut>)
    ensures out.result.Success? <==> out.write.None?
    ensures out.write.Some? ==> out.write.value.status == 500
  {
    var s := ClientCall(reply);
    if s.result.Failure? then Step(Failure(s.result.error), s.write)
    else match codec.listing(s.result.value)
      case Failure(m) => Step(Failure(Plain(m)), Some(JqFailurePage(m)))
      case Success(rs) => Step(Success(ToClientOut(rs, FirstMatch(rs, ClientIdKey, clientId))), None)
  }

  /** getClientID after its request: the query result is discarded, so success always yields "". */
  function ClientIdLookup(codec: Codec, reply: Reply): (out: Step<string>)
    ensures out.result.Success? <==> out.write.None?
    ensures out.write.Some? ==> out.write.value.status == 500
  {
    var s := ClientCall(reply);
    if s.result.Failure? then Step(Failure(s.result.error), s.write)
    else match codec.listing(s.result.value)
      case Failure(m) => Step(Failure(Plain(m)), Some(JqFailurePage(m)))
      case Success(_) => Step(Success(""), None)
  }

  /** getClientSecret after its request: the decoded value, or the decoder's error written as a 500. */
  function SecretLookup(codec: Codec, reply: Reply): (out: Step<string>)
    ensures out.result.Success? <==> out.write.None?
    ensures out.write.Some? ==> out.write.value.status == 500
    ensures out.result.Success? <==> Classify(reply).Success? && codec.secret(Classify(reply).value).Success?
    ensures out.result.Success? ==> codec.secret(Classify(reply).value) == Success(out.result.value)
  {
    var s := ClientCall(reply);
    if s.result.Failure? then Step(Failure(s.result.error), s.write)
    else match codec.secret(s.result.value)
      case Failure(m) => Step(Failure(Plain(m)), Some(PlainErrorPage(500, m)))
      case Success(v) => Step(Success(v), None)
  }

  /** getUserID's outcomes; indexing the empty query result is a runtime panic in the source. */
  datatype UserLookup = UserFound(id: string) | UserLookupFailed(error: Error) | IndexOutOfRange

  /** getUserID after its request: the id of the first record with the username, when it is text. */
  function UserIdLookup(codec: Codec, reply: Reply, username: string): (u: UserLookup)
    ensures u.UserLookupFailed? && u.error.Api? ==>
      u.error.apiError.code == UpstreamFailureCode || u.error.apiError == Of(InternalServerError)
  {
    match UserCall(reply)
    case Failure(e) => UserLookupFailed(e)
    case Success(body) =>
      match codec.listing(body)
      case Failure(m) => UserLookupFailed(Plain(m))
      case Success(rs) =>
        var k := FirstMatch(rs, UsernameKey, username);
        if k == |rs| then IndexOutOfRange
        else if rs[k].id.Text? then UserFound(rs[k].id.text)
        else UserLookupFailed(Api(Of(InternalServerError)))
  }

  // The requests the wrappers issue.

  function HealthRequest(cfg: Config): Call
  {
    Call(HealthProbe, Get, CheckUrl(cfg), None, NoPayload)
  }

  function CreateClientRequest(cfg: Config, token: string, client: Client): Call
  {
    Call(NewClient, Post, ClientsUrl(cfg), Some(token), ClientBody(client))
  }

  function ClientsQuery(cfg: Config, token: string, client: Client): Call
  {
    Call(ListClients, Get, ClientsUrl(cfg), Some(token), ClientBody(client))
  }

  function ClientIdQuery(cfg: Config, token: string, client: ClientWithSecret): Call
  {
    Call(ListClients, Get, ClientsUrl(cfg), Some(token), ClientWithSecretBody(client))
  }

  function SecretRequest(cfg: Config, token: string, uid: string): Call
  {
    Call(FetchSecret, Get, ClientSecretUrl(cfg, uid), Some(token), NoPayload)
  }

  function UpdateClientRequest(cfg: Config, token: string, client: Client, uid: string): Call
  {
    Call(ReplaceClient, Put, ClientUrl(cfg, uid), Some(token), ClientBody(client))
  }

  function DeleteClientRequest(cfg: Config, token: string, uid: string): Call
  {
    Call(RemoveClient, Delete, ClientUrl(cfg, uid), Some(token), NoPayload)
  }

  function CreateUserRequest(cfg: Config, token: string, user: User): Call
  {
    Call(NewUser, Post, UsersUrl(cfg), Some(token), UserBody(user))
  }

  function UsersQuery(cfg: Config, token: string, user: User): Call
  {
    Call(ListUsers, Get, UsersUrl(cfg), Some(token), UserBody(user))
  }

  function DeleteUserRequest(cfg: Config, token: string, uid: string): Call
  {
    Call(RemoveUser, Delete, UserUrl(cfg, uid), Some(token), NoPayload)
  }

  function SetPasswordRequest(cfg: Config, token: string, credential: UserSecret, uid: string): Call
  {
    Call(ResetPassword, Put, UserPasswordUrl(cfg, uid), Some(token), CredentialBody(credential))
  }

  // ---------------------------------------------------------------------------
  // Properties

  /** FirstMatch picks the earliest matching record: any matching record with no match before it is the one. */
  lemma FirstMatchIsFirst(rs: seq<Record>, key: Key, value: string, k: nat)
    requires FirstMatchAt(rs, key, value, k)
    ensures FirstMatch(rs, key, value) == k
  {
  }

  lemma FirstMatchNone(rs: seq<Record>, key: Key, value: string)
    requires forall j :: 0 <= j < |rs| ==> KeyOf(rs[j], key) != Text(value)
    ensures FirstMatch(rs, key, value) == |rs|
  {
  }

  /**
   * Authenticating with no Basic-Auth header: no call reaches the IdP and
   * the caller gets 401 with the invalid-basic-auth error.
   */
  lemma MissingCredentials(up: Upstream, h: seq<Call>, cfg: Config)
    ensures AuthRun(up, h, AuthBodyFromBasicAuth(cfg, None))
      == AuthOutcome(0, [], Failure(Api(Of(InvalidBasicAuthHeaders))), Some(ErrorPage(401, Of(InvalidBasicAuthHeaders))))
  {
  }

  /**
   * Authenticating a caller: the password grant through the configured
   * client goes first, the client-credentials grant goes only when that one
   * fails, and whichever wins, the identity established is the Basic-Auth
   * username.
   */
  lemma CallerAuthentication(up: Upstream, h: seq<Call>, cfg: Config, creds: Credentials)
    ensures var run := AuthRun(up, h, AuthBodyFromBasicAuth(cfg, Some(creds)));
      var url := TokenUrl(cfg, cfg.idpRealm);
      var first := TokenRequest(url, PasswordGrant(creds.username, creds.password, cfg.clientId, cfg.clientSecret));
      var second := TokenRequest(url, ClientCredentialsGrant(creds.username, creds.password));
      && run.calls == (if Classify(up.script(h, first)).Success? then [first] else [first, second])
      && (run.result.Success? ==> run.result.value.entity == creds.username)
  {
    var g := AuthBodyFromBasicAuth(cfg, Some(creds)).value;
    var first := TokenRequest(g.url, g.forms[0]);
    assert g.forms[..1] == [g.forms[0]] && g.forms[..2] == g.forms;
    assert g.forms[1..] == [g.forms[1]] && g.forms[1..][1..] == [];
    if Classify(up.script(h, first)).Failure? {
      assert Negotiate(up.script, h + [first], g.url, g.forms[1..]) != [];
    }
  }

  /**
   * Authenticating the service itself: exactly one password grant for the
   * configured admin against realm "master"; its failure is the caller's
   * 401 with the IdP's text, and its success yields the decoded token for
   * the admin identity.
   */
  lemma AdminAuthentication(up: Upstream, h: seq<Call>, cfg: Config)
    ensures var run := AuthRun(up, h, Success(AdminAuthBody(cfg)));
      var only := TokenRequest(TokenUrl(cfg, "master"), PasswordGrant(cfg.idpAdmin, cfg.idpPass, cfg.apiClientId, cfg.apiClientSecret));
      var reply := Classify(up.script(h, only));
      && run.calls == [only]
      && (reply.Failure? ==> run.result == Failure(Plain(reply.error)) && run.write == Some(ErrorPage(401, UpstreamFailure(reply.error))))
      && (run.result.Success? ==>
            reply.Success? && up.codec.token(reply.value) == Success(run.result.value.token) && run.result.value.entity == cfg.idpAdmin)
      && (reply.Success? ==>
            var token := up.codec.token(reply.value);
            && (token.Success? ==> run.result == Success(Login(token.value, cfg.idpAdmin)) && run.write == None)
            && (token.Failure? ==> run.result == Failure(Plain(token.error)) && run.write == Some(PlainErrorPage(500, token.error))))
  {
    var g := AdminAuthBody(cfg);
    assert g.forms[..1] == g.forms && g.forms[1..] == [];
  }

  /**
   * The outcome of authenticate for any grant list: the calls are the
   * token requests for the grants tried, in order; it answers 401 exactly
   * when every grant was tried and every attempt failed, and then with
   * code 10000 carrying the last attempt's error; when the last attempt
   * succeeded, a token that decodes is a success carrying that token and
   * the grant's label with nothing written, and one that does not is a
   * 500 carrying the decoder's error.
   */
  lemma AuthOutcomes(up: Upstream, h: seq<Call>, g: Grants)
    requires AllLabelled(g.forms)
    ensures var run := AuthRun(up, h, Success(g));
      var rs := Negotiate(up.script, h, g.url, g.forms);
      && run.attempts == |rs|
      && run.calls == TokenCalls(g.url, g.forms[..|rs|])
      && (run.write.Some? && run.write.value.status == 401 <==>
            g.forms != [] && |rs| == |g.forms| && forall k :: 0 <= k < |rs| ==> rs[k].Failure?)
      && (g.forms != [] && |rs| == |g.forms| && (forall k :: 0 <= k < |rs| ==> rs[k].Failure?) ==>
            && run.result == Failure(Plain(rs[|rs| - 1].error))
            && run.write == Some(ErrorPage(401, UpstreamFailure(rs[|rs| - 1].error))))
      && (run.result.Success? && g.forms != [] ==>
            && rs != [] && rs[|rs| - 1].Success?
            && up.codec.token(rs[|rs| - 1].value) == Success(run.result.value.token)
            && run.result.value.entity == Label(g.forms[|rs| - 1]))
      && (rs != [] && rs[|rs| - 1].Success? ==>
            var token := up.codec.token(rs[|rs| - 1].value);
            && (token.Success? ==>
                  run.result == Success(Login(token.value, Label(g.forms[|rs| - 1]))) && run.write == None)
            && (token.Failure? ==>
                  run.result == Failure(Plain(token.error)) && run.write == Some(PlainErrorPage(500, token.error))))
  {
    NegotiateStops(up.script, h, g.url, g.forms);
  }

  /**
   * A failed IdP call in a client wrapper surfaces as a 500 whose body,
   * without its trailing newline, reads back as code 10000 with the IdP's
   * own text; a successful one writes nothing and passes the body on.
   */
  lemma ClientFailureSurfaced(reply: Reply)
    ensures var s := ClientCall(reply);
      && (s.result.Success? <==> reply.Response? && IsSuccessStatus(reply.status))
      && (s.result.Success? ==> s.result.value == reply.body && s.write.None?)
      && (s.result.Failure? ==>
            var text := if reply.Response? then reply.body else reply.reason;
            && s.result.error == Api(UpstreamFailure(text))
            && s.write.Some? && s.write.value.status == 500
            && |s.write.value.body| > 0 && s.write.value.body[|s.write.value.body| - 1] == '\n'
            && Parse(s.write.value.body[..|s.write.value.body| - 1]) == Some(ApiError(UpstreamFailureCode, text)))
  {
    var s := ClientCall(reply);
    if s.result.Failure? {
      var text := if reply.Response? then reply.body else reply.reason;
      var e := UpstreamFailure(text);
      RenderRoundTrip(e);
      assert (Render(e) + "\n")[..|Render(e)|] == Render(e);
    }
  }

  /**
   * getClient's selection: with the listing parsed, the result is the first
   * record carrying the requested clientId, or the empty ClientOut when no
   * record does; nothing is written.
   */
  lemma ClientLookupFirstMatch(codec: Codec, reply: Reply, clientId: string, rs: seq<Record>)
    requires Classify(reply).Success? && codec.listing(Classify(reply).value) == Success(rs)
    ensures var s := ClientLookup(codec, reply, clientId);
      && s.write.None? && s.result.Success?
      && ((forall j :: 0 <= j < |rs| ==> rs[j].clientId != Text(clientId)) ==> s.result.value == ClientOut("", ""))
      && (forall k: nat :: FirstMatchAt(rs, ClientIdKey, clientId, k) ==>
            s.result.value == ClientOut(TextOr(rs[k].id, ""), clientId))
  {
    assert ClientLookup(codec, reply, clientId) == Step(Success(ToClientOut(rs, FirstMatch(rs, ClientIdKey, clientId))), None);
    forall k: nat | FirstMatchAt(rs, ClientIdKey, clientId, k)
      ensures FirstMatch(rs, ClientIdKey, clientId) == k
    {
      FirstMatchIsFirst(rs, ClientIdKey, clientId, k);
    }
    if forall j :: 0 <= j < |rs| ==> rs[j].clientId != Text(clientId) {
      FirstMatchNone(rs, ClientIdKey, clientId);
    }
  }

  /**
   * getClientID as written: whatever the listing holds, a success carries
   * the empty id, and it succeeds exactly when the call and the parse do.
   */
  lemma ClientIdAlwaysEmpty(codec: Codec, reply: Reply)
    ensures var s := ClientIdLookup(codec, reply);
      && (s.result.Success? <==> Classify(reply).Success? && codec.listing(Classify(reply).value).Success?)
      && (s.result.Success? ==> s.result.value == "")
  {
  }

  /**
   * getUserID's outcomes once the listing is parsed: no record with the
   * username is the out-of-range index; otherwise the first such record
   * decides, its id when that is text and the internal-server error when not.
   */
  lemma UserLookupOutcomes(codec: Codec, reply: Reply, username: string, rs: seq<Record>)
    requires UserCall(reply).Success? && codec.listing(UserCall(reply).value) == Success(rs)
    ensures var u := UserIdLookup(codec, reply, username);
      && (u.IndexOutOfRange? <==> forall j :: 0 <= j < |rs| ==> rs[j].username != Text(username))
      && (forall k: nat :: FirstMatchAt(rs, UsernameKey, username, k) ==>
            u == if rs[k].id.Text? then UserFound(rs[k].id.text) else UserLookupFailed(Api(Of(InternalServerError))))
  {
    forall k: nat | FirstMatchAt(rs, UsernameKey, username, k)
      ensures FirstMatch(rs, UsernameKey, username) == k
    {
      FirstMatchIsFirst(rs, UsernameKey, username, k);
    }
    if forall j :: 0 <= j < |rs| ==> rs[j].username != Text(username) {
      FirstMatchNone(rs, UsernameKey, username);
    }
  }

  /** A failed user-management call is code 10000 with the IdP's text, and nothing else fails it. */
  lemma UserFailureWrapped(reply: Reply)
    ensures UserCall(reply).Success? <==> reply.Response? && IsSuccessStatus(reply.status)
    ensures UserCall(reply).Failure? ==>
      UserCall(reply).error == Api(UpstreamFailure(if reply.Response? then reply.body else reply.reason))
  {
  }

  // ---------------------------------------------------------------------------
  // The client object

  /** APIClient together with the transport and the IdP behind it; `calls` is the log of requests made. */
  class IdpClient {
    const up: Upstream
    var calls: seq<Call>

    constructor (up: Upstream)
      ensures this.up == up && calls == []
    {
      this.up := up;
      calls := [];
    }

    /** doRequest: one call; the body on 200, 201 or 204, otherwise the failure text, never swallowed. */
    method DoRequest(c: Call) returns (res: Result<string, string>)
      modifies this
      ensures calls == old(calls) + [c]
      ensures res == Classify(up.script(old(calls), c))
      ensures var reply := up.script(old(calls), c);
        && (res.Success? <==> reply.Response? && IsSuccessStatus(reply.status))
        && (res.Success? ==> res.value == reply.body)
        && (res.Failure? ==> res.error == if reply.Response? then reply.body else reply.reason)
    {
      var reply := up.script(calls, c);
      calls := calls + [c];
      match reply
      case TransportFailure(reason) =>
        res := Failure(reason);
      case ReadFailure(reason) =>
        res := Failure(reason);
      case Response(status, body) =>
        if 200 != status && 201 != status && 204 != status {
          res := Failure(body);
        } else {
          res := Success(body);
        }
    }

    /**
     * The grant loop of authenticate: each grant in turn is posted to `url`
     * and then has its secrets overwritten; the first success ends the loop
     * and names the authenticated identity. `logged` is the grant list as
     * the loop leaves it, which is what the log lines print.
     */
    method TryGrants(url: string, authBody: seq<Form>) returns (authErr: Option<string>, tokenBody: string, entity: string, logged: seq<Form>)
      requires AllLabelled(authBody)
      modifies this
      ensures var v := NegotiationVerdict(up.script, old(calls), url, authBody);
        && calls == old(calls) + TokenCalls(url, authBody[..v.attempts])
        && logged == RedactedPrefix(authBody, v.attempts)
        && authErr == v.authErr && tokenBody == v.tokenBody && entity == v.entity
    {
      ghost var h0 := calls;
      ghost var goal := GrantLoop(up.script, h0, url, authBody, 0, None);
      GrantLoopAgrees(up.script, h0, url, authBody);
      authErr, tokenBody, entity, logged := None, "", "", authBody;
      var n := 0;
      assert authBody[..0] == [];
      while n < |authBody|
        invariant 0 <= n <= |authBody|
        invariant calls == h0 + TokenCalls(url, authBody[..n])
        invariant logged == RedactedPrefix(authBody, n)
        invariant tokenBody == "" && entity == ""
        invariant GrantLoop(up.script, h0, url, authBody, n, authErr) == goal
      {
        var form := authBody[n];
        GrantLoopTurn(up.script, h0, url, authBody, n, authErr);
        TokenCallsSnoc(url, authBody, n);
        var r := DoRequest(TokenRequest(url, form));
        logged := logged[n := Redact(form)];
        RedactedPrefixSnoc(authBody, n);
        if r.Success? {
          authErr := None;
          tokenBody := r.value;
          RedactKeepsLabel(form);
          entity := Label(logged[n]);
          assert goal == Verdict(n + 1, None, tokenBody, entity);
          return;
        }
        authErr := Some(r.error);
        n := n + 1;
      }
    }

    /**
     * authenticate. `getter` is what the grant getter returned; `logged` is
     * the grant list after the loop, every attempted grant with its secrets
     * overwritten.
     */
    method Authenticate(w: ResponseWriter, getter: Result<Grants, ApiError>) returns (res: Result<Login, Error>, logged: seq<Form>)
      requires getter.Success? ==> AllLabelled(getter.value.forms)
      modifies this, w
      ensures var run := AuthRun(up, old(calls), getter);
        && calls == old(calls) + run.calls
        && res == run.result
        && w.State() == Emit(old(w.State()), run.write)
        && logged == if getter.Failure? then [] else RedactedPrefix(getter.value.forms, run.attempts)
    {
      if getter.Failure? {
        w.Error(Render(getter.error), 401);
        return Failure(Api(getter.error)), [];
      }
      var authErr, tokenBody, entity;
      authErr, tokenBody, entity, logged := TryGrants(getter.value.url, getter.value.forms);
      if authErr.Some? {
        var e := UpstreamFailure(authErr.value);
        w.Error(Render(e), 401);
        return Failure(Plain(authErr.value)), logged;
      }
      var decoded := up.codec.token(tokenBody);
      if decoded.Failure? {
        w.Error(decoded.error, 500);
        return Failure(Plain(decoded.error)), logged;
      }
      res := Success(Login(decoded.value, entity));
    }

    /** createClient: POST the definition; a failure is code 10000 written as a 500. */
    method CreateClient(w: ResponseWriter, cfg: Config, token: string, client: Client) returns (err: Option<Error>)
      modifies this, w
      ensures var c := CreateClientRequest(cfg, token, client);
        var s := ClientCall(up.script(old(calls), c));
        calls == old(calls) + [c] && err == ErrorOf(s.result) && w.State() == Emit(old(w.State()), s.write)
    {
      var r := DoRequest(CreateClientRequest(cfg, token, client));
      if r.Failure? {
        var e := UpstreamFailure(r.error);
        w.Error(Render(e), 500);
        return Some(Api(e));
      }
      return None;
    }

    /** getClientID: the listing is queried but the result dropped, so success returns "". */
    method GetClientId(w: ResponseWriter, cfg: Config, token: string, client: ClientWithSecret) returns (clientId: string, err: Option<Error>)
      modifies this, w
      ensures var c := ClientIdQuery(cfg, token, client);
        var s := ClientIdLookup(up.codec, up.script(old(calls), c));
        && calls == old(calls) + [c]
        && err == ErrorOf(s.result)
        && clientId == (if s.result.Success? then s.result.value else "")
        && w.State() == Emit(old(w.State()), s.write)
      ensures err.None? ==> clientId == ""
    {
      var r := DoRequest(ClientIdQuery(cfg, token, client));
      if r.Failure? {
        var e := UpstreamFailure(r.error);
        w.Error(Render(e), 500);
        return "", Some(Api(e));
      }
      var found := "";
      var parsed := up.codec.listing(r.value);
      if parsed.Failure? {
        w.Error("Parsing response to jq failed, [" + parsed.error + "]", 500);
        return "", Some(Plain(parsed.error));
      }
      return found, None;
    }

    /** getClient: the first listed record whose clientId is the definition's. */
    method GetClient(w: ResponseWriter, cfg: Config, token: string, client: Client) returns (res: Result<ClientOut, Error>)
      modifies this, w
      ensures var c := ClientsQuery(cfg, token, client);
        var s := ClientLookup(up.codec, up.script(old(calls), c), client.clientId);
        calls == old(calls) + [c] && res == s.result && w.State() == Emit(old(w.State()), s.write)
    {
      var r := DoRequest(ClientsQuery(cfg, token, client));
      if r.Failure? {
        var e := UpstreamFailure(r.error);
        w.Error(Render(e), 500);
        return Failure(Api(e));
      }
      var parsed := up.codec.listing(r.value);
      if parsed.Failure? {
        w.Error("Parsing response to jq failed, [" + parsed.error + "]", 500);
        return Failure(Plain(parsed.error));
      }
      var k := FirstMatch(parsed.value, ClientIdKey, client.clientId);
      res := Success(ToClientOut(parsed.value, k));
    }

    /** getClientSecret: the current secret of the client with internal id `uid`. */
    method GetClientSecret(w: ResponseWriter, cfg: Config, token: string, uid: string) returns (res: Result<string, Error>)
      modifies this, w
      ensures var c := SecretRequest(cfg, token, uid);
        var s := SecretLookup(up.codec, up.script(old(calls), c));
        calls == old(calls) + [c] && res == s.result && w.State() == Emit(old(w.State()), s.write)
    {
      var r := DoRequest(SecretRequest(cfg, token, uid));
      if r.Failure? {
        var e := UpstreamFailure(r.error);
        w.Error(Render(e), 500);
        return Failure(Api(e));
      }
      var decoded := up.codec.secret(r.value);
      if decoded.Failure? {
        w.Error(decoded.error, 500);
        return Failure(Plain(decoded.error));
      }
      res := Success(decoded.value);
    }

    /** updateClient: PUT the definition to the client with internal id `uid`. */
    method UpdateClient(w: ResponseWriter, cfg: Config, token: string, client: Client, uid: string) returns (err: Option<Error>)
      modifies this, w
      ensures var c := UpdateClientRequest(cfg, token, client, uid);
        var s := ClientCall(up.script(old(calls), c));
        calls == old(calls) + [c] && err == ErrorOf(s.result) && w.State() == Emit(old(w.State()), s.write)
    {
      var r := DoRequest(UpdateClientRequest(cfg, token, client, uid));
      if r.Failure? {
        var e := UpstreamFailure(r.error);
        w.Error(Render(e), 500);
        return Some(Api(e));
      }
      return None;
    }

    /** deleteClient: DELETE the client with internal id `uid`. */
    method DeleteClient(w: ResponseWriter, cfg: Config, token: string, uid: string) returns (err: Option<Error>)
      modifies this, w
      ensures var c := DeleteClientRequest(cfg, token, uid);
        var s := ClientCall(up.script(old(calls), c));
        calls == old(calls) + [c] && err == ErrorOf(s.result) && w.State() == Emit(old(w.State()), s.write)
    {
      var r := DoRequest(DeleteClientRequest(cfg, token, uid));
      if r.Failure? {
        var e := UpstreamFailure(r.error);
        w.Error(Render(e), 500);
        return Some(Api(e));
      }
      return None;
    }

    /** createUser: a failure is code 10000; nothing is written to any response. */
    method CreateUser(cfg: Config, token: string, user: User) returns (err: Option<Error>)
      modifies this
      ensures var c := CreateUserRequest(cfg, token, user);
        calls == old(calls) + [c] && err == ErrorOf(UserCall(up.script(old(calls), c)))
    {
      var r := DoRequest(CreateUserRequest(cfg, token, user));
      if r.Failure? {
        return Some(Api(UpstreamFailure(r.error)));
      }
      return None;
    }

    /** getUserID: the id of the first listed user with the username. */
    method GetUserId(cfg: Config, token: string, user: User) returns (res: UserLookup)
      modifies this
      ensures var c := UsersQuery(cfg, token, user);
        calls == old(calls) + [c] && res == UserIdLookup(up.codec, up.script(old(calls), c), user.username)
    {
      var r := DoRequest(UsersQuery(cfg, token, user));
      if r.Failure? {
        return UserLookupFailed(Api(UpstreamFailure(r.error)));
      }
      var parsed := up.codec.listing(r.value);
      if parsed.Failure? {
        return UserLookupFailed(Plain(parsed.error));
      }
      var k := FirstMatch(parsed.value, UsernameKey, user.username);
      if k == |parsed.value| {
        return IndexOutOfRange;
      }
      var id := parsed.value[k].id;
      if !id.Text? {
        return UserLookupFailed(Api(Of(InternalServerError)));
      }
      return UserFound(id.text);
    }

    /** deleteUser: DELETE the user with internal id `uid`. */
    method DeleteUser(cfg: Config, token: string, uid: string) returns (err: Option<Error>)
      modifies this
      ensures var c := DeleteUserRequest(cfg, token, uid);
        calls == old(calls) + [c] && err == ErrorOf(UserCall(up.script(old(calls), c)))
    {
      var r := DoRequest(DeleteUserRequest(cfg, token, uid));
      if r.Failure? {
        return Some(Api(UpstreamFailure(r.error)));
      }
      return None;
    }

    /** setUserPassword: PUT the credential to the user with internal id `uid`. */
    method SetUserPassword(cfg: Config, token: string, credential: UserSecret, uid: string) returns (err: Option<Error>)
      modifies this
      ensures var c := SetPasswordRequest(cfg, token, credential, uid);
        calls == old(calls) + [c] && err == ErrorOf(UserCall(up.script(old(calls), c)))
    {
      var r := DoRequest(SetPasswordRequest(cfg, token, credential, uid));
      if r.Failure? {
        return Some(Api(UpstreamFailure(r.error)));
      }
      return None;
    }
  }
}
