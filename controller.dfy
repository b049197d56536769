/**
 * The HTTP handlers of controller.go: the health probe and the create,
 * update and delete operations on OAuth clients.
 *
 * Every handler is described twice: as a pure function (`CreateSpec`,
 * `UpdateSpec`, `DeleteSpec`, `HealthSpec`) that says which calls reach
 * the IdP, in order, and what the response finally holds; and as a method
 * of `Controller` that performs the steps against an `IdpClient` and a
 * `ResponseWriter` and is proved to do exactly what its function says.
 */
module Controller {
  import opened Wrappers
  import opened JsonText
  import opened ApiErrors
  import opened Http
  import opened Records
  import opened IdpApiClient

  /** What a handler reads from the incoming request: Basic-Auth credentials and the body (or the error reading it). */
  datatype Request = Request(basicAuth: Option<Credentials>, body: Result<string, string>)

  /** JSON decoding of a request body into the two input shapes; a Failure carries the decoder's error text. */
  datatype PayloadCodec = PayloadCodec(
    client: string -> Result<Client, string>,
    withSecret: string -> Result<ClientWithSecret, string>)

  /** Decoding straight from the body stream, as the create handler does: a body that cannot be read does not decode. */
  function DecodeStream<T>(decode: string -> Result<T, string>, body: Result<string, string>): Result<T, string>
  {
    match body
    case Success(text) => decode(text)
    case Failure(e) => Failure(e)
  }

  /**
   * The standard-flow defaults: with the standard flow enabled and at least
   * one redirect URI, the first redirect URI becomes the root and admin URL
   * and the redirect URIs become the web origins.
   */
  function ApplyRedirectDefaults(c: Client): (r: Client)
    ensures r.(rootUrl := c.rootUrl, adminUrl := c.adminUrl, webOrigins := c.webOrigins) == c
    ensures c.standardFlowEnabled && c.redirectUris != [] ==>
      r.rootUrl == r.redirectUris[0] && r.adminUrl == r.redirectUris[0] && r.webOrigins == r.redirectUris
    ensures !(c.standardFlowEnabled && c.redirectUris != []) ==> r == c
  {
    if c.standardFlowEnabled && |c.redirectUris| > 0 then
      c.(rootUrl := c.redirectUris[0], adminUrl := c.redirectUris[0], webOrigins := c.redirectUris)
    else c
  }

  const ValueKey: string := "{\"value\":"

  /** The create handler's success body: json.Marshal of ClientSecret. */
  function SecretJson(secret: string): string
  {
    ValueKey + Quote(secret) + "}"
  }

  /** Reads a body in the exact layout SecretJson writes. */
  function ParseSecretJson(s: string): Option<string>
  {
    match ReadField(ValueKey, s)
    case None => None
    case Some((v, rest)) => if rest == "}" then Some(v) else None
  }

  /** The success body loses nothing: the secret is read back exactly, whatever Unicode text it holds. */
  lemma SecretJsonRoundTrip(secret: string)
    ensures ParseSecretJson(SecretJson(secret)) == Some(secret)
  {
    assert SecretJson(secret) == ValueKey + (Quote(secret) + "}");
    KeyedValue(ValueKey, secret, "}");
  }

  /** Applying the standard-flow defaults twice changes nothing more. */
  lemma RedirectDefaultsIdempotent(c: Client)
    ensures ApplyRedirectDefaults(ApplyRedirectDefaults(c)) == ApplyRedirectDefaults(c)
  {
  }

  /** The description the create handler stamps on every client it creates. */
  function CreatedBy(entity: string): string
  {
    "Client created by " + entity
  }

  /** What a handler does: the calls it makes to the IdP, in order, and what it finally writes. */
  datatype Exchange = Exchange(calls: seq<Call>, write: Option<Written>)

  /** The mutation an update or a delete performs once the secret matched. */
  datatype Change = Replace(client: Client) | Remove

  function ChangeRequest(cfg: Config, token: string, change: Change, uid: string): Call
  {
    match change
    case Replace(c) => UpdateClientRequest(cfg, token, c, uid)
    case Remove => DeleteClientRequest(cfg, token, uid)
  }

  /** The create handler after admin authentication: create, look the client up, fetch and return its secret. */
  function ProvisionSpec(cfg: Config, up: Upstream, h: seq<Call>, token: string, client: Client): (x: Exchange)
    ensures x.write.Some?
  {
    var c1 := CreateClientRequest(cfg, token, client);
    var s1 := ClientCall(up.script(h, c1));
    if s1.result.Failure? then Exchange([c1], s1.write)
    else
      var c2 := ClientsQuery(cfg, token, client);
      var s2 := ClientLookup(up.codec, up.script(h + [c1], c2), client.clientId);
      if s2.result.Failure? then Exchange([c1, c2], s2.write)
      else
        var c3 := SecretRequest(cfg, token, s2.result.value.id);
        var s3 := SecretLookup(up.codec, up.script(h + [c1, c2], c3));
        if s3.result.Failure? then Exchange([c1, c2, c3], s3.write)
        else Exchange([c1, c2, c3], Some(Written(201, SecretJson(s3.result.value))))
  }

  /**
   * The update and delete handlers after admin authentication: look the
   * client up, fetch its current secret, refuse with 401 unless it equals
   * the submitted one, then perform the change.
   */
  function GatedSpec(cfg: Config, up: Upstream, h: seq<Call>, token: string, client: Client, submitted: string, change: Change): (x: Exchange)
    ensures x.write.Some?
  {
    var c1 := ClientsQuery(cfg, token, client);
    var s1 := ClientLookup(up.codec, up.script(h, c1), client.clientId);
    if s1.result.Failure? then Exchange([c1], s1.write)
    else
      var uid := s1.result.value.id;
      var c2 := SecretRequest(cfg, token, uid);
      var s2 := SecretLookup(up.codec, up.script(h + [c1], c2));
      if s2.result.Failure? then Exchange([c1, c2], s2.write)
      else if submitted != s2.result.value then Exchange([c1, c2], Some(ErrorPage(401, Of(BadClientSecret))))
      else
        var c3 := ChangeRequest(cfg, token, change, uid);
        var s3 := ClientCall(up.script(h + [c1, c2], c3));
        if s3.result.Failure? then Exchange([c1, c2, c3], s3.write)
        else Exchange([c1, c2, c3], Some(Written(201, "")))
  }

  /** The caller's authentication, common to the three client handlers. */
  function CallerRun(cfg: Config, up: Upstream, h: seq<Call>, req: Request): AuthOutcome
  {
    AuthRun(up, h, AuthBodyFromBasicAuth(cfg, req.basicAuth))
  }

  /** The create handler from admin authentication on: authenticate with the master-realm grant, then provision. */
  function AdminProvisionSpec(cfg: Config, up: Upstream, h: seq<Call>, client: Client): Exchange
  {
    var admin := AuthRun(up, h, Success(AdminAuthBody(cfg)));
    if admin.result.Failure? then Exchange(admin.calls, admin.write)
    else
      var rest := ProvisionSpec(cfg, up, h + admin.calls, admin.result.value.token, client);
      Exchange(admin.calls + rest.calls, rest.write)
  }

  /** The update and delete handlers from admin authentication on. */
  function AdminGatedSpec(cfg: Config, up: Upstream, h: seq<Call>, client: Client, submitted: string, change: Change): Exchange
  {
    var admin := AuthRun(up, h, Success(AdminAuthBody(cfg)));
    if admin.result.Failure? then Exchange(admin.calls, admin.write)
    else
      var rest := GatedSpec(cfg, up, h + admin.calls, admin.result.value.token, client, submitted, change);
      Exchange(admin.calls + rest.calls, rest.write)
  }

  /** CreateResource. */
  function CreateSpec(cfg: Config, up: Upstream, pc: PayloadCodec, h: seq<Call>, req: Request): (x: Exchange)
    ensures x.write.Some?
  {
    var caller := CallerRun(cfg, up, h, req);
    if caller.result.Failure? then Exchange(caller.calls, caller.write)
    else
      var decoded := DecodeStream(pc.client, req.body);
      if decoded.Failure? then Exchange(caller.calls, Some(ErrorPage(400, Of(InvalidRequestPayload))))
      else if !ValidClient(decoded.value) then Exchange(caller.calls, Some(ErrorPage(400, Of(MissingRequiredFieldsPayload))))
      else
        var client := ApplyRedirectDefaults(decoded.value).(publicClient := false, description := CreatedBy(caller.result.value.entity));
        var rest := AdminProvisionSpec(cfg, up, h + caller.calls, client);
        Exchange(caller.calls + rest.calls, rest.write)
  }

  /** UpdateResource. */
  function UpdateSpec(cfg: Config, up: Upstream, pc: PayloadCodec, h: seq<Call>, req: Request): (x: Exchange)
    ensures x.write.Some?
  {
    var caller := CallerRun(cfg, up, h, req);
    if caller.result.Failure? then Exchange(caller.calls, caller.write)
    else if req.body.Failure? then Exchange(caller.calls, Some(PlainErrorPage(500, req.body.error)))
    else
      var dc := pc.client(req.body.value);
      var ds := pc.withSecret(req.body.value);
      if dc.Failure? || ds.Failure? then Exchange(caller.calls, Some(ErrorPage(400, Of(InvalidRequestPayload))))
      else if !ValidClientWithSecret(ds.value) then Exchange(caller.calls, Some(ErrorPage(400, Of(MissingRequiredFieldsPayload))))
      else
        var client := ApplyRedirectDefaults(dc.value).(publicClient := false);
        var rest := AdminGatedSpec(cfg, up, h + caller.calls, client, ds.value.secret, Replace(client));
        Exchange(caller.calls + rest.calls, rest.write)
  }

  /** DeleteResource: it validates the Client shape, not the one carrying the secret. */
  function DeleteSpec(cfg: Config, up: Upstream, pc: PayloadCodec, h: seq<Call>, req: Request): (x: Exchange)
    ensures x.write.Some?
  {
    var caller := CallerRun(cfg, up, h, req);
    if caller.result.Failure? then Exchange(caller.calls, caller.write)
    else if req.body.Failure? then Exchange(caller.calls, Some(PlainErrorPage(500, req.body.error)))
    else
      var dc := pc.client(req.body.value);
      var ds := pc.withSecret(req.body.value);
      if dc.Failure? || ds.Failure? then Exchange(caller.calls, Some(ErrorPage(400, Of(InvalidRequestPayload))))
      else if !ValidClient(dc.value) then Exchange(caller.calls, Some(ErrorPage(400, Of(MissingRequiredFieldsPayload))))
      else
        var rest := AdminGatedSpec(cfg, up, h + caller.calls, dc.value, ds.value.secret, Remove);
        Exchange(caller.calls + rest.calls, rest.write)
  }

  /** HealthCheck: one unauthenticated probe of the admin endpoint. */
  function HealthSpec(cfg: Config, up: Upstream, h: seq<Call>): (x: Exchange)
    ensures x.write.Some?
  {
    var c := HealthRequest(cfg);
    match Classify(up.script(h, c))
    case Success(_) => Exchange([c], Some(Written(200, "")))
    case Failure(m) => Exchange([c], Some(ErrorPage(500, UpstreamFailure(m))))
  }

  /** Proof helper: regrouping the call log, which the solver does not do unprompted. */
  lemma Associative(a: seq<Call>, b: seq<Call>, c: seq<Call>)
    ensures a + b + c == a + (b + c)
  {
  }

  /** The controller: the configuration, the request-body decoders and the IdP client it drives. */
  class Controller {
    const cfg: Config
    const payloads: PayloadCodec
    const api: IdpClient

    constructor (cfg: Config, payloads: PayloadCodec, api: IdpClient)
      ensures this.cfg == cfg && this.payloads == payloads && this.api == api
    {
      this.cfg := cfg;
      this.payloads := payloads;
      this.api := api;
    }

    method HealthCheck(w: ResponseWriter)
      modifies api, w
      ensures var x := HealthSpec(cfg, api.up, old(api.calls));
        api.calls == old(api.calls) + x.calls && w.State() == Emit(old(w.State()), x.write)
    {
      var res := api.DoRequest(HealthRequest(cfg));
      if res.Failure? {
        w.Error(Render(UpstreamFailure(res.error)), 500);
        return;
      }
      w.WriteHeader(200);
      assert w.body == w.body + "";
    }

    /** The create handler after admin authentication. */
    method Provision(w: ResponseWriter, token: string, client: Client)
      modifies api, w
      ensures var x := ProvisionSpec(cfg, api.up, old(api.calls), token, client);
        api.calls == old(api.calls) + x.calls && w.State() == Emit(old(w.State()), x.write)
    {
      ghost var c1, c2 := CreateClientRequest(cfg, token, client), ClientsQuery(cfg, token, client);
      var err := api.CreateClient(w, cfg, token, client);
      if err.Some? {
        return;
      }
      var info := api.GetClient(w, cfg, token, client);
      if info.Failure? {
        return;
      }
      assert old(api.calls) + [c1] + [c2] == old(api.calls) + [c1, c2];
      var secret := api.GetClientSecret(w, cfg, token, info.value.id);
      assert old(api.calls) + [c1, c2] + [SecretRequest(cfg, token, info.value.id)] == old(api.calls) + [c1, c2, SecretRequest(cfg, token, info.value.id)];
      if secret.Failure? {
        return;
      }
      w.Reply(201, SecretJson(secret.value));
    }

    /** The update and delete handlers after admin authentication. */
    method Gated(w: ResponseWriter, token: string, client: Client, submitted: string, change: Change)
      modifies api, w
      ensures var x := GatedSpec(cfg, api.up, old(api.calls), token, client, submitted, change);
        api.calls == old(api.calls) + x.calls && w.State() == Emit(old(w.State()), x.write)
    {
      ghost var c1 := ClientsQuery(cfg, token, client);
      var info := api.GetClient(w, cfg, token, client);
      if info.Failure? {
        return;
      }
      ghost var c2 := SecretRequest(cfg, token, info.value.id);
      var secret := api.GetClientSecret(w, cfg, token, info.value.id);
      assert old(api.calls) + [c1] + [c2] == old(api.calls) + [c1, c2];
      if secret.Failure? {
        return;
      }
      if submitted != secret.value {
        w.Error(Render(Of(BadClientSecret)), 401);
        return;
      }
      var err;
      match change {
        case Replace(c) =>
          err := api.UpdateClient(w, cfg, token, c, info.value.id);
        case Remove =>
          err := api.DeleteClient(w, cfg, token, info.value.id);
      }
      ghost var c3 := ChangeRequest(cfg, token, change, info.value.id);
      assert old(api.calls) + [c1, c2] + [c3] == old(api.calls) + [c1, c2, c3];
      if err.Some? {
        return;
      }
      w.WriteHeader(201);
      assert w.body == w.body + "";
    }

    /** The create handler from admin authentication on. */
    method AdminProvision(w: ResponseWriter, client: Client)
      modifies api, w
      ensures var x := AdminProvisionSpec(cfg, api.up, old(api.calls), client);
        api.calls == old(api.calls) + x.calls && w.State() == Emit(old(w.State()), x.write)
    {
      var admin, adminLog := api.Authenticate(w, Success(AdminAuthBody(cfg)));
      if admin.Failure? {
        return;
      }
      ghost var adminCalls := api.calls[|old(api.calls)|..];
      ghost var rest := ProvisionSpec(cfg, api.up, api.calls, admin.value.token, client);
      Provision(w, admin.value.token, client);
      Associative(old(api.calls), adminCalls, rest.calls);
    }

    /** The update and delete handlers from admin authentication on. */
    method AdminGated(w: ResponseWriter, client: Client, submitted: string, change: Change)
      modifies api, w
      ensures var x := AdminGatedSpec(cfg, api.up, old(api.calls), client, submitted, change);
        api.calls == old(api.calls) + x.calls && w.State() == Emit(old(w.State()), x.write)
    {
      var admin, adminLog := api.Authenticate(w, Success(AdminAuthBody(cfg)));
      if admin.Failure? {
        return;
      }
      ghost var adminCalls := api.calls[|old(api.calls)|..];
      ghost var rest := GatedSpec(cfg, api.up, api.calls, admin.value.token, client, submitted, change);
      Gated(w, admin.value.token, client, submitted, change);
      Associative(old(api.calls), adminCalls, rest.calls);
    }

    method CreateResource(w: ResponseWriter, r: Request)
      modifies api, w
      ensures var x := CreateSpec(cfg, api.up, payloads, old(api.calls), r);
        api.calls == old(api.calls) + x.calls && w.State() == Emit(old(w.State()), x.write)
    {
      var caller, callerLog := api.Authenticate(w, AuthBodyFromBasicAuth(cfg, r.basicAuth));
      if caller.Failure? {
        return;
      }
      var decoded := DecodeStream(payloads.client, r.body);
      if decoded.Failure? {
        w.Error(Render(Of(InvalidRequestPayload)), 400);
        return;
      }
      var client := decoded.value;
      if !ValidClient(client) {
        w.Error(Render(Of(MissingRequiredFieldsPayload)), 400);
        return;
      }
      if client.standardFlowEnabled {
        if |client.redirectUris| > 0 {
          client := client.(rootUrl := client.redirectUris[0], adminUrl := client.redirectUris[0], webOrigins := client.redirectUris);
        }
      }
      ghost var callerCalls := api.calls[|old(api.calls)|..];
      client := client.(publicClient := false, description := CreatedBy(caller.value.entity));
      ghost var rest := AdminProvisionSpec(cfg, api.up, api.calls, client);
      AdminProvision(w, client);
      Associative(old(api.calls), callerCalls, rest.calls);
    }

    method UpdateResource(w: ResponseWriter, r: Request)
      modifies api, w
      ensures var x := UpdateSpec(cfg, api.up, payloads, old(api.calls), r);
        api.calls == old(api.calls) + x.calls && w.State() == Emit(old(w.State()), x.write)
    {
      var caller, callerLog := api.Authenticate(w, AuthBodyFromBasicAuth(cfg, r.basicAuth));
      if caller.Failure? {
        return;
      }
      if r.body.Failure? {
        w.Error(r.body.error, 500);
        return;
      }
      var decoded := payloads.client(r.body.value);
      if decoded.Failure? {
        w.Error(Render(Of(InvalidRequestPayload)), 400);
        return;
      }
      var decodedWithSecret := payloads.withSecret(r.body.value);
      if decodedWithSecret.Failure? {
        w.Error(Render(Of(InvalidRequestPayload)), 400);
        return;
      }
      var client, clientWithSecret := decoded.value, decodedWithSecret.value;
      if !ValidClientWithSecret(clientWithSecret) {
        w.Error(Render(Of(MissingRequiredFieldsPayload)), 400);
        return;
      }
      if client.standardFlowEnabled {
        if |client.redirectUris| > 0 {
          client := client.(rootUrl := client.redirectUris[0], adminUrl := client.redirectUris[0], webOrigins := client.redirectUris);
        }
      }
      ghost var callerCalls := api.calls[|old(api.calls)|..];
      client := client.(publicClient := false);
      ghost var rest := AdminGatedSpec(cfg, api.up, api.calls, client, clientWithSecret.secret, Replace(client));
      AdminGated(w, client, clientWithSecret.secret, Replace(client));
      Associative(old(api.calls), callerCalls, rest.calls);
    }

    method DeleteResource(w: ResponseWriter, r: Request)
      modifies api, w
      ensures var x := DeleteSpec(cfg, api.up, payloads, old(api.calls), r);
        api.calls == old(api.calls) + x.calls && w.State() == Emit(old(w.State()), x.write)
    {
      var caller, callerLog := api.Authenticate(w, AuthBodyFromBasicAuth(cfg, r.basicAuth));
      if caller.Failure? {
        return;
      }
      if r.body.Failure? {
        w.Error(r.body.error, 500);
        return;
      }
      var decoded := payloads.client(r.body.value);
      if decoded.Failure? {
        w.Error(Render(Of(InvalidRequestPayload)), 400);
        return;
      }
      var decodedWithSecret := payloads.withSecret(r.body.value);
      if decodedWithSecret.Failure? {
        w.Error(Render(Of(InvalidRequestPayload)), 400);
        return;
      }
      var client, clientWithSecret := decoded.value, decodedWithSecret.value;
      if !ValidClient(client) {
        w.Error(Render(Of(MissingRequiredFieldsPayload)), 400);
        return;
      }
      ghost var callerCalls := api.calls[|old(api.calls)|..];
      ghost var rest := AdminGatedSpec(cfg, api.up, api.calls, client, clientWithSecret.secret, Remove);
      AdminGated(w, client, clientWithSecret.secret, Remove);
      Associative(old(api.calls), callerCalls, rest.calls);
    }
  }
}
