/**
 * What the handlers of controller.go promise, stated over their
 * specifications in module Controller: who authenticates, which payloads
 * are refused before any administrative call, that a client is only
 * replaced or removed after its current secret was fetched and matched,
 * that administrative calls carry only the service's own token, and what
 * the success and health responses hold.
 */
module ControllerProperties {
  import opened Wrappers
  import opened JsonText
  import opened ApiErrors
  import opened Http
  import opened Records
  import opened IdpApiClient
  import opened Controller

  /** Every call addresses the token endpoint. */
  predicate TokenOnly(calls: seq<Call>)
  {
    forall i :: 0 <= i < |calls| ==> calls[i].endpoint == TokenGrant
  }

  /**
   * Call `i` is the last one, and the call just before it fetched the
   * secret of the same client with the same token, and that secret is
   * `submitted`.
   */
  predicate SecretChecked(up: Upstream, h: seq<Call>, calls: seq<Call>, i: int, submitted: string)
  {
    && 1 <= i == |calls| - 1
    && calls[i - 1].endpoint == FetchSecret
    && calls[i - 1].bearer == calls[i].bearer
    && calls[i - 1].url == calls[i].url + "/client-secret"
    && SecretLookup(up.codec, up.script(h + calls[..i - 1], calls[i - 1])).result == Success(submitted)
  }

  /** Every call to `endpoint` is guarded by a matching secret. */
  predicate Gate(up: Upstream, h: seq<Call>, calls: seq<Call>, endpoint: Endpoint, submitted: string)
  {
    forall i :: 0 <= i < |calls| && calls[i].endpoint == endpoint ==> SecretChecked(up, h, calls, i, submitted)
  }

  /** Every call other than a token request carries bearer token `t`. */
  predicate Bearing(calls: seq<Call>, t: string)
  {
    forall i :: 0 <= i < |calls| && calls[i].endpoint != TokenGrant ==> calls[i].bearer == Some(t)
  }

  /** The IdP's reply to the last of `calls`, made after `h`. */
  function LastReply(up: Upstream, h: seq<Call>, calls: seq<Call>): Reply
    requires |calls| >= 1
  {
    up.script(h + calls[..|calls| - 1], calls[|calls| - 1])
  }

  /** The last call addresses `endpoint` and the IdP accepted it. */
  predicate Issued(up: Upstream, h: seq<Call>, calls: seq<Call>, endpoint: Endpoint)
  {
    |calls| >= 1 && calls[|calls| - 1].endpoint == endpoint && Classify(LastReply(up, h, calls)).Success?
  }

  /** The last call fetched a client secret and it decoded. */
  predicate SecretFetched(up: Upstream, h: seq<Call>, calls: seq<Call>)
  {
    |calls| >= 1 && calls[|calls| - 1].endpoint == FetchSecret && SecretLookup(up.codec, LastReply(up, h, calls)).result.Success?
  }

  /** Every call creating a client submits `client`. */
  predicate Creates(calls: seq<Call>, client: Client)
  {
    forall i :: 0 <= i < |calls| && calls[i].endpoint == NewClient ==> calls[i].payload == ClientBody(client)
  }

  /** The endpoint a change addresses. */
  function Mutation(change: Change): Endpoint
  {
    match change
    case Replace(_) => ReplaceClient
    case Remove => RemoveClient
  }

  /** The service's own authentication, run after the caller's calls `h`. */
  function AdminResult(cfg: Config, up: Upstream, h: seq<Call>): Result<Login, Error>
  {
    AuthRun(up, h, Success(AdminAuthBody(cfg))).result
  }

  /** The update handler refuses the body: a shape does not decode, or the secret-carrying one misses a required field. */
  predicate UpdateRefuses(pc: PayloadCodec, body: string)
  {
    pc.client(body).Failure? || pc.withSecret(body).Failure? || !ValidClientWithSecret(pc.withSecret(body).value)
  }

  /** The delete handler refuses the body: a shape does not decode, or the client shape misses a required field. */
  predicate DeleteRefuses(pc: PayloadCodec, body: string)
  {
    pc.client(body).Failure? || pc.withSecret(body).Failure? || !ValidClient(pc.client(body).value)
  }

  /** The create handler refuses the body: it cannot be read or decoded, or misses a required field. */
  predicate CreateRefuses(pc: PayloadCodec, body: Result<string, string>)
  {
    DecodeStream(pc.client, body).Failure? || !ValidClient(DecodeStream(pc.client, body).value)
  }

  /** The two pages a refused payload gets. */
  predicate RefusalPage(w: Option<Written>)
  {
    w == Some(ErrorPage(400, Of(InvalidRequestPayload))) || w == Some(ErrorPage(400, Of(MissingRequiredFieldsPayload)))
  }

  // ---------------------------------------------------------------------------
  // Helpers: authentication issues only token requests, and the call-list
  // predicates survive a prefix of token requests.

  lemma AuthCallsTokenOnly(up: Upstream, h: seq<Call>, getter: Result<Grants, ApiError>)
    requires getter.Success? ==> AllLabelled(getter.value.forms)
    ensures TokenOnly(AuthRun(up, h, getter).calls)
  {
  }

  /** Proof helper: token-only call lists stay token-only when joined. */
  lemma TokenOnlyConcat(a: seq<Call>, b: seq<Call>)
    requires TokenOnly(a) && TokenOnly(b)
    ensures TokenOnly(a + b)
  {
  }

  /** Proof helper: the secret gate survives a prefix of token requests. */
  lemma GateShift(up: Upstream, h: seq<Call>, pre: seq<Call>, calls: seq<Call>, endpoint: Endpoint, submitted: string)
    requires TokenOnly(pre) && endpoint != TokenGrant
    requires Gate(up, h + pre, calls, endpoint, submitted)
    ensures Gate(up, h, pre + calls, endpoint, submitted)
  {
    var all := pre + calls;
    forall i | 0 <= i < |all| && all[i].endpoint == endpoint
      ensures SecretChecked(up, h, all, i, submitted)
    {
      var j := i - |pre|;
      assert all[i] == calls[j];
      assert SecretChecked(up, h + pre, calls, j, submitted);
      assert all[..i - 1] == pre + calls[..j - 1];
      assert h + all[..i - 1] == h + pre + calls[..j - 1];
    }
  }

  /** Proof helper: what is created is unchanged by a prefix of token requests. */
  lemma CreatesShift(pre: seq<Call>, calls: seq<Call>, client: Client)
    requires TokenOnly(pre) && Creates(calls, client)
    ensures Creates(pre + calls, client)
  {
    forall i | 0 <= i < |pre + calls| && (pre + calls)[i].endpoint == NewClient
      ensures (pre + calls)[i].payload == ClientBody(client)
    {
      assert (pre + calls)[i] == calls[i - |pre|];
    }
  }

  /** Proof helper: a prefix of token requests carries no bearer obligation. */
  lemma BearingShift(pre: seq<Call>, calls: seq<Call>, t: string)
    requires TokenOnly(pre) && Bearing(calls, t)
    ensures Bearing(pre + calls, t)
  {
    forall i | 0 <= i < |pre + calls| && (pre + calls)[i].endpoint != TokenGrant
      ensures (pre + calls)[i].bearer == Some(t)
    {
      assert (pre + calls)[i] == calls[i - |pre|];
    }
  }

  /** Proof helper: the reply to the last call, seen from before or after a prefix. */
  lemma LastReplyShift(up: Upstream, h: seq<Call>, pre: seq<Call>, calls: seq<Call>)
    requires |calls| >= 1
    ensures (pre + calls)[|pre + calls| - 1] == calls[|calls| - 1]
    ensures LastReply(up, h + pre, calls) == LastReply(up, h, pre + calls)
  {
    var all := pre + calls;
    assert all[|all| - 1] == calls[|calls| - 1];
    assert all[..|all| - 1] == pre + calls[..|calls| - 1];
    assert h + all[..|all| - 1] == h + pre + calls[..|calls| - 1];
  }

  /** Proof helper: a prefix of token requests does not change whether the last call issued a change. */
  lemma IssuedShift(up: Upstream, h: seq<Call>, pre: seq<Call>, calls: seq<Call>, endpoint: Endpoint)
    requires TokenOnly(pre) && endpoint != TokenGrant
    ensures Issued(up, h + pre, calls, endpoint) <==> Issued(up, h, pre + calls, endpoint)
  {
    if calls == [] {
      assert pre + calls == pre;
      if |pre| >= 1 {
        assert pre[|pre| - 1].endpoint == TokenGrant;
      }
    } else {
      LastReplyShift(up, h, pre, calls);
    }
  }

  /** An authentication answers only when it fails, and then with 401 or 500. */
  lemma AuthWrites(up: Upstream, h: seq<Call>, getter: Result<Grants, ApiError>)
    requires getter.Success? ==> AllLabelled(getter.value.forms)
    ensures var run := AuthRun(up, h, getter);
      && (run.result.Success? <==> run.write.None?)
      && (run.write.Some? ==> run.write.value.status == 401 || run.write.value.status == 500)
  {
  }

  // ---------------------------------------------------------------------------
  // The stages after admin authentication

  /**
   * The gated stage of update and delete: one to three calls, none to the
   * token endpoint, and every one carries the given token.
   */
  lemma GatedStage(cfg: Config, up: Upstream, h: seq<Call>, token: string, client: Client, submitted: string, change: Change)
    ensures var x := GatedSpec(cfg, up, h, token, client, submitted, change);
      && 1 <= |x.calls| <= 3
      && Bearing(x.calls, token)
      && (forall i :: 0 <= i < |x.calls| ==> x.calls[i].endpoint != TokenGrant)
  {
    var x := GatedSpec(cfg, up, h, token, client, submitted, change);
    var c1 := ClientsQuery(cfg, token, client);
    var s1 := ClientLookup(up.codec, up.script(h, c1), client.clientId);
    if s1.result.Failure? {
      assert x.calls == [c1];
    } else {
      var uid := s1.result.value.id;
      var c2 := SecretRequest(cfg, token, uid);
      var s2 := SecretLookup(up.codec, up.script(h + [c1], c2));
      if s2.result.Failure? || submitted != s2.result.value {
        assert x.calls == [c1, c2];
      } else {
        assert x.calls == [c1, c2, ChangeRequest(cfg, token, change, uid)];
      }
    }
  }

  /** Proof helper: a change issued third, right after a matching secret fetch, is gated. */
  lemma GateOfThree(up: Upstream, h: seq<Call>, c1: Call, c2: Call, c3: Call, endpoint: Endpoint, submitted: string)
    requires c1.endpoint != endpoint && c2.endpoint == FetchSecret != endpoint
    requires c2.bearer == c3.bearer && c2.url == c3.url + "/client-secret"
    requires SecretLookup(up.codec, up.script(h + [c1], c2)).result == Success(submitted)
    ensures Gate(up, h, [c1, c2, c3], endpoint, submitted)
  {
    var calls := [c1, c2, c3];
    assert calls[..1] == [c1];
    assert SecretChecked(up, h, calls, 2, submitted);
  }

  /**
   * The gated stage issues the change only as its last call, right after
   * it fetched the secret of the same client with the same token and that
   * secret equalled the submitted one.
   */
  lemma GatedGuard(cfg: Config, up: Upstream, h: seq<Call>, token: string, client: Client, submitted: string, change: Change)
    ensures var x := GatedSpec(cfg, up, h, token, client, submitted, change);
      Gate(up, h, x.calls, Mutation(change), submitted)
  {
    var x := GatedSpec(cfg, up, h, token, client, submitted, change);
    var c1 := ClientsQuery(cfg, token, client);
    var s1 := ClientLookup(up.codec, up.script(h, c1), client.clientId);
    if s1.result.Failure? {
      assert x.calls == [c1];
    } else {
      var uid := s1.result.value.id;
      var c2 := SecretRequest(cfg, token, uid);
      var s2 := SecretLookup(up.codec, up.script(h + [c1], c2));
      if s2.result.Failure? || submitted != s2.result.value {
        assert x.calls == [c1, c2];
      } else {
        var c3 := ChangeRequest(cfg, token, change, uid);
        assert x.calls == [c1, c2, c3];
        GateOfThree(up, h, c1, c2, c3, Mutation(change), submitted);
      }
    }
  }

  /**
   * The gated stage always answers, never with 400, and with 201 exactly
   * when all three calls were made and the IdP accepted the change.
   */
  lemma GatedOutcome(cfg: Config, up: Upstream, h: seq<Call>, token: string, client: Client, submitted: string, change: Change)
    ensures var x := GatedSpec(cfg, up, h, token, client, submitted, change);
      && x.write.Some? && x.write.value.status != 400
      && (x.write == Some(Written(201, "")) <==> |x.calls| == 3 && Issued(up, h, x.calls, Mutation(change)))
  {
    var x := GatedSpec(cfg, up, h, token, client, submitted, change);
    var c1 := ClientsQuery(cfg, token, client);
    var s1 := ClientLookup(up.codec, up.script(h, c1), client.clientId);
    if s1.result.Success? {
      var uid := s1.result.value.id;
      var c2 := SecretRequest(cfg, token, uid);
      var s2 := SecretLookup(up.codec, up.script(h + [c1], c2));
      if s2.result.Success? && submitted == s2.result.value {
        var c3 := ChangeRequest(cfg, token, change, uid);
        assert x.calls == [c1, c2, c3];
        assert x.calls[..2] == [c1, c2];
        ClientFailureSurfaced(up.script(h + [c1, c2], c3));
      }
    }
  }

  /**
   * The gated stage step by step: it looks the client up by its clientId;
   * a failed lookup ends it, otherwise it fetches the secret of the id the
   * lookup returned; a failed fetch ends it; a fetched secret other than
   * the submitted one ends it with 401 and the bad-client-secret error;
   * a matching one issues the change on that same id as the third and last
   * call. This is GatedSpec unfolded, one clause per step.
   */
  lemma GatedSteps(cfg: Config, up: Upstream, h: seq<Call>, token: string, client: Client, submitted: string, change: Change)
    ensures var x := GatedSpec(cfg, up, h, token, client, submitted, change);
      var c1 := ClientsQuery(cfg, token, client);
      var found := ClientLookup(up.codec, up.script(h, c1), client.clientId);
      && |x.calls| >= 1 && x.calls[0] == c1
      && (found.result.Failure? ==> x == Exchange([c1], found.write))
      && (found.result.Success? ==>
            var c2 := SecretRequest(cfg, token, found.result.value.id);
            var fetched := SecretLookup(up.codec, up.script(h + [c1], c2));
            && (fetched.result.Failure? ==> x == Exchange([c1, c2], fetched.write))
            && (fetched.result.Success? && submitted != fetched.result.value ==>
                  x == Exchange([c1, c2], Some(ErrorPage(401, Of(BadClientSecret)))))
            && (fetched.result.Success? && submitted == fetched.result.value ==>
                  x.calls == [c1, c2, ChangeRequest(cfg, token, change, found.result.value.id)]))
  {
  }

  /** The provisioning stage of create: the client is created as given and every call carries the given token. */
  lemma ProvisionStage(cfg: Config, up: Upstream, h: seq<Call>, token: string, client: Client)
    ensures var x := ProvisionSpec(cfg, up, h, token, client);
      && 1 <= |x.calls| <= 3
      && Creates(x.calls, client)
      && Bearing(x.calls, token)
      && (forall i :: 0 <= i < |x.calls| ==> x.calls[i].endpoint != TokenGrant)
  {
    var x := ProvisionSpec(cfg, up, h, token, client);
    var c1 := CreateClientRequest(cfg, token, client);
    if ClientCall(up.script(h, c1)).result.Success? {
      var c2 := ClientsQuery(cfg, token, client);
      var s2 := ClientLookup(up.codec, up.script(h + [c1], c2), client.clientId);
      if s2.result.Success? {
        assert x.calls == [c1, c2, SecretRequest(cfg, token, s2.result.value.id)];
      }
    }
  }

  /**
   * The provisioning stage step by step: it creates the client; a failed
   * creation ends it; otherwise it looks the client up by its clientId; a
   * failed lookup ends it; otherwise it fetches the secret of the id the
   * lookup returned, as its third and last call. It always answers, never
   * with 400, and with 201 exactly when that secret was fetched and
   * decoded; the body then reads back as that secret.
   */
  lemma ProvisionOutcome(cfg: Config, up: Upstream, h: seq<Call>, token: string, client: Client)
    ensures var x := ProvisionSpec(cfg, up, h, token, client);
      var c1 := CreateClientRequest(cfg, token, client);
      var created := ClientCall(up.script(h, c1));
      && |x.calls| >= 1 && x.calls[0] == c1
      && x.write.Some? && x.write.value.status != 400
      && (x.write.value.status == 201 <==> SecretFetched(up, h, x.calls))
      && (x.write.value.status == 201 ==>
            ParseSecretJson(x.write.value.body) == Some(SecretLookup(up.codec, LastReply(up, h, x.calls)).result.value))
      && (created.result.Failure? ==> x == Exchange([c1], created.write))
      && (created.result.Success? ==>
            var c2 := ClientsQuery(cfg, token, client);
            var found := ClientLookup(up.codec, up.script(h + [c1], c2), client.clientId);
            && (found.result.Failure? ==> x == Exchange([c1, c2], found.write))
            && (found.result.Success? ==>
                  var c3 := SecretRequest(cfg, token, found.result.value.id);
                  var fetched := SecretLookup(up.codec, up.script(h + [c1, c2], c3)).result;
                  && x.calls == [c1, c2, c3]
                  && (x.write.value.status == 201 <==> fetched.Success?)
                  && (fetched.Success? ==> ParseSecretJson(x.write.value.body) == Some(fetched.value))))
  {
    var x := ProvisionSpec(cfg, up, h, token, client);
    var c1 := CreateClientRequest(cfg, token, client);
    ClientFailureSurfaced(up.script(h, c1));
    if ClientCall(up.script(h, c1)).result.Success? {
      var c2 := ClientsQuery(cfg, token, client);
      ClientFailureSurfaced(up.script(h + [c1], c2));
      if ClientLookup(up.codec, up.script(h + [c1], c2), client.clientId).result.Success? {
        ProvisionFetch(cfg, up, h, token, client);
      } else {
        assert x.calls == [c1, c2];
      }
    } else {
      assert x.calls == [c1];
    }
  }

  /** Proof helper: ProvisionOutcome once creation and lookup succeeded. */
  lemma ProvisionFetch(cfg: Config, up: Upstream, h: seq<Call>, token: string, client: Client)
    requires ClientCall(up.script(h, CreateClientRequest(cfg, token, client))).result.Success?
    requires ClientLookup(up.codec, up.script(h + [CreateClientRequest(cfg, token, client)], ClientsQuery(cfg, token, client)), client.clientId).result.Success?
    ensures var x := ProvisionSpec(cfg, up, h, token, client);
      var c1 := CreateClientRequest(cfg, token, client);
      var c2 := ClientsQuery(cfg, token, client);
      var found := ClientLookup(up.codec, up.script(h + [c1], c2), client.clientId);
      var c3 := SecretRequest(cfg, token, found.result.value.id);
      var fetched := SecretLookup(up.codec, up.script(h + [c1, c2], c3)).result;
      && x.calls == [c1, c2, c3]
      && LastReply(up, h, x.calls) == up.script(h + [c1, c2], c3)
      && x.write.Some? && x.write.value.status != 400
      && (x.write.value.status == 201 <==> fetched.Success?)
      && (fetched.Success? ==> ParseSecretJson(x.write.value.body) == Some(fetched.value))
  {
    var x := ProvisionSpec(cfg, up, h, token, client);
    var c1 := CreateClientRequest(cfg, token, client);
    var c2 := ClientsQuery(cfg, token, client);
    var c3 := SecretRequest(cfg, token, ClientLookup(up.codec, up.script(h + [c1], c2), client.clientId).result.value.id);
    var s3 := SecretLookup(up.codec, up.script(h + [c1, c2], c3));
    assert x.calls == [c1, c2, c3];
    assert x.calls[..2] == [c1, c2];
    ClientFailureSurfaced(up.script(h + [c1, c2], c3));
    if s3.result.Success? {
      SecretJsonRoundTrip(s3.result.value);
    }
  }

  /**
   * From admin authentication on, update and delete answer, never with
   * 400; only calls to the token endpoint happen unless the service
   * authenticated, and then every other call carries the service's token;
   * the change is guarded by the secret; and 201 means the change was the
   * last call and the IdP accepted it.
   */
  lemma AdminGatedStage(cfg: Config, up: Upstream, h: seq<Call>, client: Client, submitted: string, change: Change)
    ensures var y := AdminGatedSpec(cfg, up, h, client, submitted, change);
      var admin := AdminResult(cfg, up, h);
      && y.write.Some? && y.write.value.status != 400
      && (admin.Failure? ==> TokenOnly(y.calls))
      && (admin.Success? ==> Bearing(y.calls, admin.value.token))
      && Gate(up, h, y.calls, Mutation(change), submitted)
      && (y.write == Some(Written(201, "")) <==> Issued(up, h, y.calls, Mutation(change)))
  {
    AdminGatedCalls(cfg, up, h, client, submitted, change);
    AdminGatedGuard(cfg, up, h, client, submitted, change);
  }

  /** Proof helper: the calls of AdminGatedStage, token requests first and then calls bearing the service's token. */
  lemma AdminGatedCalls(cfg: Config, up: Upstream, h: seq<Call>, client: Client, submitted: string, change: Change)
    ensures var y := AdminGatedSpec(cfg, up, h, client, submitted, change);
      var admin := AdminResult(cfg, up, h);
      && (admin.Failure? ==> TokenOnly(y.calls))
      && (admin.Success? ==> Bearing(y.calls, admin.value.token))
  {
    var run := AuthRun(up, h, Success(AdminAuthBody(cfg)));
    AuthCallsTokenOnly(up, h, Success(AdminAuthBody(cfg)));
    if run.result.Success? {
      var h1 := h + run.calls;
      var token := run.result.value.token;
      var g := GatedSpec(cfg, up, h1, token, client, submitted, change);
      GatedStage(cfg, up, h1, token, client, submitted, change);
      BearingShift(run.calls, g.calls, token);
    }
  }

  /** Proof helper: the answer and the secret gate of AdminGatedStage. */
  lemma AdminGatedGuard(cfg: Config, up: Upstream, h: seq<Call>, client: Client, submitted: string, change: Change)
    ensures var y := AdminGatedSpec(cfg, up, h, client, submitted, change);
      && y.write.Some? && y.write.value.status != 400
      && Gate(up, h, y.calls, Mutation(change), submitted)
      && (y.write == Some(Written(201, "")) <==> Issued(up, h, y.calls, Mutation(change)))
  {
    if AdminResult(cfg, up, h).Success? {
      AdminGatedGuardPassed(cfg, up, h, client, submitted, change);
    } else {
      var run := AuthRun(up, h, Success(AdminAuthBody(cfg)));
      AuthCallsTokenOnly(up, h, Success(AdminAuthBody(cfg)));
      AuthWrites(up, h, Success(AdminAuthBody(cfg)));
      IssuedShift(up, h, run.calls, [], Mutation(change));
      assert run.calls + [] == run.calls;
    }
  }

  /** Proof helper: AdminGatedGuard once the service has logged in. */
  lemma AdminGatedGuardPassed(cfg: Config, up: Upstream, h: seq<Call>, client: Client, submitted: string, change: Change)
    requires AdminResult(cfg, up, h).Success?
    ensures var y := AdminGatedSpec(cfg, up, h, client, submitted, change);
      && y.write.Some? && y.write.value.status != 400
      && Gate(up, h, y.calls, Mutation(change), submitted)
      && (y.write == Some(Written(201, "")) <==> Issued(up, h, y.calls, Mutation(change)))
  {
    var run := AuthRun(up, h, Success(AdminAuthBody(cfg)));
    AuthCallsTokenOnly(up, h, Success(AdminAuthBody(cfg)));
    var h1 := h + run.calls;
    var token := run.result.value.token;
    var g := GatedSpec(cfg, up, h1, token, client, submitted, change);
    assert AdminGatedSpec(cfg, up, h, client, submitted, change) == Exchange(run.calls + g.calls, g.write);
    GatedGuard(cfg, up, h1, token, client, submitted, change);
    GatedOutcome(cfg, up, h1, token, client, submitted, change);
    GateShift(up, h, run.calls, g.calls, Mutation(change), submitted);
    IssuedShift(up, h, run.calls, g.calls, Mutation(change));
  }




  /**
   * From admin authentication on, create answers, never with 400; only
   * calls to the token endpoint happen unless the service authenticated,
   * and then every other call carries the service's token and the client
   * created is the one given; 201 means the secret was fetched last, and
   * the body reads back as that secret.
   */
  lemma AdminProvisionStage(cfg: Config, up: Upstream, h: seq<Call>, client: Client)
    ensures var y := AdminProvisionSpec(cfg, up, h, client);
      var admin := AdminResult(cfg, up, h);
      && y.write.Some? && y.write.value.status != 400
      && (admin.Failure? ==> TokenOnly(y.calls))
      && (admin.Success? ==> Bearing(y.calls, admin.value.token))
      && Creates(y.calls, client)
      && (y.write.value.status == 201 <==> SecretFetched(up, h, y.calls))
      && (y.write.value.status == 201 ==>
            ParseSecretJson(y.write.value.body) == Some(SecretLookup(up.codec, LastReply(up, h, y.calls)).result.value))
  {
    var run := AuthRun(up, h, Success(AdminAuthBody(cfg)));
    AuthCallsTokenOnly(up, h, Success(AdminAuthBody(cfg)));
    AuthWrites(up, h, Success(AdminAuthBody(cfg)));
    if run.result.Success? {
      var h1 := h + run.calls;
      var token := run.result.value.token;
      var p := ProvisionSpec(cfg, up, h1, token, client);
      ProvisionStage(cfg, up, h1, token, client);
      ProvisionOutcome(cfg, up, h1, token, client);
      CreatesShift(run.calls, p.calls, client);
      BearingShift(run.calls, p.calls, token);
      LastReplyShift(up, h, run.calls, p.calls);
    }
  }

  /** Proof helper: AdminGatedStage's guarantees survive a prefix of the caller's token requests. */
  lemma AdminGatedLift(cfg: Config, up: Upstream, h: seq<Call>, pre: seq<Call>, client: Client, submitted: string, change: Change)
    requires TokenOnly(pre)
    ensures var y := AdminGatedSpec(cfg, up, h + pre, client, submitted, change);
      var admin := AdminResult(cfg, up, h + pre);
      && (!TokenOnly(pre + y.calls) ==> admin.Success? && Bearing(pre + y.calls, admin.value.token))
      && Gate(up, h, pre + y.calls, Mutation(change), submitted)
      && (y.write == Some(Written(201, "")) <==> Issued(up, h, pre + y.calls, Mutation(change)))
  {
    var y := AdminGatedSpec(cfg, up, h + pre, client, submitted, change);
    AdminGatedStage(cfg, up, h + pre, client, submitted, change);
    GateShift(up, h, pre, y.calls, Mutation(change), submitted);
    if AdminResult(cfg, up, h + pre).Success? {
      BearingShift(pre, y.calls, AdminResult(cfg, up, h + pre).value.token);
    } else {
      TokenOnlyConcat(pre, y.calls);
    }
    if |y.calls| >= 1 {
      LastReplyShift(up, h, pre, y.calls);
    }
  }

  // ---------------------------------------------------------------------------
  // The handlers

  /** Without a Basic-Auth header every client handler answers 401 with the invalid-basic-auth error and calls nothing. */
  lemma MissingCredentialsRefused(cfg: Config, up: Upstream, pc: PayloadCodec, h: seq<Call>, req: Request)
    requires req.basicAuth.None?
    ensures CreateSpec(cfg, up, pc, h, req) == Exchange([], Some(ErrorPage(401, Of(InvalidBasicAuthHeaders))))
    ensures UpdateSpec(cfg, up, pc, h, req) == Exchange([], Some(ErrorPage(401, Of(InvalidBasicAuthHeaders))))
    ensures DeleteSpec(cfg, up, pc, h, req) == Exchange([], Some(ErrorPage(401, Of(InvalidBasicAuthHeaders))))
  {
    MissingCredentials(up, h, cfg);
  }

  /**
   * The update handler answers 400 exactly when the caller authenticated,
   * the body was read and the payload is refused; an undecodable payload
   * is 1003 and a decoded one missing a required field is 1007, and a
   * refused payload never
   * gets past the caller's token requests. An unreadable body is a 500.
   */
  lemma UpdateRefusals(cfg: Config, up: Upstream, pc: PayloadCodec, h: seq<Call>, req: Request)
    ensures var x := UpdateSpec(cfg, up, pc, h, req);
      var caller := CallerRun(cfg, up, h, req);
      && x.write.Some?
      && (x.write.value.status == 400 <==> caller.result.Success? && req.body.Success? && UpdateRefuses(pc, req.body.value))
      && (x.write.value.status == 400 ==> RefusalPage(x.write) && TokenOnly(x.calls))
      && (caller.result.Success? && req.body.Success? && (pc.client(req.body.value).Failure? || pc.withSecret(req.body.value).Failure?) ==>
            x.write == Some(ErrorPage(400, Of(InvalidRequestPayload))))
      && (caller.result.Success? && req.body.Success? && pc.client(req.body.value).Success? && pc.withSecret(req.body.value).Success?
          && !ValidClientWithSecret(pc.withSecret(req.body.value).value) ==>
            x.write == Some(ErrorPage(400, Of(MissingRequiredFieldsPayload))))
      && (caller.result.Success? && req.body.Failure? ==> x == Exchange(caller.calls, Some(PlainErrorPage(500, req.body.error))))
  {
    var caller := CallerRun(cfg, up, h, req);
    AuthCallsTokenOnly(up, h, AuthBodyFromBasicAuth(cfg, req.basicAuth));
    AuthWrites(up, h, AuthBodyFromBasicAuth(cfg, req.basicAuth));
    if caller.result.Success? && req.body.Success? && !UpdateRefuses(pc, req.body.value) {
      var client := ApplyRedirectDefaults(pc.client(req.body.value).value).(publicClient := false);
      AdminGatedStage(cfg, up, h + caller.calls, client, pc.withSecret(req.body.value).value.secret, Replace(client));
    }
  }

  /**
   * Past the caller's token requests, the update handler only goes with an
   * accepted payload and the service's own token, on every call; a client
   * is replaced only as the last call, right after its current secret was
   * fetched with the same token and found equal to the submitted one; and
   * 201 means the replacement was accepted by the IdP.
   */
  lemma UpdateGuarded(cfg: Config, up: Upstream, pc: PayloadCodec, h: seq<Call>, req: Request)
    ensures var x := UpdateSpec(cfg, up, pc, h, req);
      var caller := CallerRun(cfg, up, h, req);
      var admin := AdminResult(cfg, up, h + caller.calls);
      && (!TokenOnly(x.calls) ==>
            && caller.result.Success? && req.body.Success? && !UpdateRefuses(pc, req.body.value)
            && admin.Success? && Bearing(x.calls, admin.value.token)
            && Gate(up, h, x.calls, ReplaceClient, pc.withSecret(req.body.value).value.secret))
      && (x.write == Some(Written(201, "")) <==> Issued(up, h, x.calls, ReplaceClient))
  {
    var x := UpdateSpec(cfg, up, pc, h, req);
    var caller := CallerRun(cfg, up, h, req);
    AuthCallsTokenOnly(up, h, AuthBodyFromBasicAuth(cfg, req.basicAuth));
    AuthWrites(up, h, AuthBodyFromBasicAuth(cfg, req.basicAuth));
    if caller.result.Success? && req.body.Success? && !UpdateRefuses(pc, req.body.value) {
      var client := ApplyRedirectDefaults(pc.client(req.body.value).value).(publicClient := false);
      AdminGatedLift(cfg, up, h, caller.calls, client, pc.withSecret(req.body.value).value.secret, Replace(client));
    }
  }

  /**
   * The delete handler answers 400 exactly when the caller authenticated,
   * the body was read and the payload is refused (1003 when it does not
   * decode, 1007 when clientId is missing); a refused payload never
   * gets past the caller's token requests. An unreadable body is a 500.
   */
  lemma DeleteRefusals(cfg: Config, up: Upstream, pc: PayloadCodec, h: seq<Call>, req: Request)
    ensures var x := DeleteSpec(cfg, up, pc, h, req);
      var caller := CallerRun(cfg, up, h, req);
      && x.write.Some?
      && (x.write.value.status == 400 <==> caller.result.Success? && req.body.Success? && DeleteRefuses(pc, req.body.value))
      && (x.write.value.status == 400 ==> RefusalPage(x.write) && TokenOnly(x.calls))
      && (caller.result.Success? && req.body.Success? && (pc.client(req.body.value).Failure? || pc.withSecret(req.body.value).Failure?) ==>
            x.write == Some(ErrorPage(400, Of(InvalidRequestPayload))))
      && (caller.result.Success? && req.body.Success? && pc.client(req.body.value).Success? && pc.withSecret(req.body.value).Success?
          && !ValidClient(pc.client(req.body.value).value) ==>
            x.write == Some(ErrorPage(400, Of(MissingRequiredFieldsPayload))))
      && (caller.result.Success? && req.body.Failure? ==> x == Exchange(caller.calls, Some(PlainErrorPage(500, req.body.error))))
  {
    var caller := CallerRun(cfg, up, h, req);
    AuthCallsTokenOnly(up, h, AuthBodyFromBasicAuth(cfg, req.basicAuth));
    AuthWrites(up, h, AuthBodyFromBasicAuth(cfg, req.basicAuth));
    if caller.result.Success? && req.body.Success? && !DeleteRefuses(pc, req.body.value) {
      AdminGatedStage(cfg, up, h + caller.calls, pc.client(req.body.value).value, pc.withSecret(req.body.value).value.secret, Remove);
    }
  }

  /**
   * Past the caller's token requests, the delete handler only goes with an
   * accepted payload and the service's own token, on every call; a client
   * is removed only as the last call, right after its current secret was
   * fetched with the same token and found equal to the submitted one; and
   * 201 means the removal was accepted by the IdP.
   */
  lemma DeleteGuarded(cfg: Config, up: Upstream, pc: PayloadCodec, h: seq<Call>, req: Request)
    ensures var x := DeleteSpec(cfg, up, pc, h, req);
      var caller := CallerRun(cfg, up, h, req);
      var admin := AdminResult(cfg, up, h + caller.calls);
      && (!TokenOnly(x.calls) ==>
            && caller.result.Success? && req.body.Success? && !DeleteRefuses(pc, req.body.value)
            && admin.Success? && Bearing(x.calls, admin.value.token)
            && Gate(up, h, x.calls, RemoveClient, pc.withSecret(req.body.value).value.secret))
      && (x.write == Some(Written(201, "")) <==> Issued(up, h, x.calls, RemoveClient))
  {
    var x := DeleteSpec(cfg, up, pc, h, req);
    var caller := CallerRun(cfg, up, h, req);
    AuthCallsTokenOnly(up, h, AuthBodyFromBasicAuth(cfg, req.basicAuth));
    AuthWrites(up, h, AuthBodyFromBasicAuth(cfg, req.basicAuth));
    if caller.result.Success? && req.body.Success? && !DeleteRefuses(pc, req.body.value) {
      var client := pc.client(req.body.value).value;
      AdminGatedLift(cfg, up, h, caller.calls, client, pc.withSecret(req.body.value).value.secret, Remove);
    }
  }

  /**
   * The secret gate of the update handler, both ways. Once the caller, the
   * payload and the service's own login are through, the handler looks up
   * the normalised client with the service's token and fetches the secret
   * of the id that lookup returned. A fetched secret other than the
   * submitted one ends the request with 401 and the bad-client-secret
   * error, and nothing is replaced. A matching one is followed by exactly
   * one more call, the replacement of that same id with the normalised
   * client (standard-flow defaults, publicClient false).
   */
  lemma UpdateSecretGate(cfg: Config, up: Upstream, pc: PayloadCodec, h: seq<Call>, req: Request)
    requires CallerRun(cfg, up, h, req).result.Success? && req.body.Success? && !UpdateRefuses(pc, req.body.value)
    ensures var caller := CallerRun(cfg, up, h, req);
      var admin := AuthRun(up, h + caller.calls, Success(AdminAuthBody(cfg)));
      var x := UpdateSpec(cfg, up, pc, h, req);
      var client := ApplyRedirectDefaults(pc.client(req.body.value).value).(publicClient := false);
      var submitted := pc.withSecret(req.body.value).value.secret;
      admin.result.Success? ==>
        var pre := caller.calls + admin.calls;
        var token := admin.result.value.token;
        var c1 := ClientsQuery(cfg, token, client);
        var found := ClientLookup(up.codec, up.script(h + pre, c1), client.clientId).result;
        found.Success? ==>
          var c2 := SecretRequest(cfg, token, found.value.id);
          var fetched := SecretLookup(up.codec, up.script(h + pre + [c1], c2)).result;
          fetched.Success? ==>
            && (submitted != fetched.value ==> x == Exchange(pre + [c1, c2], Some(ErrorPage(401, Of(BadClientSecret)))))
            && (submitted == fetched.value ==> x.calls == pre + [c1, c2, UpdateClientRequest(cfg, token, client, found.value.id)])
  {
    var caller := CallerRun(cfg, up, h, req);
    var admin := AuthRun(up, h + caller.calls, Success(AdminAuthBody(cfg)));
    if admin.result.Success? {
      var client := ApplyRedirectDefaults(pc.client(req.body.value).value).(publicClient := false);
      var submitted := pc.withSecret(req.body.value).value.secret;
      var token := admin.result.value.token;
      var g := GatedSpec(cfg, up, h + caller.calls + admin.calls, token, client, submitted, Replace(client));
      GatedSteps(cfg, up, h + caller.calls + admin.calls, token, client, submitted, Replace(client));
      Associative(h, caller.calls, admin.calls);
      Associative(caller.calls, admin.calls, g.calls);
    }
  }

  /**
   * The secret gate of the delete handler, both ways: past the caller, the
   * payload and the service's own login, a fetched secret other than the
   * submitted one ends the request with 401 and the bad-client-secret
   * error, and nothing is removed; a matching one is followed by exactly
   * one more call, the removal of the id the lookup returned.
   */
  lemma DeleteSecretGate(cfg: Config, up: Upstream, pc: PayloadCodec, h: seq<Call>, req: Request)
    requires CallerRun(cfg, up, h, req).result.Success? && req.body.Success? && !DeleteRefuses(pc, req.body.value)
    ensures var caller := CallerRun(cfg, up, h, req);
      var admin := AuthRun(up, h + caller.calls, Success(AdminAuthBody(cfg)));
      var x := DeleteSpec(cfg, up, pc, h, req);
      var client := pc.client(req.body.value).value;
      var submitted := pc.withSecret(req.body.value).value.secret;
      admin.result.Success? ==>
        var pre := caller.calls + admin.calls;
        var token := admin.result.value.token;
        var c1 := ClientsQuery(cfg, token, client);
        var found := ClientLookup(up.codec, up.script(h + pre, c1), client.clientId).result;
        found.Success? ==>
          var c2 := SecretRequest(cfg, token, found.value.id);
          var fetched := SecretLookup(up.codec, up.script(h + pre + [c1], c2)).result;
          fetched.Success? ==>
            && (submitted != fetched.value ==> x == Exchange(pre + [c1, c2], Some(ErrorPage(401, Of(BadClientSecret)))))
            && (submitted == fetched.value ==> x.calls == pre + [c1, c2, DeleteClientRequest(cfg, token, found.value.id)])
  {
    var caller := CallerRun(cfg, up, h, req);
    var admin := AuthRun(up, h + caller.calls, Success(AdminAuthBody(cfg)));
    if admin.result.Success? {
      var client := pc.client(req.body.value).value;
      var submitted := pc.withSecret(req.body.value).value.secret;
      var token := admin.result.value.token;
      var g := GatedSpec(cfg, up, h + caller.calls + admin.calls, token, client, submitted, Remove);
      GatedSteps(cfg, up, h + caller.calls + admin.calls, token, client, submitted, Remove);
      Associative(h, caller.calls, admin.calls);
      Associative(caller.calls, admin.calls, g.calls);
    }
  }

  /**
   * An empty submitted secret: update refuses it as a missing required
   * field, while delete, which validates only the client shape, goes on to
   * the service's own authentication.
   */
  lemma EmptySecretPolicy(cfg: Config, up: Upstream, pc: PayloadCodec, h: seq<Call>, req: Request)
    requires CallerRun(cfg, up, h, req).result.Success? && req.body.Success?
    requires pc.client(req.body.value).Success? && pc.withSecret(req.body.value).Success?
    requires ValidClient(pc.client(req.body.value).value) && pc.withSecret(req.body.value).value.secret == ""
    ensures UpdateSpec(cfg, up, pc, h, req).write == Some(ErrorPage(400, Of(MissingRequiredFieldsPayload)))
    ensures var x := DeleteSpec(cfg, up, pc, h, req);
      var n := |CallerRun(cfg, up, h, req).calls|;
      && |x.calls| > n
      && x.calls[n] == TokenRequest(TokenUrl(cfg, "master"), PasswordGrant(cfg.idpAdmin, cfg.idpPass, cfg.apiClientId, cfg.apiClientSecret))
  {
    var caller := CallerRun(cfg, up, h, req);
    AdminAuthentication(up, h + caller.calls, cfg);
    var y := AdminGatedSpec(cfg, up, h + caller.calls, pc.client(req.body.value).value, "", Remove);
    assert DeleteSpec(cfg, up, pc, h, req).calls == caller.calls + y.calls;
  }

  /**
   * The create handler answers 400 exactly when the caller authenticated
   * and the payload is refused: 1003 when it cannot be read or decoded
   * (an unreadable body counts as undecodable), 1007 when clientId is
   * missing; a refused payload never gets past the caller's token requests.
   */
  lemma CreateRefusals(cfg: Config, up: Upstream, pc: PayloadCodec, h: seq<Call>, req: Request)
    ensures var x := CreateSpec(cfg, up, pc, h, req);
      var caller := CallerRun(cfg, up, h, req);
      && x.write.Some?
      && (x.write.value.status == 400 <==> caller.result.Success? && CreateRefuses(pc, req.body))
      && (x.write.value.status == 400 ==> RefusalPage(x.write) && TokenOnly(x.calls))
      && (caller.result.Success? && DecodeStream(pc.client, req.body).Failure? ==>
            x.write == Some(ErrorPage(400, Of(InvalidRequestPayload))))
      && (caller.result.Success? && DecodeStream(pc.client, req.body).Success? && !ValidClient(DecodeStream(pc.client, req.body).value) ==>
            x.write == Some(ErrorPage(400, Of(MissingRequiredFieldsPayload))))
  {
    var caller := CallerRun(cfg, up, h, req);
    AuthCallsTokenOnly(up, h, AuthBodyFromBasicAuth(cfg, req.basicAuth));
    AuthWrites(up, h, AuthBodyFromBasicAuth(cfg, req.basicAuth));
    if caller.result.Success? && !CreateRefuses(pc, req.body) {
      var client := ApplyRedirectDefaults(DecodeStream(pc.client, req.body).value).(publicClient := false, description := CreatedBy(caller.result.value.entity));
      AdminProvisionStage(cfg, up, h + caller.calls, client);
    }
  }

  /**
   * Past the caller's token requests, the create handler only goes with an
   * accepted payload and the service's own token, on every call; and the
   * client it creates is the submitted one with the standard-flow
   * defaults, marked confidential and described as created by the
   * Basic-Auth user.
   */
  lemma CreateGuarded(cfg: Config, up: Upstream, pc: PayloadCodec, h: seq<Call>, req: Request)
    ensures var x := CreateSpec(cfg, up, pc, h, req);
      var caller := CallerRun(cfg, up, h, req);
      var admin := AdminResult(cfg, up, h + caller.calls);
      !TokenOnly(x.calls) ==>
        && caller.result.Success? && req.basicAuth.Some? && !CreateRefuses(pc, req.body)
        && admin.Success? && Bearing(x.calls, admin.value.token)
        && Creates(x.calls, ApplyRedirectDefaults(DecodeStream(pc.client, req.body).value)
             .(publicClient := false, description := CreatedBy(req.basicAuth.value.username)))
  {
    var caller := CallerRun(cfg, up, h, req);
    AuthCallsTokenOnly(up, h, AuthBodyFromBasicAuth(cfg, req.basicAuth));
    if caller.result.Success? && !CreateRefuses(pc, req.body) {
      CallerAuthentication(up, h, cfg, req.basicAuth.value);
      var client := ApplyRedirectDefaults(DecodeStream(pc.client, req.body).value).(publicClient := false, description := CreatedBy(caller.result.value.entity));
      var y := AdminProvisionSpec(cfg, up, h + caller.calls, client);
      AdminProvisionStage(cfg, up, h + caller.calls, client);
      CreatesShift(caller.calls, y.calls, client);
      if AdminResult(cfg, up, h + caller.calls).Success? {
        BearingShift(caller.calls, y.calls, AdminResult(cfg, up, h + caller.calls).value.token);
      } else {
        TokenOnlyConcat(caller.calls, y.calls);
      }
    }
  }

  /** The create handler answers 201 exactly when the new client's secret was fetched last, with a body that reads back as that secret. */
  lemma CreateSucceeds(cfg: Config, up: Upstream, pc: PayloadCodec, h: seq<Call>, req: Request)
    ensures var x := CreateSpec(cfg, up, pc, h, req);
      && x.write.Some?
      && (x.write.value.status == 201 <==> SecretFetched(up, h, x.calls))
      && (x.write.value.status == 201 ==>
            ParseSecretJson(x.write.value.body) == Some(SecretLookup(up.codec, LastReply(up, h, x.calls)).result.value))
  {
    var x := CreateSpec(cfg, up, pc, h, req);
    var caller := CallerRun(cfg, up, h, req);
    AuthCallsTokenOnly(up, h, AuthBodyFromBasicAuth(cfg, req.basicAuth));
    AuthWrites(up, h, AuthBodyFromBasicAuth(cfg, req.basicAuth));
    if caller.result.Success? && !CreateRefuses(pc, req.body) {
      var client := ApplyRedirectDefaults(DecodeStream(pc.client, req.body).value).(publicClient := false, description := CreatedBy(caller.result.value.entity));
      var y := AdminProvisionSpec(cfg, up, h + caller.calls, client);
      AdminProvisionStage(cfg, up, h + caller.calls, client);
      assert x.calls == caller.calls + y.calls && x.write == y.write;
      if |y.calls| >= 1 {
        LastReplyShift(up, h, caller.calls, y.calls);
      }
    } else {
      assert x.calls == caller.calls && x.write.value.status != 201;
    }
  }

  /**
   * What the create handler does once the caller, the payload and the
   * service's own login are through: it creates the stamped client with
   * the service's token; if that succeeds it looks the client up by its
   * clientId; if that succeeds it fetches the secret of the id the lookup
   * returned, as its last call, and answers 201 with a body that reads
   * back as that secret exactly when the secret decoded. Each failure ends
   * the request with that step's page.
   */
  lemma CreateProvisions(cfg: Config, up: Upstream, pc: PayloadCodec, h: seq<Call>, req: Request)
    requires CallerRun(cfg, up, h, req).result.Success? && !CreateRefuses(pc, req.body)
    ensures var caller := CallerRun(cfg, up, h, req);
      var admin := AuthRun(up, h + caller.calls, Success(AdminAuthBody(cfg)));
      var x := CreateSpec(cfg, up, pc, h, req);
      var client := ApplyRedirectDefaults(DecodeStream(pc.client, req.body).value)
        .(publicClient := false, description := CreatedBy(caller.result.value.entity));
      admin.result.Success? ==>
        var pre := caller.calls + admin.calls;
        var token := admin.result.value.token;
        var c1 := CreateClientRequest(cfg, token, client);
        var created := ClientCall(up.script(h + pre, c1));
        && (created.result.Failure? ==> x == Exchange(pre + [c1], created.write))
        && (created.result.Success? ==>
              var c2 := ClientsQuery(cfg, token, client);
              var found := ClientLookup(up.codec, up.script(h + pre + [c1], c2), client.clientId);
              && (found.result.Failure? ==> x == Exchange(pre + [c1, c2], found.write))
              && (found.result.Success? ==>
                    var c3 := SecretRequest(cfg, token, found.result.value.id);
                    var fetched := SecretLookup(up.codec, up.script(h + pre + [c1, c2], c3)).result;
                    && x.calls == pre + [c1, c2, c3]
                    && x.write.Some?
                    && (x.write.value.status == 201 <==> fetched.Success?)
                    && (fetched.Success? ==> ParseSecretJson(x.write.value.body) == Some(fetched.value))))
  {
    var caller := CallerRun(cfg, up, h, req);
    var admin := AuthRun(up, h + caller.calls, Success(AdminAuthBody(cfg)));
    if admin.result.Success? {
      var client := ApplyRedirectDefaults(DecodeStream(pc.client, req.body).value)
        .(publicClient := false, description := CreatedBy(caller.result.value.entity));
      CreateComposes(cfg, up, pc, h, req);
      ProvisionOutcome(cfg, up, h + (caller.calls + admin.calls), admin.result.value.token, client);
    }
  }

  /** Proof helper: past the service's own login, the create handler is the provisioning stage after the token requests. */
  lemma CreateComposes(cfg: Config, up: Upstream, pc: PayloadCodec, h: seq<Call>, req: Request)
    requires CallerRun(cfg, up, h, req).result.Success? && !CreateRefuses(pc, req.body)
    ensures var caller := CallerRun(cfg, up, h, req);
      var admin := AuthRun(up, h + caller.calls, Success(AdminAuthBody(cfg)));
      var client := ApplyRedirectDefaults(DecodeStream(pc.client, req.body).value)
        .(publicClient := false, description := CreatedBy(caller.result.value.entity));
      admin.result.Success? ==>
        var p := ProvisionSpec(cfg, up, h + (caller.calls + admin.calls), admin.result.value.token, client);
        CreateSpec(cfg, up, pc, h, req) == Exchange(caller.calls + admin.calls + p.calls, p.write)
  {
    var caller := CallerRun(cfg, up, h, req);
    var admin := AuthRun(up, h + caller.calls, Success(AdminAuthBody(cfg)));
    if admin.result.Success? {
      var client := ApplyRedirectDefaults(DecodeStream(pc.client, req.body).value)
        .(publicClient := false, description := CreatedBy(caller.result.value.entity));
      var p := ProvisionSpec(cfg, up, h + caller.calls + admin.calls, admin.result.value.token, client);
      Associative(h, caller.calls, admin.calls);
      Associative(caller.calls, admin.calls, p.calls);
    }
  }

  /**
   * The health check makes one unauthenticated probe of the admin endpoint
   * and answers 200 with no body exactly when the probe succeeded;
   * otherwise 500 with the upstream-failure code and the IdP's text.
   */
  lemma HealthOutcomes(cfg: Config, up: Upstream, h: seq<Call>)
    ensures var x := HealthSpec(cfg, up, h);
      var reply := up.script(h, HealthRequest(cfg));
      && x.calls == [HealthRequest(cfg)] && x.calls[0].bearer.None? && x.calls[0].url == CheckUrl(cfg)
      && x.write.Some?
      && (x.write == Some(Written(200, "")) <==> reply.Response? && IsSuccessStatus(reply.status))
      && (x.write.value.status != 200 ==>
            var text := if reply.Response? then reply.body else reply.reason;
            && x.write.value.status == 500
            && |x.write.value.body| > 0 && x.write.value.body[|x.write.value.body| - 1] == '\n'
            && Parse(x.write.value.body[..|x.write.value.body| - 1]) == Some(ApiError(UpstreamFailureCode, text)))
  {
    var reply := up.script(h, HealthRequest(cfg));
    ClientFailureSurfaced(reply);
  }
}
