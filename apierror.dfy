/**
 * The service's error vocabulary (apierror/api.go): an error is a
 * (code, message) pair, a fixed table of constructors hands out the
 * numbered codes, and `Error()` renders the pair as a JSON object.
 */
module ApiErrors {
  import opened Wrappers
  import opened JsonText

  datatype ApiError = ApiError(code: string, message: string)

  /** One entry per constructor of the fixed table. */
  datatype Kind =
    | NotFound
    | NotImplemented
    | InvalidId
    | InvalidRequestPayload
    | QueryParamMissing
    | ParamStartBadValue
    | ParamCountBadValue
    | MissingRequiredFieldsPayload
    | InvalidBasicAuthHeaders
    | BadClientSecret
    | InternalServerError

  /** Every code of the table is a four-digit number starting with 10. */
  function Code(k: Kind): (c: string)
    ensures |c| == 4 && c[..2] == "10"
  {
    match k
    case NotFound => "1000"
    case NotImplemented => "1001"
    case InvalidId => "1002"
    case InvalidRequestPayload => "1003"
    case QueryParamMissing => "1004"
    case ParamStartBadValue => "1005"
    case ParamCountBadValue => "1006"
    case MissingRequiredFieldsPayload => "1007"
    case InvalidBasicAuthHeaders => "1008"
    case BadClientSecret => "1009"
    case InternalServerError => "1010"
  }

  /** Every constructor carries a message. */
  function Message(k: Kind): (m: string)
    ensures m != ""
  {
    match k
    case NotFound => "Endpoint Not Found"
    case NotImplemented => "Api endpoint exists but is not yet implemented"
    case InvalidId => "Invalid object ID"
    case InvalidRequestPayload => "Invalid Request payload"
    case QueryParamMissing => "Query param specified but value missing"
    case ParamStartBadValue => "Query param start must be positive integer"
    case ParamCountBadValue => "Query param count must be positive integer"
    case MissingRequiredFieldsPayload => "Missing required fields"
    case InvalidBasicAuthHeaders => "Invalid basic auth headers"
    case BadClientSecret => "Bad client secret"
    case InternalServerError => "InternalServerError"
  }

  /** The constructor for `k`: it takes no argument, so every call returns the same pair. */
  function Of(k: Kind): ApiError
  {
    ApiError(Code(k), Message(k))
  }

  /** The error the tests use; its code belongs to no constructor and is not the upstream-failure code. */
  function TestError(): (e: ApiError)
    ensures KindOfCode(e.code) == None && e.code != UpstreamFailureCode
  {
    ApiError("XXX", "Test Error")
  }

  /** The catch-all code the IdP client uses whenever the IdP itself reports a failure. */
  const UpstreamFailureCode: string := "10000"

  function UpstreamFailure(upstreamText: string): ApiError
  {
    ApiError(UpstreamFailureCode, upstreamText)
  }

  /** Reads a code back to the constructor that hands it out, if any. */
  function KindOfCode(code: string): (k: Option<Kind>)
    ensures k.Some? ==> Code(k.value) == code
  {
    if code == "1000" then Some(NotFound)
    else if code == "1001" then Some(NotImplemented)
    else if code == "1002" then Some(InvalidId)
    else if code == "1003" then Some(InvalidRequestPayload)
    else if code == "1004" then Some(QueryParamMissing)
    else if code == "1005" then Some(ParamStartBadValue)
    else if code == "1006" then Some(ParamCountBadValue)
    else if code == "1007" then Some(MissingRequiredFieldsPayload)
    else if code == "1008" then Some(InvalidBasicAuthHeaders)
    else if code == "1009" then Some(BadClientSecret)
    else if code == "1010" then Some(InternalServerError)
    else None
  }

  /**
   * A code identifies its constructor: codes are pairwise distinct, and
   * neither the upstream-failure code nor the test code belongs to the table.
   */
  lemma CodesIdentifyConstructors(k: Kind)
    ensures KindOfCode(Code(k)) == Some(k)
    ensures KindOfCode(UpstreamFailureCode) == None
    ensures KindOfCode(TestError().code) == None
  {
  }

  lemma CodesDistinct(k1: Kind, k2: Kind)
    ensures Code(k1) == Code(k2) <==> k1 == k2
    ensures Code(k1) != UpstreamFailureCode && Code(k1) != TestError().code
  {
    CodesIdentifyConstructors(k1);
    CodesIdentifyConstructors(k2);
  }

  const CodeKey: string := "{\"code\":"
  const MessageKey: string := ",\"message\":"

  /** `Error()`: json.Marshal of the struct, key "code" first, then "message". */
  function Render(e: ApiError): (s: string)
    ensures |s| >= 2 && s[0] == '{' && s[|s| - 1] == '}'
  {
    CodeKey + Quote(e.code) + MessageKey + Quote(e.message) + "}"
  }

  /** Reads `key` followed by a quoted string: the string and the text after it. */
  function ReadField(key: string, s: string): Option<(string, string)>
  {
    if |s| <= |key| || s[..|key|] != key || s[|key|] != '"' then None
    else DecodeString(s[|key| + 1..])
  }

  /** Reads an error body in the exact layout Render writes. */
  function Parse(s: string): Option<ApiError>
  {
    match ReadField(CodeKey, s)
    case None => None
    case Some((code, r1)) =>
      match ReadField(MessageKey, r1)
      case None => None
      case Some((message, r2)) => if r2 == "}" then Some(ApiError(code, message)) else None
  }

  /** Proof helper: after a key, a quoted value reads back and leaves the rest of the text. */
  lemma KeyedValue(key: string, v: string, rest: string)
    ensures ReadField(key, key + (Quote(v) + rest)) == Some((v, rest))
  {
    var s := key + (Quote(v) + rest);
    assert s[..|key|] == key;
    assert s[|key|..] == Quote(v) + rest;
    QuoteRoundTrip(v, rest);
    assert s[|key| + 1..] == (Quote(v) + rest)[1..];
  }

  /** Proof helper: a concatenation of five texts regrouped to the right. */
  lemma Regroup(a: string, b: string, c: string, d: string, f: string)
    ensures a + b + c + d + f == a + (b + (c + (d + f)))
  {
  }

  /** The rendering loses nothing: both fields are read back exactly, whatever Unicode text they hold. */
  lemma RenderRoundTrip(e: ApiError)
    ensures Parse(Render(e)) == Some(e)
  {
    var tail := MessageKey + (Quote(e.message) + "}");
    Regroup(CodeKey, Quote(e.code), MessageKey, Quote(e.message), "}");
    KeyedValue(CodeKey, e.code, tail);
    assert ReadField(CodeKey, Render(e)) == Some((e.code, tail));
    KeyedValue(MessageKey, e.message, "}");
    assert ReadField(MessageKey, tail) == Some((e.message, "}"));
  }

  /** The rendered object opens with the "code" key, before "message". */
  lemma RenderKeyOrder(e: ApiError)
    ensures |Render(e)| > |CodeKey| && Render(e)[..|CodeKey|] == CodeKey
  {
    assert Render(e) == CodeKey + (Quote(e.code) + MessageKey + Quote(e.message) + "}");
  }
}
