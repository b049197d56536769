/**
 * The part of net/http's ResponseWriter that the handlers rely on: the
 * first status written sticks, later writes only append to the body, and
 * http.Error writes the status and then the message plus a newline.
 * Response headers other than the status are not modelled.
 */
module Http {
  import opened Wrappers
  import opened ApiErrors

  /** What one handler step puts on the wire: a status and the body bytes after it. */
  datatype Written = Written(status: int, body: string)

  /** The observable state of a response: whether the status is committed, which one, and the body so far. */
  datatype Sent = Sent(committed: bool, status: int, body: string)

  /** A response nothing has been written to; net/http answers 200 if it stays that way. */
  const Fresh: Sent := Sent(false, 200, "")

  /** The state after WriteHeader(w.status) followed by Write(w.body). */
  function Emit(s: Sent, w: Option<Written>): (r: Sent)
    ensures w.None? ==> r == s
    ensures w.Some? ==> r.committed && r.body == s.body + w.value.body
    ensures w.Some? ==> r.status == (if s.committed then s.status else w.value.status)
  {
    match w
    case None => s
    case Some(Written(code, data)) =>
      if s.committed then s.(body := s.body + data) else Sent(true, code, s.body + data)
  }

  /** The body http.Error writes for an ApiError: its JSON rendering and a newline. */
  function ErrorPage(status: int, e: ApiError): Written
  {
    Written(status, Render(e) + "\n")
  }

  /** The body http.Error writes for a plain error message. */
  function PlainErrorPage(status: int, message: string): Written
  {
    Written(status, message + "\n")
  }

  class ResponseWriter {
    var committed: bool
    var status: int
    var body: string

    function State(): Sent
      reads this
    {
      Sent(committed, status, body)
    }

    constructor ()
      ensures State() == Fresh
    {
      committed, status, body := false, 200, "";
    }

    method WriteHeader(code: int)
      modifies this
      ensures State() == if old(committed) then old(State()) else Sent(true, code, old(body))
    {
      if !committed {
        committed, status := true, code;
      }
    }

    /** Write commits status 200 first if no status was written yet. */
    method Write(data: string)
      modifies this
      ensures State() == Sent(true, if old(committed) then old(status) else 200, old(body) + data)
    {
      if !committed {
        committed, status := true, 200;
      }
      body := body + data;
    }

    /** http.Error(w, message, code). */
    method Error(message: string, code: int)
      modifies this
      ensures State() == Emit(old(State()), Some(PlainErrorPage(code, message)))
    {
      WriteHeader(code);
      Write(message + "\n");
    }

    /** WriteHeader(code) followed by Write(data), as the handlers' success paths do. */
    method Reply(code: int, data: string)
      modifies this
      ensures State() == Emit(old(State()), Some(Written(code, data)))
    {
      WriteHeader(code);
      Write(data);
    }
  }
}
