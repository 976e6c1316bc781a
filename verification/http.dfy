/**
 * What a Go handler writes to its `http.ResponseWriter`, and the response
 * that actually reaches the client.  The first final status written counts:
 * a later `WriteHeader` does not change the response (Go only logs a
 * "superfluous response.WriteHeader call" warning), and a body write with no
 * final status before it commits 200.  An informational status (1xx other
 * than 101) is sent ahead and does not fix the final one.  Headers are not
 * modelled.
 */
module Http {
  import opened Records

  const StatusOK := 200
  const StatusBadRequest := 400
  const StatusNotFound := 404
  const StatusUnprocessableEntity := 422
  const StatusInternalServerError := 500

  /** A piece of response body: plain text, or one JSON-encoded report. */
  datatype Chunk = Plain(text: string) | Json(value: Temperatures)

  /** One call on the response writer. */
  datatype Action = WriteHeader(code: int) | Write(chunk: Chunk)

  /** The response the client receives. */
  datatype Response = Response(status: int, body: seq<Chunk>)

  /** `http.Error(w, msg, code)`: the status, then the message and a newline. */
  function HttpError(msg: string, code: int): seq<Action>
  {
    [WriteHeader(code), Write(Plain(msg + "\n"))]
  }

  /** The body chunks of a log, in the order they were written. */
  function BodyOf(log: seq<Action>): (body: seq<Chunk>)
    ensures |body| <= |log|
    ensures forall c :: c in body <==> Write(c) in log
  {
    if |log| == 0 then []
    else if log[0].Write? then [log[0].chunk] + BodyOf(log[1..])
    else BodyOf(log[1..])
  }

  /** A 1xx status other than 101 Switching Protocols: sent ahead, it does not end the header. */
  predicate Informational(code: int)
  {
    100 <= code <= 199 && code != 101
  }

  /** The final status of a log: the first non-informational header before any write, else 200. */
  function StatusOf(log: seq<Action>): (status: int)
    ensures !Informational(status)
  {
    if |log| == 0 then StatusOK
    else match log[0]
      case Write(_) => StatusOK
      case WriteHeader(code) => if Informational(code) then StatusOf(log[1..]) else code
  }

  /** The response a log produces. */
  function Commit(log: seq<Action>): (r: Response)
    ensures |log| > 0 && log[0].WriteHeader? && !Informational(log[0].code) ==> r.status == log[0].code
    ensures |log| == 0 || log[0].Write? ==> r.status == StatusOK
    ensures |log| > 0 && log[0].WriteHeader? && Informational(log[0].code) ==> r.status == Commit(log[1..]).status
    ensures !Informational(r.status)
    ensures forall c :: c in r.body <==> Write(c) in log
    ensures |log| == 0 ==> r.body == []
    ensures |log| > 0 ==> r.body == (if log[0].Write? then [log[0].chunk] else []) + Commit(log[1..]).body
  {
    Response(StatusOf(log), BodyOf(log))
  }

  lemma {:induction false} BodyOfAppend(a: seq<Action>, b: seq<Action>)
    ensures BodyOf(a + b) == BodyOf(a) + BodyOf(b)
    decreases |a|
  {
    if |a| == 0 {
      assert a + b == b;
    } else {
      assert (a + b)[1..] == a[1..] + b;
      BodyOfAppend(a[1..], b);
    }
  }

  /** Nothing written after a first action that is not informational can change the status. */
  lemma FirstActionFixesStatus(a: seq<Action>, b: seq<Action>)
    requires |a| > 0
    requires !(a[0].WriteHeader? && Informational(a[0].code))
    ensures Commit(a + b).status == Commit(a).status
  {
  }

  /**
   * `http.Error(w, msg, code)` followed by any number of `WriteHeader` calls
   * sends `code` with the message: the later statuses are superfluous.
   */
  lemma ErrorThenHeaders(msg: string, code: int, later: seq<Action>)
    requires !Informational(code)
    requires forall i :: 0 <= i < |later| ==> later[i].WriteHeader?
    ensures Commit(HttpError(msg, code) + later) == Response(code, [Plain(msg + "\n")])
  {
    FirstActionFixesStatus(HttpError(msg, code), later);
    BodyOfAppend(HttpError(msg, code), later);
    NoWritesNoBody(later);
    assert BodyOf(HttpError(msg, code)) == [Plain(msg + "\n")];
  }

  /** The common Go idiom `http.Error(w, msg, code); w.WriteHeader(later)` sends `code`. */
  lemma ErrorThenHeader(msg: string, code: int, later: int)
    requires !Informational(code)
    ensures Commit(HttpError(msg, code) + [WriteHeader(later)]) == Response(code, [Plain(msg + "\n")])
  {
  }

  lemma {:induction false} NoWritesNoBody(log: seq<Action>)
    requires forall i :: 0 <= i < |log| ==> log[i].WriteHeader?
    ensures BodyOf(log) == []
    decreases |log|
  {
    if |log| > 0 {
      NoWritesNoBody(log[1..]);
    }
  }

  /** An informational status does not fix the response: a later final status still counts. */
  lemma InformationalThenFinal(msg: string)
    ensures Commit([WriteHeader(103)] + HttpError(msg, StatusBadRequest)).status == StatusBadRequest
  {
  }
}
