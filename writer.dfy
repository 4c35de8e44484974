/** wrappedWriter (middleware/logger.go:29-37): a response writer that forwards
    every call to the writer it embeds and remembers the last status code passed
    to WriteHeader. */
module Writer {

  newtype byte = x: int | 0 <= x < 256

  /** http.StatusOK, the status a wrapped writer reports until WriteHeader is called. */
  const StatusOK: int := 200

  /** The calls a handler can make on an http.ResponseWriter: setting a header
      through Header().Set, sending the status line, and writing body bytes. */
  datatype WriterCall =
    | SetHeader(key: string, value: string)
    | WriteHeader(code: int)
    | Write(body: seq<byte>)

  /** What the outside world observes: a call reaching the real response writer,
      or a line reaching the logger. */
  datatype Event = Sent(call: WriterCall) | Logged(line: string)

  /** The world outside the middleware for one request: the http.ResponseWriter
      it is given and the slog.Logger it was built with, recorded as one ordered
      list of events so that the order of writes and log lines is visible. */
  class Host {
    var events: seq<Event>

    constructor()
      ensures events == []
    {
      events := [];
    }

    /** A call on the real response writer. */
    method Send(call: WriterCall)
      modifies this
      ensures events == old(events) + [Sent(call)]
    {
      events := events + [Sent(call)];
    }

    /** logger.Info(line). */
    method Info(line: string)
      modifies this
      ensures events == old(events) + [Logged(line)]
    {
      events := events + [Logged(line)];
    }
  }

  /** The status code a wrapped writer holds after the given calls, starting from
      `initial`: the code of the last WriteHeader call, or `initial` if there is
      none. The result is always `initial` or a code some call passed. */
  function StatusAfter(initial: int, calls: seq<WriterCall>): (r: int)
    ensures r == initial || exists j :: 0 <= j < |calls| && calls[j] == WriteHeader(r)
  {
    if calls == [] then initial
    else match calls[|calls| - 1]
      case WriteHeader(code) => code
      case _ => StatusAfter(initial, calls[..|calls| - 1])
  }

  /** The status a fresh wrapped writer reports after the given calls. */
  function CapturedStatus(calls: seq<WriterCall>): int
  {
    StatusAfter(StatusOK, calls)
  }

  /** The events the calls produce when forwarded, in the same order. */
  function Sends(calls: seq<WriterCall>): (r: seq<Event>)
    ensures |r| == |calls|
  {
    if calls == [] then [] else Sends(calls[..|calls| - 1]) + [Sent(calls[|calls| - 1])]
  }

  /** The last WriteHeader wins: once WriteHeader(c) is followed only by other
      kinds of call (header sets, body writes), the status is c. */
  lemma {:induction false} StatusAfterLastWriteHeader(initial: int, calls: seq<WriterCall>, k: nat)
    requires k < |calls| && calls[k].WriteHeader?
    requires forall j :: k < j < |calls| ==> !calls[j].WriteHeader?
    ensures StatusAfter(initial, calls) == calls[k].code
  {
    if k < |calls| - 1 {
      StatusAfterLastWriteHeader(initial, calls[..|calls| - 1], k);
    }
  }

  /** Without any WriteHeader call the status stays where it started, so a
      handler that only writes a body is logged as 200. */
  lemma {:induction false} StatusAfterNoWriteHeader(initial: int, calls: seq<WriterCall>)
    requires forall j :: 0 <= j < |calls| ==> !calls[j].WriteHeader?
    ensures StatusAfter(initial, calls) == initial
  {
    if calls != [] {
      StatusAfterNoWriteHeader(initial, calls[..|calls| - 1]);
    }
  }

  /** Running two lists of calls one after the other is running their concatenation. */
  lemma {:induction false} StatusAfterAppend(initial: int, a: seq<WriterCall>, b: seq<WriterCall>)
    ensures StatusAfter(initial, a + b) == StatusAfter(StatusAfter(initial, a), b)
  {
    if b == [] {
      assert a + b == a;
    } else {
      assert (a + b)[..|a + b| - 1] == a + b[..|b| - 1];
      StatusAfterAppend(initial, a, b[..|b| - 1]);
    }
  }

  class WrappedWriter {
    /** The embedded http.ResponseWriter. */
    const responseWriter: Host
    var statusCode: int

    /** &wrappedWriter{ResponseWriter: w, statusCode: http.StatusOK} */
    constructor(w: Host)
      ensures responseWriter == w && statusCode == StatusOK
    {
      responseWriter := w;
      statusCode := StatusOK;
    }

    /** Forwards the call, then records the code; nothing guards against a
        second call, which overwrites the first. */
    method WriteHeader(code: int)
      modifies this, responseWriter
      ensures statusCode == code
      ensures responseWriter.events == old(responseWriter.events) + [Sent(WriterCall.WriteHeader(code))]
    {
      responseWriter.Send(WriterCall.WriteHeader(code));
      statusCode := code;
    }

    /** Write, promoted from the embedded writer: forwarded, status untouched. */
    method Write(body: seq<byte>)
      modifies responseWriter
      ensures responseWriter.events == old(responseWriter.events) + [Sent(WriterCall.Write(body))]
    {
      responseWriter.Send(WriterCall.Write(body));
    }

    /** Header().Set, promoted from the embedded writer: forwarded, status untouched. */
    method SetHeader(key: string, value: string)
      modifies responseWriter
      ensures responseWriter.events == old(responseWriter.events) + [Sent(WriterCall.SetHeader(key, value))]
    {
      responseWriter.Send(WriterCall.SetHeader(key, value));
    }
  }
}
