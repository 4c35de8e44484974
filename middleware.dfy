/** LoggerColorMiddleware (middleware/logger.go:39-62): the handler it wraps
    around `next` serves the request through a wrapped writer and then logs one
    formatted line built from the captured status and the request. */
module Middleware {
  import opened Wrappers
  import opened Text
  import opened Colors
  import opened Formatter
  import opened Writer

  /** The parts of an *http.Request the middleware reads: Method, URL.Path and
      RemoteAddr. */
  datatype Request = Request(httpMethod: string, path: string, remoteAddr: string)

  /** A downstream handler, seen through what it does to its response writer:
      the calls it makes, in order, for a given request. */
  type Handler = Request -> seq<WriterCall>

  /** The record logged for a request served with the given captured status;
      `elapsed` is the text of time.Since(start). */
  function RecordOf(r: Request, status: int, elapsed: string): (d: LogDetails)
    ensures d.httpMethod == r.httpMethod && d.path == r.path && d.clientIP == r.remoteAddr
    ensures d.status == status && d.duration == elapsed
  {
    LogDetails(status, elapsed, r.remoteAddr, r.httpMethod, r.path)
  }

  /** The one line the middleware logs for a request served by `next`. */
  function LogLine(next: Handler, r: Request, elapsed: string): string
  {
    LogFormatter(RecordOf(r, CapturedStatus(next(r)), elapsed))
  }

  /** next.ServeHTTP(wrapped, r): the handler makes its calls on the wrapped
      writer, one after another. */
  method ServeNext(next: Handler, wrapped: WrappedWriter, r: Request)
    modifies wrapped, wrapped.responseWriter
    ensures wrapped.statusCode == StatusAfter(old(wrapped.statusCode), next(r))
    ensures wrapped.responseWriter.events == old(wrapped.responseWriter.events) + Sends(next(r))
  {
    var calls := next(r);
    var i := 0;
    while i < |calls|
      invariant 0 <= i <= |calls|
      invariant wrapped.statusCode == StatusAfter(old(wrapped.statusCode), calls[..i])
      invariant wrapped.responseWriter.events == old(wrapped.responseWriter.events) + Sends(calls[..i])
    {
      assert calls[..i + 1][..i] == calls[..i];
      match calls[i] {
        case SetHeader(key, value) => wrapped.SetHeader(key, value);
        case WriteHeader(code) => wrapped.WriteHeader(code);
        case Write(body) => wrapped.Write(body);
      }
      i := i + 1;
    }
    assert calls[..i] == calls;
  }

  /** The handler LoggerColorMiddleware(logger)(next) serving request r on a
      writer, with `host` standing for both that writer and the logger. Every call
      of `next` reaches the writer unchanged and in order; after `next` returns,
      exactly one line is logged, built from the captured status and the request. */
  method ServeHTTP(host: Host, next: Handler, r: Request, elapsed: string)
    modifies host
    ensures host.events == old(host.events) + Sends(next(r)) + [Logged(LogLine(next, r, elapsed))]
  {
    var wrapped := new WrappedWriter(host);
    ServeNext(next, wrapped, r);
    var line := LogFormatter(RecordOf(r, wrapped.statusCode, elapsed));
    host.Info(line);
  }

  // ---------------------------------------------------------------- what an observer sees

  /** The lines that reached the logger, in order. */
  function LoggedLines(events: seq<Event>): seq<string>
  {
    if events == [] then []
    else
      var rest := LoggedLines(events[..|events| - 1]);
      match events[|events| - 1]
      case Logged(line) => rest + [line]
      case Sent(_) => rest
  }

  /** The calls that reached the response writer, in order. */
  function ForwardedCalls(events: seq<Event>): seq<WriterCall>
  {
    if events == [] then []
    else
      var rest := ForwardedCalls(events[..|events| - 1]);
      match events[|events| - 1]
      case Logged(_) => rest
      case Sent(call) => rest + [call]
  }

  lemma {:induction false} SendsObserved(calls: seq<WriterCall>)
    ensures LoggedLines(Sends(calls)) == []
    ensures ForwardedCalls(Sends(calls)) == calls
  {
    if calls != [] {
      var n := |calls|;
      assert Sends(calls)[..n - 1] == Sends(calls[..n - 1]);
      SendsObserved(calls[..n - 1]);
      assert calls[..n - 1] + [calls[n - 1]] == calls;
    }
  }

  /** What ServeHTTP adds to the events, seen from outside: the handler's calls
      exactly as it made them, exactly one log line, and that line last. */
  lemma OneLinePerRequest(next: Handler, r: Request, elapsed: string)
    ensures var added := Sends(next(r)) + [Logged(LogLine(next, r, elapsed))];
            && ForwardedCalls(added) == next(r)
            && LoggedLines(added) == [LogLine(next, r, elapsed)]
            && added[|added| - 1].Logged?
  {
    var added := Sends(next(r)) + [Logged(LogLine(next, r, elapsed))];
    assert added[..|added| - 1] == Sends(next(r));
    SendsObserved(next(r));
  }

  /** The logged status is 200 when the handler never calls WriteHeader. */
  lemma DefaultStatusLogged(next: Handler, r: Request)
    requires forall j :: 0 <= j < |next(r)| ==> !next(r)[j].WriteHeader?
    ensures CapturedStatus(next(r)) == 200
  {
    StatusAfterNoWriteHeader(StatusOK, next(r));
  }

  /** Otherwise the logged status is the code of the handler's last WriteHeader. */
  lemma LastStatusLogged(next: Handler, r: Request, k: nat)
    requires k < |next(r)| && next(r)[k].WriteHeader?
    requires forall j :: k < j < |next(r)| ==> !next(r)[j].WriteHeader?
    ensures CapturedStatus(next(r)) == next(r)[k].code
  {
    StatusAfterLastWriteHeader(StatusOK, next(r), k);
  }

  /** The logged line describes the request: each field of the line, cut at
      its offset, is the colour of the captured status, that status in `%3d`, the
      elapsed time in `%13v`, the remote address in `%15s`, the colour of the
      method, the method in `%-7s`, and last the quoted path, which reads back as
      the request path. */
  lemma LineDescribesRequest(next: Handler, r: Request, elapsed: string)
    ensures var status := CapturedStatus(next(r));
            var line := LogLine(next, r, elapsed);
            var o := OffsetsOf(Render(RecordOf(r, status, elapsed)));
            && At(line, o.statusColor, StatusColor(status))
            && At(line, o.status, PadLeft(Decimal(status), 3))
            && At(line, o.duration, PadLeft(elapsed, 13))
            && At(line, o.clientIP, PadLeft(r.remoteAddr, 15))
            && At(line, o.methodColor, MethodColor(r.httpMethod))
            && At(line, o.httpMethod, PadRight(r.httpMethod, 7))
            && Unquote(line[o.path..]) == Some(r.path)
  {
    LineFields(RecordOf(r, CapturedStatus(next(r)), elapsed));
    QuoteRoundTrip(r.path);
  }

  // ---------------------------------------------------------------- the health route of main.go

  /** The calls of the health handler (main.go:25-32) when the JSON encoding of
      its body succeeds: a Content-Type header, WriteHeader(200), the body. */
  function HealthHandler(body: seq<byte>): Handler
  {
    (r: Request) => [SetHeader("Content-Type", "application/json"), WriterCall.WriteHeader(200), WriterCall.Write(body)]
  }

  /** The same handler when writing the encoded body fails (encoding a map of
      strings cannot fail otherwise, so the failure is the body's one Write):
      http.Error then sets its two headers, calls WriteHeader(500) and writes
      the error text. */
  function FailingHealthHandler(body: seq<byte>, message: seq<byte>): Handler
  {
    (r: Request) => [SetHeader("Content-Type", "application/json"), WriterCall.WriteHeader(200),
                     WriterCall.Write(body),
                     SetHeader("Content-Type", "text/plain; charset=utf-8"),
                     SetHeader("X-Content-Type-Options", "nosniff"),
                     WriterCall.WriteHeader(500), WriterCall.Write(message)]
  }

  /** GET /health is logged with status 200: the status field is "200" in
      green, and the method field is "GET" padded to seven columns, in blue. */
  lemma HealthCheckLogged(body: seq<byte>, r: Request, elapsed: string)
    requires r.httpMethod == "GET"
    ensures CapturedStatus(HealthHandler(body)(r)) == 200
    ensures var line := LogLine(HealthHandler(body), r, elapsed);
            var o := OffsetsOf(Render(RecordOf(r, 200, elapsed)));
            && At(line, o.statusColor, Green)
            && At(line, o.status, "200")
            && At(line, o.methodColor, Blue)
            && At(line, o.httpMethod, "GET    ")
  {
    var next := HealthHandler(body);
    assert CapturedStatus(next(r)) == 200 by {
      StatusAfterLastWriteHeader(StatusOK, next(r), 1);
    }
    LineDescribesRequest(next, r, elapsed);
    HealthFields();
  }

  /** The fields of a GET request answered with 200, rendered. */
  lemma HealthFields()
    ensures StatusColor(200) == Green && PadLeft(Decimal(200), 3) == "200"
    ensures MethodColor("GET") == Blue && PadRight("GET", 7) == "GET    "
  {
    DecimalDigits(200);
    assert Spaces(4) == "    ";
  }

  /** When the handler sends 200, fails writing its body and then sends 500,
      the line records 500: the wrapped writer keeps the last code passed to
      WriteHeader, not the first. */
  lemma FailedEncodingLoggedAs500(body: seq<byte>, message: seq<byte>, r: Request)
    ensures var calls := FailingHealthHandler(body, message)(r);
            && calls[1] == WriterCall.WriteHeader(200)
            && calls[2] == WriterCall.Write(body)
            && CapturedStatus(calls) == 500
            && StatusColor(CapturedStatus(calls)) == Red
  {
    StatusAfterLastWriteHeader(StatusOK, FailingHealthHandler(body, message)(r), 5);
  }
}
