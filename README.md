# Colour request logger for Go HTTP servers, modelled in Dafny

The system is a Go `net/http` middleware. It wraps a handler, substitutes a
response writer that remembers the status code the handler sends, runs the
handler, and then writes one colour-coded line per request to an `slog`
logger. The line shows the status, the elapsed time, the client address, the
method and the quoted path.

The model covers `middleware/logger.go`:

- `colors.dfy` (module `Colors`) holds the eight ANSI escapes and the two colour tables.
  `GetStatusCodeColor` is `StatusColor`, a range table. It is checked against
  `ClassColor(ClassOf(code))`, a table keyed on the response classes of
  section 15 of RFC 9110 (first digit of a code in 100..599).
  `getMethodColor` is `MethodColor`, checked against the map `MethodTable`.
  `getResetColor` is `ResetColor`.
- `text.dfy` (module `Text`) holds the `fmt` verbs the format string uses:
  `%Nd` is `Decimal` plus `PadLeft`, `%Ns` is `PadLeft`, `%-Ns` is `PadRight`,
  and `%#v` on a string is `Quote`, the Go literal that `strconv.Quote`
  produces. `ParseDecimal` inverts `Decimal`, and `Unquote` inverts `Quote`.
- `formatter.dfy` (module `Formatter`) holds `logDetails` (`LogDetails`) and
  `logFormatter` (`LogFormatter`). `LogFormatter` is `Layout(Render(d))`.
  `Render` turns each of the nine `Sprintf` arguments into text by its verb.
  `Layout` places the texts between the literal characters of the format string.
  `OffsetsOf` gives where each field starts in the line.
- `writer.dfy` (module `Writer`) holds `wrappedWriter` as the class
  `WrappedWriter`. It has a `statusCode` field, and its `WriteHeader` forwards
  the call and then overwrites that field. `StatusAfter` is the
  specification of the field after a list of calls: the last `WriteHeader`
  code, or the starting value.
  `Host` stands for the outside world of one request: the real
  `http.ResponseWriter` and the logger, kept as one ordered event list so
  that "the line is logged after the handler returns" can be stated.
- `middleware.dfy` (module `Middleware`) holds the handler that
  `LoggerColorMiddleware(logger)(next)` returns, as `ServeHTTP`. A downstream
  handler is modelled by the writer calls it makes for a request. The module
  also has lemmas on what an observer of the events sees, and two runs of the
  health route of `main.go`.

Three facts about the code that are easy to misread:

- The last `WriteHeader` wins, because every call overwrites `statusCode`.
  `FailedEncodingLoggedAs500` shows the effect. The health handler sends 200,
  its body write fails, its error path sends 500, and the line records 500.
  The real `net/http` writer ignores that second `WriteHeader`, so the client
  receives 200 while the line says 500.
- `%15s` right-aligns the client address.
- Codes below 100 are shown red, through the `default` branch of
  `GetStatusCodeColor`, like codes of 500 and above.

## Model

| member | source | states |
|---|---|---|
| `Colors.StatusColor` | middleware/logger.go:78-91 | `GetStatusCodeColor`: a status is always shown in one of four colours: white, green, yellow or red |
| `Colors.StatusColorBands` | middleware/logger.go:78-91 | white exactly for codes in [100,200) or [300,400); green exactly for [200,300); yellow exactly for [400,500); red exactly for codes below 100 or of 500 and above (each as an if-and-only-if, over every integer) |
| `Colors.StatusColorByClass` | middleware/logger.go:78-91 | the range table equals the RFC 9110 class table on every integer: 1xx and 3xx white, 2xx green, 4xx yellow, 5xx red, and red for any integer that is not a code in 100..599 |
| `Colors.StatusColorIsSgr` | middleware/logger.go:10-19 | no status is shown with the reset escape, and every status colour is a well-formed SGR escape |
| `Colors.ResetColor` | middleware/logger.go:114-116 | the reset colour is the SGR escape with parameter list "0" |
| `Colors.MethodColor` | middleware/logger.go:93-112 | `getMethodColor`: a method is shown in one of the seven method colours or with the reset escape |
| `Colors.MethodColorByTable` | middleware/logger.go:93-112 | the lookup maps GET to blue, POST to cyan, PUT to yellow, DELETE to red, PATCH to green, HEAD to magenta, OPTIONS to white, and every other string to reset |
| `Colors.MethodColored` | middleware/logger.go:93-112 | a method gets a colour other than reset if and only if it is one of the seven tokens |
| `Colors.MethodColorCaseSensitive` | middleware/logger.go:94-110 | the empty string and any string containing a lower-case letter (such as "get") fall back to reset |
| `Colors.MethodColorIsSgr` | middleware/logger.go:93-112 | every colour the method lookup returns is a well-formed SGR escape |
| `Text.PadLeft` | middleware/logger.go:69 | `%3d`/`%13v`/`%15s` padding: the result is max(width, length) long, ends with the text and has only blanks before it, and never truncates |
| `Text.PadRight` | middleware/logger.go:69 | `%-7s` padding: the result is max(width, length) long, starts with the text and has only blanks after it |
| `Text.Decimal` | middleware/logger.go:69 | `%d` on an int: an optional minus sign, then the shortest digits of the magnitude (its contract is `DecimalRoundTrip`, `NatDigitsCorrect` and `ThreeDigitCodes`) |
| `Text.DecimalRoundTrip` | middleware/logger.go:69 | `%d` on any integer, negative ones included, reads back as that integer |
| `Text.NatDigitsCorrect` | middleware/logger.go:69 | the digits of a natural number are decimal digits with no leading zero, and their value is the number |
| `Text.ThreeDigitCodes` | middleware/logger.go:69-70 | an integer is written as exactly three digits with no sign if and only if it is between 100 and 999 |
| `Text.Quote` | middleware/logger.go:69-74 | `%#v` on the path: the result is enclosed in double quotes |
| `Text.QuoteRoundTrip` | middleware/logger.go:69-74 | the `%#v` literal of any path reads back as that path |
| `Formatter.Render` | middleware/logger.go:65-75 | the nine `Sprintf` arguments, each rendered by its verb (what each rendered field holds is stated by `LineFields`) |
| `Formatter.Layout` | middleware/logger.go:69 | the literal text of the format string around the rendered arguments (where each piece lands is stated by `LayoutFields`) |
| `Formatter.LogFormatter` | middleware/logger.go:64-76 | `logFormatter` is `Layout` of `Render` of the record (its properties are `LineFields` and `StatusField`) |
| `Formatter.LayoutFields` | middleware/logger.go:69-75 | for any rendered arguments, the line opens with a vertical bar, a vertical bar closes the status field, one stands between the duration and the client address, another opens the method field, each argument (status colour, status, reset, duration, client address, method colour, method, reset) sits at its offset in the order of the format string, and the path literal is the rest of the line |
| `Formatter.LineFields` | middleware/logger.go:64-76 | in the formatted line of a record, the status colour table entry, the status as `%3d`, the duration as `%13v`, the client address as `%15s`, the method colour table entry and the method as `%-7s` each sit at their offsets, and the line ends with the quoted path |
| `Formatter.StatusField` | middleware/logger.go:69-70 | the `%3d` field is at least three columns: blanks and then the digits of the status, which read back as the status; it is exactly three digits with no blank if and only if the status is between 100 and 999 |
| `Writer.StatusAfter` | middleware/logger.go:34-37 | the status after a list of writer calls is the starting status or a code that some `WriteHeader` call passed |
| `Writer.StatusAfterLastWriteHeader` | middleware/logger.go:34-37 | the last `WriteHeader(c)` wins: if only header sets and body writes follow it, the status is c |
| `Writer.StatusAfterNoWriteHeader` | middleware/logger.go:44-47 | with no `WriteHeader` call, the status stays at its starting value |
| `Writer.StatusAfterAppend` | middleware/logger.go:34-37 | running two lists of calls one after the other gives the same status as running their concatenation |
| `Writer.WrappedWriter.constructor` | middleware/logger.go:44-47 | a fresh wrapped writer embeds the given writer and reports 200 |
| `Writer.WrappedWriter.WriteHeader` | middleware/logger.go:34-37 | the call reaches the embedded writer unchanged, and the recorded status becomes the code, overwriting any earlier one |
| `Writer.WrappedWriter.Write` | middleware/logger.go:29-32 | a body write is forwarded unchanged (the method is promoted from the embedded writer) and leaves the recorded status alone |
| `Writer.WrappedWriter.SetHeader` | middleware/logger.go:29-32 | a header set is forwarded unchanged (promoted from the embedded writer) and leaves the recorded status alone |
| `Writer.Host.Info` | middleware/logger.go:51-59 | `logger.Info(line)` appends exactly that line to the observable events |
| `Middleware.ServeNext` | middleware/logger.go:49 | running the handler on the wrapped writer forwards all its calls in order, and leaves the status as `StatusAfter` of those calls |
| `Middleware.ServeHTTP` | middleware/logger.go:41-60 | serving a request adds exactly the handler's calls, in order, then one logged line: the formatted record of the captured status (starting from 200) and the request |
| `Middleware.RecordOf` | middleware/logger.go:52-58 | the logged record has the request's method, URL path and remote address unchanged, the captured status and the elapsed time |
| `Middleware.OneLinePerRequest` | middleware/logger.go:49-59 | an observer sees the handler's calls exactly as made, and exactly one log line, which comes last |
| `Middleware.DefaultStatusLogged` | middleware/logger.go:44-53 | a handler that never calls `WriteHeader` is logged with status 200 |
| `Middleware.LastStatusLogged` | middleware/logger.go:34-53 | otherwise the logged status is the code of the handler's last `WriteHeader` call |
| `Middleware.LineDescribesRequest` | middleware/logger.go:51-75 | the logged line carries, each at its offset, the colour of the captured status, that status as `%3d`, the elapsed time as `%13v`, the request's remote address as `%15s`, the colour of the request method and the method as `%-7s`; the rest of the line reads back as the request path |
| `Middleware.HealthCheckLogged` | main.go:25-32 | GET /health (header, `WriteHeader(200)`, body) is logged with status field "200" in green and method field "GET" padded to seven columns in blue |
| `Middleware.FailedEncodingLoggedAs500` | main.go:27-31 | when the health handler sends 200, its body write fails and its error path then sends 500, the line records 500 in red |

## Left out

- Clock: `time.Now` and `time.Since` are left out. The elapsed time enters `ServeHTTP` as a parameter that already holds the text of the duration. Go's `time.Duration` formatting is not modelled; only the `%13v` padding is.
- `Text.Quote` follows `strconv.Quote` for ASCII: it escapes the quote and the backslash, uses the seven named control escapes, and writes other ASCII controls as `\xHH`. It passes every non-ASCII character through unchanged. Go's Unicode printability table (`\u`/`\U` escapes for non-printable runes) is left out. Paths holding invalid UTF-8 cannot be represented, because a Dafny string is a sequence of code points. `r.URL.Path` is percent-decoded and can hold any bytes; Go writes each invalid byte as `\xHH`.
- `Writer.Host` stands for both the real `http.ResponseWriter` and the `slog.Logger`, as one event list. The real writer's own behaviour is foreign code and is left out. That includes the panic on codes outside 100..999, the drop of a second `WriteHeader` (with a server-log warning), the implicit 200 on the first body write, and the headers and body it produces. `slog`'s own line prefix (time, level) is left out too.
- Only `Header().Set` is modelled among header operations. Other header calls, such as the `Header().Del("Content-Length")` that `http.Error` makes, are not, since `logger.go` never touches headers.
- `Writer.WrappedWriter.WriteHeader` forwards the call before it updates the field, as the source does. The order cannot be observed in the model, because the model's writer never fails.
- A handler is modelled as a total function from the request to its writer calls. A handler that panics is left out. In the source, such a handler skips the log line.
- Integer width: Go's `int` is 64 bits. The model uses unbounded integers. The code does no arithmetic on the status, so nothing wraps.
- `CreateMiddlewareStack` is not part of this model: its source is not among the files modelled.
- `main.go` (server bootstrap, routing, JSON encoding, the unused gin variant) is left out, except for the calls its health handler makes, which the two scenario lemmas use.
- Concurrency between requests is left out: each wrapped writer belongs to one request.
