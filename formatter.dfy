/** logFormatter and the record it formats (middleware/logger.go:21-27, 64-76). */
module Formatter {
  import opened Wrappers
  import opened Text
  import opened Colors

  /** logDetails. The duration is carried as the text Go's `%v` gives a
      time.Duration (Duration.String is not part of this model). */
  datatype LogDetails = LogDetails(
    status: int,
    duration: string,
    clientIP: string,
    httpMethod: string,
    path: string)

  /** The nine arguments of the Sprintf call in logFormatter, each rendered by
      its verb: the colours as they are (`%s`), the status by `%3d`, the duration
      by `%13v`, the client address by `%15s`, the method by `%-7s` and the path
      by `%#v`. The reset colour is passed twice and rendered once here. */
  datatype Rendered = Rendered(
    statusColor: string,
    status: string,
    resetColor: string,
    duration: string,
    clientIP: string,
    methodColor: string,
    httpMethod: string,
    path: string)

  /** The arguments logFormatter passes for a record, rendered. */
  function Render(d: LogDetails): Rendered
  {
    Rendered(
      StatusColor(d.status),
      PadLeft(Decimal(d.status), 3),
      ResetColor(),
      PadLeft(d.duration, 13),
      PadLeft(d.clientIP, 15),
      MethodColor(d.httpMethod),
      PadRight(d.httpMethod, 7),
      Quote(d.path))
  }

  /** The literal text of the format string "|%s %3d %s| %13v | %15s |%s %-7s %s %#v"
      around the rendered arguments. */
  function Layout(f: Rendered): string
  {
    "|" + f.statusColor + " " + f.status + " " + f.resetColor
    + "| " + f.duration + " | " + f.clientIP
    + " |" + f.methodColor + " " + f.httpMethod + " " + f.resetColor
    + " " + f.path
  }

  /** logFormatter */
  function LogFormatter(d: LogDetails): string
  {
    Layout(Render(d))
  }

  /** Where each rendered argument starts in a line (reset1 and reset2 are the
      two places the reset colour is written). */
  datatype Offsets = Offsets(
    statusColor: nat, status: nat, reset1: nat, duration: nat, clientIP: nat,
    methodColor: nat, httpMethod: nat, reset2: nat, path: nat)

  function OffsetsOf(f: Rendered): (o: Offsets)
  {
    var statusColor := 1;
    var status := statusColor + |f.statusColor| + 1;
    var reset1 := status + |f.status| + 1;
    var duration := reset1 + |f.resetColor| + 2;
    var clientIP := duration + |f.duration| + 3;
    var methodColor := clientIP + |f.clientIP| + 2;
    var httpMethod := methodColor + |f.methodColor| + 1;
    var reset2 := httpMethod + |f.httpMethod| + 1;
    var path := reset2 + |f.resetColor| + 1;
    Offsets(statusColor, status, reset1, duration, clientIP, methodColor, httpMethod, reset2, path)
  }

  /** `piece` occurs in `line` starting at index k. */
  predicate At(line: string, k: nat, piece: string) {
    k + |piece| <= |line| && line[k..k + |piece|] == piece
  }

  /** Every rendered argument sits at its offset in the line, between the
      literal text of the format string: the line opens with "|", a "|" closes
      the status field, another opens the method field, and the path is last. */
  lemma LayoutFields(f: Rendered)
    ensures var line := Layout(f);
            var o := OffsetsOf(f);
            && |line| == o.path + |f.path|
            && line[0] == '|'
            && At(line, o.statusColor, f.statusColor)
            && At(line, o.status, f.status)
            && At(line, o.reset1, f.resetColor)
            && line[o.duration - 2] == '|'
            && At(line, o.duration, f.duration)
            && line[o.clientIP - 2] == '|'
            && At(line, o.clientIP, f.clientIP)
            && line[o.methodColor - 1] == '|'
            && At(line, o.methodColor, f.methodColor)
            && At(line, o.httpMethod, f.httpMethod)
            && At(line, o.reset2, f.resetColor)
            && At(line, o.path, f.path) && line[o.path..] == f.path
  {
    var line := Layout(f);
    var l1 := "|";
    var l2 := l1 + f.statusColor;
    var l3 := l2 + " ";
    var l4 := l3 + f.status;
    var l5 := l4 + " ";
    var l6 := l5 + f.resetColor;
    var l7 := l6 + "| ";
    var l8 := l7 + f.duration;
    var l9 := l8 + " | ";
    var l10 := l9 + f.clientIP;
    var l11 := l10 + " |";
    var l12 := l11 + f.methodColor;
    var l13 := l12 + " ";
    var l14 := l13 + f.httpMethod;
    var l15 := l14 + " ";
    var l16 := l15 + f.resetColor;
    var l17 := l16 + " ";
    assert line == l17 + f.path;
    Peel(line, l17, f.path);
    Peel(line, l16, " ");
    Peel(line, l15, f.resetColor);
    Peel(line, l14, " ");
    Peel(line, l13, f.httpMethod);
    Peel(line, l12, " ");
    Peel(line, l11, f.methodColor);
    Peel(line, l10, " |");
    Peel(line, l9, f.clientIP);
    Peel(line, l8, " | ");
    Peel(line, l7, f.duration);
    Peel(line, l6, "| ");
    Peel(line, l5, f.resetColor);
    Peel(line, l4, " ");
    Peel(line, l3, f.status);
    Peel(line, l2, " ");
    Peel(line, l1, f.statusColor);
    var o := OffsetsOf(f);
    assert o.statusColor == |l1| && o.status == |l3| && o.reset1 == |l5|;
    assert o.duration == |l7| && o.clientIP == |l9| && o.methodColor == |l11|;
    assert o.httpMethod == |l13| && o.reset2 == |l15| && o.path == |l17|;
    assert line[|l6|] == '|';
    assert line[|l9| - 2] == '|';
    assert line[|l11| - 1] == '|';
  }

  /** If a line starts with x + y, it starts with x, and y follows x. */
  lemma Peel(line: string, x: string, y: string)
    requires |x + y| <= |line| && line[..|x + y|] == x + y
    ensures line[..|x|] == x
    ensures At(line, |x|, y)
  {
    assert line[..|x|] == (x + y)[..|x|];
    assert line[|x|..|x| + |y|] == (x + y)[|x|..];
  }

  /** The `%3d` field: at least three columns, blanks then the digits of the
      status, which read back as the status; a code from 100 to 999 fills the
      field exactly, with no blank. */
  lemma StatusField(status: int)
    ensures var field := PadLeft(Decimal(status), 3);
            var digits := Decimal(status);
            && |field| >= 3
            && ParseDecimal(field[|field| - |digits|..]) == Some(status)
            && (forall i :: 0 <= i < |field| - |digits| ==> field[i] == ' ')
            && (100 <= status < 1000 <==> (|field| == 3 && AllDigits(field)))
  {
    var digits := Decimal(status);
    var field := PadLeft(digits, 3);
    DecimalRoundTrip(status);
    ThreeDigitCodes(status);
    if |field| == 3 && AllDigits(field) && |digits| < 3 {
      assert field[0] == ' ';
    }
  }

  /** Each field of a formatted record at its offset: the status colour, the
      status in `%3d`, the duration in `%13v`, the client address in `%15s`, the
      method colour, the method in `%-7s`, and last the quoted path. */
  lemma LineFields(d: LogDetails)
    ensures var line := LogFormatter(d);
            var o := OffsetsOf(Render(d));
            && At(line, o.statusColor, StatusColor(d.status))
            && At(line, o.status, PadLeft(Decimal(d.status), 3))
            && At(line, o.duration, PadLeft(d.duration, 13))
            && At(line, o.clientIP, PadLeft(d.clientIP, 15))
            && At(line, o.methodColor, MethodColor(d.httpMethod))
            && At(line, o.httpMethod, PadRight(d.httpMethod, 7))
            && line[o.path..] == Quote(d.path)
  {
    LayoutFields(Render(d));
  }
}
