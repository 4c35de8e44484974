/** The three fmt verbs logFormatter uses, rendered over Unicode code points
    (Go counts runes for a width, and a Dafny char is one code point):
    - `%Nd` on an int: Decimal, right-aligned by PadLeft;
    - `%Ns` and `%-Ns` on a string: PadLeft and PadRight;
    - `%#v` on a string: Quote, the Go string literal of strconv.Quote.
    Each rendering has a partner: ParseDecimal and Unquote invert Decimal and Quote. */
module Text {
  import opened Wrappers

  // ---------------------------------------------------------------- padding

  /** A run of n blanks. */
  function Spaces(n: nat): (r: string)
    ensures |r| == n
  {
    seq(n, _ => ' ')
  }

  /** `%<width>s`: s right-aligned in a field of at least `width` characters.
      A longer s is never truncated. */
  function PadLeft(s: string, width: nat): (r: string)
    ensures |r| == if |s| < width then width else |s|
    ensures r[|r| - |s|..] == s
    ensures forall i :: 0 <= i < |r| - |s| ==> r[i] == ' '
  {
    if |s| < width then Spaces(width - |s|) + s else s
  }

  /** `%-<width>s`: s left-aligned in a field of at least `width` characters. */
  function PadRight(s: string, width: nat): (r: string)
    ensures |r| == if |s| < width then width else |s|
    ensures r[..|s|] == s
    ensures forall i :: |s| <= i < |r| ==> r[i] == ' '
  {
    if |s| < width then s + Spaces(width - |s|) else s
  }

  // ---------------------------------------------------------------- decimals

  predicate IsDigit(c: char) {
    '0' <= c <= '9'
  }

  predicate AllDigits(s: string) {
    forall i :: 0 <= i < |s| ==> IsDigit(s[i])
  }

  function DigitChar(d: nat): (c: char)
    requires d < 10
    ensures IsDigit(c) && c as int - '0' as int == d
  {
    ('0' as int + d) as char
  }

  /** The value of a string of decimal digits, most significant first. */
  function DigitsValue(s: string): nat
    requires AllDigits(s)
  {
    if s == [] then 0
    else DigitsValue(s[..|s| - 1]) * 10 + (s[|s| - 1] as int - '0' as int)
  }

  /** The shortest decimal numeral of n. */
  function NatDigits(n: nat): (r: string)
    decreases n
  {
    if n < 10 then [DigitChar(n)] else NatDigits(n / 10) + [DigitChar(n % 10)]
  }

  /** `%d` on an int: an optional minus sign, then the digits of the magnitude. */
  function Decimal(n: int): (r: string)
  {
    if n < 0 then "-" + NatDigits(-n) else NatDigits(n)
  }

  /** Reads back what Decimal writes: a minus sign followed by digits, or digits. */
  function ParseDecimal(s: string): Option<int>
  {
    if |s| > 1 && s[0] == '-' && AllDigits(s[1..]) then Some(-(DigitsValue(s[1..]) as int))
    else if |s| > 0 && AllDigits(s) then Some(DigitsValue(s))
    else None
  }

  /** The numeral of n is made of digits, has no leading zero and has value n. */
  lemma {:induction false} NatDigitsCorrect(n: nat)
    ensures |NatDigits(n)| > 0 && AllDigits(NatDigits(n))
    ensures DigitsValue(NatDigits(n)) == n
    ensures n > 0 ==> NatDigits(n)[0] != '0'
  {
    if n >= 10 {
      NatDigitsCorrect(n / 10);
      var r := NatDigits(n);
      assert r[..|r| - 1] == NatDigits(n / 10);
    }
  }

  /** ParseDecimal inverts Decimal on every integer. */
  lemma DecimalRoundTrip(n: int)
    ensures ParseDecimal(Decimal(n)) == Some(n)
  {
    if n < 0 {
      NatDigitsCorrect(-n);
      assert Decimal(n)[1..] == NatDigits(-n);
    } else {
      NatDigitsCorrect(n);
      assert Decimal(n)[0] != '-';
    }
  }

  /** Exactly the codes from 100 to 999 are written with three digits and no
      sign, so those are the statuses that fill the `%3d` field of a log line
      with no padding. */
  lemma ThreeDigitCodes(n: int)
    ensures (100 <= n < 1000) <==> (|Decimal(n)| == 3 && AllDigits(Decimal(n)))
  {
    if 100 <= n < 1000 {
      DecimalDigits(n);
    } else if n < 0 {
      assert !IsDigit(Decimal(n)[0]);
    } else {
      NatDigitsLength(n);
    }
  }

  /** Numerals below 100 have at most two digits, numerals of 1000 and more at least four. */
  lemma {:induction false} NatDigitsLength(n: nat)
    ensures n < 100 ==> |NatDigits(n)| <= 2
    ensures n >= 100 ==> |NatDigits(n)| >= 3
    ensures n >= 1000 ==> |NatDigits(n)| >= 4
  {
    if n >= 10 {
      NatDigitsLength(n / 10);
    }
  }

  /** The three digits of such a code, most significant first. */
  lemma DecimalDigits(n: int)
    requires 100 <= n < 1000
    ensures Decimal(n) == [DigitChar(n / 100), DigitChar(n / 10 % 10), DigitChar(n % 10)]
  {
    assert NatDigits(n) == NatDigits(n / 10) + [DigitChar(n % 10)];
    assert NatDigits(n / 10) == NatDigits(n / 100) + [DigitChar(n / 10 % 10)];
  }

  // ---------------------------------------------------------------- quoting

  function HexDigit(d: nat): (c: char)
    requires d < 16
  {
    if d < 10 then ('0' as int + d) as char else ('a' as int + d - 10) as char
  }

  function HexValue(c: char): Option<nat>
  {
    if '0' <= c <= '9' then Some(c as int - '0' as int)
    else if 'a' <= c <= 'f' then Some(c as int - 'a' as int + 10)
    else None
  }

  /** Characters strconv.Quote writes as `\xHH`: controls with no named escape. */
  predicate IsHexEscaped(c: char) {
    (c < ' ' || c == '\U{7F}') && c !in {'\U{7}', '\U{8}', '\U{C}', '\n', '\r', '\t', '\U{B}'}
  }

  /** The escape of one character in a Go string literal: backslash before the
      quote and the backslash, the seven named control escapes, `\xHH` (lower-case
      hex) for the other ASCII controls, the character itself otherwise. */
  function EscapeChar(c: char): (r: string)
  {
    if c == '"' || c == '\\' then ['\\', c]
    else if c == '\U{7}' then "\\a"
    else if c == '\U{8}' then "\\b"
    else if c == '\U{C}' then "\\f"
    else if c == '\n' then "\\n"
    else if c == '\r' then "\\r"
    else if c == '\t' then "\\t"
    else if c == '\U{B}' then "\\v"
    else if IsHexEscaped(c) then ['\\', 'x', HexDigit(c as int / 16), HexDigit(c as int % 16)]
    else [c]
  }

  function Escape(s: string): string
  {
    if s == [] then [] else EscapeChar(s[0]) + Escape(s[1..])
  }

  /** `%#v` on a string: the double-quoted Go literal of s. */
  function Quote(s: string): (r: string)
    ensures |r| >= 2 && r[0] == '"' && r[|r| - 1] == '"'
  {
    "\"" + Escape(s) + "\""
  }

  function Prepend(c: char, o: Option<string>): Option<string>
  {
    match o
    case None => None
    case Some(t) => Some([c] + t)
  }

  /** The character a one-letter escape `\<e>` stands for, if any. */
  function NamedEscape(e: char): Option<char>
  {
    match e
    case '"' => Some('"')
    case '\\' => Some('\\')
    case 'a' => Some('\U{7}')
    case 'b' => Some('\U{8}')
    case 'f' => Some('\U{C}')
    case 'n' => Some('\n')
    case 'r' => Some('\r')
    case 't' => Some('\t')
    case 'v' => Some('\U{B}')
    case _ => None
  }

  /** Decodes the body of a Go string literal; None on a bare quote or a bad escape. */
  function Unescape(s: string): Option<string>
    decreases |s|
  {
    if s == [] then Some([])
    else if s[0] == '"' then None
    else if s[0] != '\\' then Prepend(s[0], Unescape(s[1..]))
    else if |s| < 2 then None
    else if s[1] == 'x' then
      if |s| < 4 then None
      else match (HexValue(s[2]), HexValue(s[3]))
        case (Some(hi), Some(lo)) => Prepend((hi * 16 + lo) as char, Unescape(s[4..]))
        case _ => None
    else match NamedEscape(s[1])
      case Some(c) => Prepend(c, Unescape(s[2..]))
      case None => None
  }

  /** Reads back a double-quoted Go string literal. */
  function Unquote(s: string): Option<string>
  {
    if |s| >= 2 && s[0] == '"' && s[|s| - 1] == '"' then Unescape(s[1..|s| - 1]) else None
  }

  lemma HexDigitValue(d: nat)
    requires d < 16
    ensures HexValue(HexDigit(d)) == Some(d)
  {
  }

  /** Decoding undoes the escape of one character, whatever follows it. */
  lemma UnescapeEscapeChar(c: char, rest: string)
    ensures Unescape(EscapeChar(c) + rest) == Prepend(c, Unescape(rest))
  {
    var e := EscapeChar(c);
    if IsHexEscaped(c) {
      var hi, lo := c as int / 16, c as int % 16;
      HexDigitValue(hi);
      HexDigitValue(lo);
      assert (e + rest)[4..] == rest;
      assert (hi * 16 + lo) as char == c;
    } else if |e| == 2 {
      assert (e + rest)[2..] == rest;
    } else {
      assert (e + rest)[1..] == rest;
    }
  }

  lemma {:induction false} UnescapeEscape(s: string)
    ensures Unescape(Escape(s)) == Some(s)
  {
    if s != [] {
      UnescapeEscapeChar(s[0], Escape(s[1..]));
      UnescapeEscape(s[1..]);
      assert [s[0]] + s[1..] == s;
    }
  }

  /** Unquote inverts Quote: the quoted path in a log line determines the path. */
  lemma QuoteRoundTrip(s: string)
    ensures Unquote(Quote(s)) == Some(s)
  {
    var q := Quote(s);
    assert q[1..|q| - 1] == Escape(s);
    UnescapeEscape(s);
  }
}
