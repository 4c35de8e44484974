/** The colour tables of the logger (middleware/logger.go:10-19, 78-116).
    A colour is an ANSI "select graphic rendition" escape, ESC '[' params 'm'. */
module Colors {
  import opened Wrappers

  const Green: string := "\U{1B}[97;42m"
  const White: string := "\U{1B}[90;47m"
  const Yellow: string := "\U{1B}[90;43m"
  const Red: string := "\U{1B}[97;41m"
  const Blue: string := "\U{1B}[97;44m"
  const Magenta: string := "\U{1B}[97;45m"
  const Cyan: string := "\U{1B}[97;46m"
  const Reset: string := "\U{1B}[0m"

  /** A well-formed SGR escape whose parameter list is `params`. */
  predicate IsSgr(s: string, params: string) {
    && |s| == |params| + 3
    && s[0] == '\U{1B}' && s[1] == '[' && s[|s| - 1] == 'm'
    && s[2..|s| - 1] == params
    && forall i :: 0 <= i < |params| ==> ('0' <= params[i] <= '9' || params[i] == ';')
  }

  // ---------------------------------------------------------------- statuses

  /** GetStatusCodeColor: the colour of a status code, by numeric range. Only
      four of the colours are ever used for a status. */
  function StatusColor(code: int): (r: string)
    ensures r in {White, Green, Yellow, Red}
  {
    if 100 <= code < 200 then White
    else if 200 <= code < 300 then Green
    else if 300 <= code < 400 then White
    else if 400 <= code < 500 then Yellow
    else Red
  }

  /** The five classes of response of section 15 of RFC 9110, told apart by the
      first digit of a three-digit status code. */
  datatype StatusClass = Informational | Successful | Redirection | ClientError | ServerError

  /** The class of a code in 100..599; None for anything that is not a valid code. */
  function ClassOf(code: int): Option<StatusClass>
  {
    if code < 100 || code > 599 then None
    else
      match code / 100
      case 1 => Some(Informational)
      case 2 => Some(Successful)
      case 3 => Some(Redirection)
      case 4 => Some(ClientError)
      case _ => Some(ServerError)
  }

  /** The colour assigned to each class; codes with no class are shown red. */
  function ClassColor(c: Option<StatusClass>): string
  {
    match c
    case Some(Informational) => White
    case Some(Successful) => Green
    case Some(Redirection) => White
    case Some(ClientError) => Yellow
    case Some(ServerError) => Red
    case None => Red
  }

  /** The range table agrees with the class-based one on every integer. */
  lemma StatusColorByClass(code: int)
    ensures StatusColor(code) == ClassColor(ClassOf(code))
  {
    if 100 <= code <= 599 {
      var q := code / 100;
      assert q * 100 <= code < q * 100 + 100;
      assert 1 <= q <= 5;
    }
  }

  lemma ColorsDistinct()
    ensures White != Green && White != Yellow && White != Red
    ensures Green != Yellow && Green != Red && Yellow != Red
    ensures Reset !in {White, Green, Yellow, Red, Blue, Magenta, Cyan}
    ensures Blue !in {White, Green, Yellow, Red, Magenta, Cyan}
    ensures Magenta !in {White, Green, Yellow, Red, Cyan}
    ensures Cyan !in {White, Green, Yellow, Red}
  {
    // the seven colours differ in the digit at index 6; the reset escape is shorter
    assert [White[6], Green[6], Yellow[6], Red[6], Blue[6], Magenta[6], Cyan[6]]
        == ['7', '2', '3', '1', '4', '5', '6'];
    assert |Reset| != |White|;
  }

  /** The status bands, each in both directions: white exactly for 1xx and 3xx,
      green exactly for 2xx, yellow exactly for 4xx, red for every other integer. */
  lemma StatusColorBands(code: int)
    ensures StatusColor(code) == White <==> (100 <= code < 200 || 300 <= code < 400)
    ensures StatusColor(code) == Green <==> 200 <= code < 300
    ensures StatusColor(code) == Yellow <==> 400 <= code < 500
    ensures StatusColor(code) == Red <==> (code < 100 || code >= 500)
  {
    ColorsDistinct();
  }

  /** The status field is always coloured: no code is shown with the reset escape,
      and every status colour is a well-formed SGR escape. */
  lemma StatusColorIsSgr(code: int)
    ensures StatusColor(code) != Reset
    ensures IsSgr(StatusColor(code), StatusColor(code)[2..7])
  {
    ColorsDistinct();
  }

  // ---------------------------------------------------------------- methods

  /** getMethodColor: an exact, case-sensitive lookup of the seven method tokens. */
  function MethodColor(token: string): (r: string)
    ensures r in {Blue, Cyan, Yellow, Red, Green, Magenta, White, Reset}
  {
    match token
    case "GET" => Blue
    case "POST" => Cyan
    case "PUT" => Yellow
    case "DELETE" => Red
    case "PATCH" => Green
    case "HEAD" => Magenta
    case "OPTIONS" => White
    case _ => Reset
  }

  /** getResetColor: the escape that ends every coloured field, SGR parameter 0. */
  function ResetColor(): (r: string)
    ensures IsSgr(r, "0")
  {
    Reset
  }

  /** The method table as data: the seven method tokens the logger colours,
      with their colours. */
  const MethodTable: map<string, string> :=
    map["GET" := Blue, "POST" := Cyan, "PUT" := Yellow, "DELETE" := Red,
        "PATCH" := Green, "HEAD" := Magenta, "OPTIONS" := White]

  /** The lookup agrees with the table, and falls back to the reset colour. */
  lemma MethodColorByTable(token: string)
    ensures MethodColor(token) == if token in MethodTable then MethodTable[token] else Reset
  {
  }

  /** A method is coloured (not reset) exactly when it is one of the seven tokens. */
  lemma MethodColored(token: string)
    ensures MethodColor(token) != Reset <==> token in MethodTable
  {
    ColorsDistinct();
  }

  predicate HasLowerCase(s: string) {
    exists i :: 0 <= i < |s| && 'a' <= s[i] <= 'z'
  }

  /** The lookup is case-sensitive: a token with any lower-case letter, such as
      "get" or "Post", is not recognised; neither is the empty string. */
  lemma MethodColorCaseSensitive(token: string)
    requires token == [] || HasLowerCase(token)
    ensures MethodColor(token) == Reset
  {
    if token in MethodTable {
      var i :| 0 <= i < |token| && 'a' <= token[i] <= 'z';
      assert false;
    }
  }

  /** Every colour the method table yields is a well-formed SGR escape. */
  lemma MethodColorIsSgr(token: string)
    ensures IsSgr(MethodColor(token), MethodColor(token)[2..|MethodColor(token)| - 1])
  {
  }
}
