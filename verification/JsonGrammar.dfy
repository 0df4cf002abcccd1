/** What json.c reads from a text, through the scanner of scanner.c.  A text is the rest of the buffer from
    the cursor on, with the zero byte that ends the buffer. */
module JsonGrammar {
  import opened Hex
  import opened JsonText

  datatype Parsed<T> = Failed | Parsed(value: T, rest: string)

  predicate Ended(r: string) {
    r != "" && r[|r| - 1] == '\0'
  }

  // ------------------------------------------------------------------ scanner

  predicate IsBlank(c: char) {
    c == ' ' || c == '\t' || c == '\r' || c == '\n'
  }

  /** pj_scan_skip_whitespace, new lines included. */
  function Skip(r: string): (s: string)
    ensures |s| <= |r|
    ensures Ended(r) ==> Ended(s)
    ensures s != "" ==> !IsBlank(s[0])
  {
    if r != "" && IsBlank(r[0]) then Skip(r[1..]) else r
  }

  /** pj_scan_get_char. */
  function GetChar(r: string): (p: Parsed<char>)
    requires Ended(r)
    ensures p.Parsed? ==> Ended(p.rest) && |p.rest| < |r| && p.value == r[0]
  {
    if r[0] == '\0' then Failed else Parsed(r[0], Skip(r[1..]))
  }

  /** How many characters come before c or the end of the buffer. */
  function Until(r: string, c: char): (n: nat)
    requires Ended(r)
    ensures n < |r|
  {
    if |r| == 1 || r[0] == c then 0 else 1 + Until(r[1..], c)
  }

  /** pj_scan_get_until_ch. */
  function GetUntil(r: string, c: char): (p: Parsed<string>)
    requires Ended(r)
    ensures p.Parsed? ==> Ended(p.rest) && |p.rest| <= |r|
  {
    if |r| == 1 then Failed else Parsed(r[..Until(r, c)], Skip(r[Until(r, c)..]))
  }

  predicate IsNumeral(c: char) {
    c == '.' || '0' <= c <= '9'
  }

  /** How many characters of a number come first. */
  function NumeralLen(r: string): (n: nat)
    requires Ended(r)
    ensures n < |r|
  {
    if !IsNumeral(r[0]) then 0 else 1 + NumeralLen(r[1..])
  }

  /** pj_scan_get for the characters of a number. */
  function GetNumeral(r: string): (p: Parsed<string>)
    requires Ended(r)
    ensures p.Parsed? ==> Ended(p.rest) && |p.rest| < |r|
  {
    var n := NumeralLen(r);
    if n == 0 then Failed else Parsed(r[..n], Skip(r[n..]))
  }

  /** Where the string ends that is open at i; `odd` says that a backslash escapes the character at i. */
  function ClosingQuote(r: string, i: nat, odd: bool): (k: Option<nat>)
    requires Ended(r) && i < |r|
    ensures k.Some? ==> i <= k.value < |r| - 1 && r[k.value] == '"'
    decreases |r| - i
  {
    if i == |r| - 1 || r[i] == '\n' then None
    else if r[i] == '"' && !odd then Some(i)
    else ClosingQuote(r, i + 1, r[i] == '\\' && !odd)
  }

  datatype Option<T> = None | Some(value: T)

  // ------------------------------------------------------------------ values

  /** The number that leading digits spell, as an unsigned long of 64 bits. */
  function Unsigned(s: string): (n: nat)
    ensures n < 0x1_0000_0000_0000_0000
    decreases |s|
  {
    if s == "" then 0
    else (Unsigned(s[..|s| - 1]) * 10 + (if s[|s| - 1] < '0' then 0 else s[|s| - 1] as int - '0' as int)) % 0x1_0000_0000_0000_0000
  }

  function LeadingDigits(s: string): string
  {
    if s != "" && '0' <= s[0] <= '9' then [s[0]] + LeadingDigits(s[1..]) else ""
  }

  /** pj_strtol on text without a sign: the unsigned value taken as a signed long. */
  function Long(s: string): int {
    var n := Unsigned(LeadingDigits(s));
    if n < 0x8000_0000_0000_0000 then n else n - 0x1_0000_0000_0000_0000
  }

  function PowerOfTen(n: nat): (p: real)
    ensures p > 0.0
  {
    if n == 0 then 1.0 else 10.0 * PowerOfTen(n - 1)
  }

  function IndexOf(s: string, c: char): (n: nat)
    ensures n <= |s| && (n < |s| ==> s[n] == c) && c !in s[..n]
  {
    if s == "" || s[0] == c then 0 else 1 + IndexOf(s[1..], c)
  }

  /** pj_strtof, with exact arithmetic. */
  function Real(s: string): real {
    var dot := IndexOf(s, '.');
    var whole := Long(s[..dot]) as real;
    if dot + 1 >= |s| then whole
    else
      var digits := LeadingDigits(s[dot + 1..]);
      var fraction := Unsigned(digits) as real / PowerOfTen(|digits|);
      if whole >= 0.0 then whole + fraction else whole - fraction
  }

  /** What the character after a backslash stands for, if it is one of the short escapes. */
  function Unshort(c: char): Option<char> {
    if c == '"' || c == '\\' || c == '/' then Some(c)
    else if c == 'b' then Some(8 as char)
    else if c == 'f' then Some(12 as char)
    else if c == 'n' then Some('\n')
    else if c == 'r' then Some('\r')
    else if c == 't' then Some('\t')
    else None
  }

  /** The characters that escaped text stands for; only the last two digits of \u are used. */
  function Unescape(s: string): Option<string>
    decreases |s|
  {
    if s == "" then Some("")
    else if s[0] != '\\' then Prepend(s[0], Unescape(s[1..]))
    else if |s| == 1 then None
    else if s[1] == 'u' then
      if |s| < 6 then None
      else Prepend(FromHex(s[4], s[5]), Unescape(s[6..]))
    else if Unshort(s[1]).None? then None
    else Prepend(Unshort(s[1]).value, Unescape(s[2..]))
  }

  function Prepend(c: char, rest: Option<string>): Option<string> {
    match rest
    case None => None
    case Some(s) => Some([c] + s)
  }

  /** parse_quoted_string. */
  function ParseQuoted(r: string): (p: Parsed<string>)
    requires Ended(r) && r[0] == '"'
    ensures p.Parsed? ==> Ended(p.rest) && |p.rest| < |r|
  {
    var k := ClosingQuote(r, 1, false);
    if k.None? then Failed
    else
      var text := Unescape(r[1..k.value]);
      if text.None? then Failed else Parsed(text.value, Skip(r[k.value + 1..]))
  }

  predicate IsAlpha(c: char) {
    'a' <= c <= 'z' || 'A' <= c <= 'Z'
  }

  /** The three literals.  The first comparison needs five characters, whatever the literal. */
  function ParseLiteral(r: string): (p: Parsed<Value>)
    requires Ended(r)
    ensures p.Parsed? ==> Ended(p.rest) && |p.rest| < |r|
  {
    if |r| - 1 < 5 then Failed
    else if r[..5] == "false" then Parsed(Bool(false), Skip(r[5..]))
    else if r[..4] == "true" then Parsed(Bool(true), Skip(r[4..]))
    else if r[..4] == "null" then Parsed(Null, Skip(r[4..]))
    else Failed
  }

  function ParseNumber(r: string): (p: Parsed<Value>)
    requires Ended(r)
    ensures p.Parsed? ==> Ended(p.rest) && |p.rest| < |r|
  {
    if r[0] == '-' then
      match GetChar(r)
      case Failed => Failed
      case Parsed(_, r1) =>
        match GetNumeral(r1)
        case Failed => Failed
        case Parsed(token, r2) => Parsed(Number(-Real(token)), r2)
    else
      match GetNumeral(r)
      case Failed => Failed
      case Parsed(token, r1) => Parsed(Number(Real(token)), r1)
  }

  /** The first quoted text of an element: its name if a colon follows, otherwise its value. */
  datatype Lead = Lead(name: string, value: string)

  function ParseLead(r: string): (p: Parsed<Lead>)
    requires Ended(r)
    ensures p.Parsed? ==> Ended(p.rest) && |p.rest| <= |r| && (p.value.value != "" ==> |p.rest| < |r|)
  {
    if r[0] != '"' then Parsed(Lead("", ""), r)
    else
      match GetChar(r)
      case Failed => Failed
      case Parsed(_, r1) =>
        match GetUntil(r1, '"')
        case Failed => Failed
        case Parsed(token, r2) =>
          match GetChar(r2)
          case Failed => Failed
          case Parsed(_, r3) =>
            if r3[0] != ':' then Parsed(Lead("", token), r3)
            else
              match GetChar(r3)
              case Failed => Failed
              case Parsed(_, r4) => Parsed(Lead(token, ""), r4)
  }

  /** parse_elem_throw. */
  function ParseElem(r: string): (p: Parsed<Elem>)
    requires Ended(r)
    ensures p.Parsed? ==> Ended(p.rest) && |p.rest| < |r|
    decreases |r|, 2
  {
    match ParseLead(r)
    case Failed => Failed
    case Parsed(lead, r1) =>
      if lead.value != "" then Parsed(Elem(lead.name, Str(lead.value)), r1)
      else
        match ParseValue(r1)
        case Failed => Failed
        case Parsed(v, r2) => Parsed(Elem(lead.name, v), r2)
  }

  function ParseValue(r: string): (p: Parsed<Value>)
    requires Ended(r)
    ensures p.Parsed? ==> Ended(p.rest) && |p.rest| < |r|
    decreases |r|, 1
  {
    if IsNumeral(r[0]) || r[0] == '-' then ParseNumber(r)
    else if r[0] == '"' then
      match ParseQuoted(r)
      case Failed => Failed
      case Parsed(text, r1) => Parsed(Str(text), r1)
    else if IsAlpha(r[0]) then ParseLiteral(r)
    else if r[0] == '[' then
      match ParseChildren(Skip(r[1..]), ']')
      case Failed => Failed
      case Parsed(list, r1) => Parsed(Array(list), r1)
    else if r[0] == '{' then
      match ParseChildren(Skip(r[1..]), '}')
      case Failed => Failed
      case Parsed(list, r1) => Parsed(Object(list), r1)
    else Failed
  }

  function SkipCommas(r: string): (s: string)
    requires Ended(r)
    ensures Ended(s) && |s| <= |r| && s[0] != ','
    decreases |r|
  {
    if r[0] == ',' then SkipCommas(Skip(r[1..])) else r
  }

  /** The loop of parse_children and the closing bracket. */
  function ParseChildren(r: string, end: char): (p: Parsed<seq<Elem>>)
    requires Ended(r) && end != '\0'
    ensures p.Parsed? ==> Ended(p.rest) && |p.rest| < |r|
    decreases |r|, 3
  {
    var r1 := SkipCommas(r);
    if r1[0] == end then Parsed([], Skip(r1[1..]))
    else
      match ParseElem(r1)
      case Failed => Failed
      case Parsed(e, r2) =>
        match ParseChildren(r2, end)
        case Failed => Failed
        case Parsed(list, r3) => Parsed([e] + list, r3)
  }

  /** pj_json_parse; the rest gives the size that is left. */
  function Parse(buffer: string): Parsed<Elem> {
    if buffer == "" then Failed else ParseElem(Skip(buffer + "\0"))
  }
}
