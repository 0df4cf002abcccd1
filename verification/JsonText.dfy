/** JSON elements and the text that json.c writes for them. */
module JsonText {
  import opened Hex

  const MAX_INDENT := 100
  const NAME_MIN_LEN := 20
  const INDENT_SIZE := 3

  datatype Elem = Elem(name: string, value: Value)

  /** Numbers are exact; the source keeps them as floats. */
  datatype Value =
    | Null
    | Bool(isTrue: bool)
    | Number(num: real)
    | Str(text: string)
    | Array(children: seq<Elem>)
    | Object(children: seq<Elem>)

  // ------------------------------------------------------------------ characters

  /** The two-character escapes of write_string_escaped. */
  function ShortEscape(c: char): (e: string)
    ensures e == "" || |e| == 2
  {
    if c == '"' then "\\\""
    else if c == '\\' then "\\\\"
    else if c == '/' then "\\/"
    else if c as int == 8 then "\\b"
    else if c as int == 12 then "\\f"
    else if c == '\n' then "\\n"
    else if c == '\r' then "\\r"
    else if c == '\t' then "\\t"
    else ""
  }

  predicate Printable(c: char) {
    32 <= c as int < 127
  }

  /** One character of a string as it is written. */
  function Escape(c: char): (e: string)
    ensures 1 <= |e| <= 6
  {
    if ShortEscape(c) != "" then ShortEscape(c)
    else if Printable(c) then [c]
    else "\\u00" + Hex2(c)
  }

  function EscapeAll(s: string): string {
    if s == "" then "" else Escape(s[0]) + EscapeAll(s[1..])
  }

  function Spaces(n: nat): (s: string)
    ensures |s| == n
  {
    seq(n, _ => ' ')
  }

  lemma Regroup(a: string, b: string, c: string)
    ensures a + b + c == a + (b + c)
  {
  }

  // ------------------------------------------------------------------ numbers

  function Digit(n: nat): (c: char)
    requires n < 10
    ensures '0' <= c <= '9' && c as int - '0' as int == n
  {
    '0' + n as char
  }

  function Digits(n: nat): (s: string)
    ensures s != ""
    decreases n
  {
    if n < 10 then [Digit(n)] else Digits(n / 10) + [Digit(n % 10)]
  }

  /** %d */
  function IntText(n: int): (s: string)
    ensures s != ""
  {
    if n < 0 then "-" + Digits(-n) else Digits(n)
  }

  // ------------------------------------------------------------------ elements

  predicate Integral(x: real) {
    x == x.Floor as real && -0x8000_0000 <= x.Floor <= 0x7fff_ffff
  }

  /** The indent of the children of a list written at this indent. */
  function Deeper(list: seq<Elem>, indent: nat): nat {
    if list != [] && list[0].name != "" && indent < MAX_INDENT then indent + INDENT_SIZE else indent
  }

  /** Every number is integral and no indentation runs past the blanks of indent_buf. */
  predicate Writable(v: Value, indent: nat)
    decreases v
  {
    match v
    case Null => true
    case Bool(_) => true
    case Number(x) => Integral(x)
    case Str(_) => true
    case Array(list) => indent <= MAX_INDENT && Deeper(list, indent) <= MAX_INDENT && forall e <- list :: Writable(e.value, Deeper(list, indent))
    case Object(list) => indent <= MAX_INDENT && Deeper(list, indent) <= MAX_INDENT && forall e <- list :: Writable(e.value, Deeper(list, indent))
  }

  /** What precedes the value of an element.  Under `noName` only the indentation of a name is written. */
  function NameText(name: string, indent: nat, noName: bool): string {
    if name == "" then ""
    else if noName then Spaces(indent)
    else Spaces(indent) + "\"" + EscapeAll(name) + "\": " + Spaces(if |name| < NAME_MIN_LEN then NAME_MIN_LEN - |name| else 0)
  }

  function ValueText(v: Value, indent: nat): (s: string)
    decreases v, 2
  {
    match v
    case Null => "null"
    case Bool(b) => if b then "true" else "false"
    case Number(x) => IntText(x.Floor)
    case Str(text) => "\"" + EscapeAll(text) + "\""
    case Array(list) => "[ " + ChildrenText(list, indent, true) + "]"
    case Object(list) => "{ " + ChildrenText(list, indent, false) + "}"
  }

  function ElemText(e: Elem, indent: nat, noName: bool): string
    decreases e, 0
  {
    NameText(e.name, indent, noName) + ValueText(e.value, indent)
  }

  /** The children, on one line when the first has no name. */
  function ChildrenText(list: seq<Elem>, indent: nat, noName: bool): string
    decreases list, 1
  {
    if list == [] then ""
    else if list[0].name == "" then Joined(list, indent, noName, ", ", "")
    else "\n" + Joined(list, Deeper(list, indent), noName, ",\n", "\n") + Spaces(indent)
  }

  function Joined(list: seq<Elem>, indent: nat, noName: bool, separator: string, last: string): string
    requires list != []
    decreases list, 0
  {
    ElemText(list[0], indent, noName) +
    if |list| == 1 then last else separator + Joined(list[1..], indent, noName, separator, last)
  }
}
