/** JSON texts as RFC 4627 describes them, with any white space, any number and any escapes, whoever wrote
    them; and that json.c reads each as the tree it stands for. */
module JsonSyntax {
  import opened Hex
  import opened JsonText
  import opened JsonGrammar
  import opened JsonRoundTrip

  // ------------------------------------------------------------------ texts and what they stand for

  /** A text of an element: a name with its colon, unless it has none, a value, and the white space around
      them.  `gap` is the white space behind the comma, if one follows. */
  datatype Doc = Doc(name: string, beforeColon: string, afterColon: string, body: Body, after: string, gap: string)

  datatype Body =
    | NullWord
    | BoolWord(isTrue: bool)
    | Num(minus: bool, whole: string, fraction: string)
    | Quoted(text: string, plain: string)
    | List(isObject: bool, open: string, items: seq<Doc>)

  function Render(d: Doc): string
    decreases d, 0
  {
    (if d.name == "" then "" else "\"" + d.name + "\"" + d.beforeColon + ":" + d.afterColon) + RenderBody(d.body) + d.after
  }

  function RenderBody(b: Body): string
    decreases b, 2
  {
    match b
    case NullWord => "null"
    case BoolWord(isTrue) => if isTrue then "true" else "false"
    case Num(minus, whole, fraction) => (if minus then "-" else "") + whole + if fraction == "" then "" else "." + fraction
    case Quoted(text, plain) => "\"" + text + "\""
    case List(isObject, open, items) =>
      (if isObject then "{" else "[") + open + RenderItems(items) + if isObject then "}" else "]"
  }

  function RenderItems(items: seq<Doc>): string
    decreases items, 1
  {
    if items == [] then ""
    else Render(items[0]) + if |items| == 1 then "" else "," + items[0].gap + RenderItems(items[1..])
  }

  /** The number that decimal digits spell. */
  function Decimal(digits: string): nat
    requires forall i :: 0 <= i < |digits| ==> 48 <= digits[i] as int <= 57
    decreases |digits|
  {
    if digits == "" then 0 else 10 * Decimal(digits[..|digits| - 1]) + (digits[|digits| - 1] as int - 48)
  }

  function Tens(n: nat): (p: nat)
    ensures p > 0
  {
    if n == 0 then 1 else 10 * Tens(n - 1)
  }

  predicate DigitsOnly(s: string) {
    forall i :: 0 <= i < |s| ==> 48 <= s[i] as int <= 57
  }

  function NumberOf(minus: bool, whole: string, fraction: string): real
    requires DigitsOnly(whole) && DigitsOnly(fraction)
  {
    var x := Decimal(whole) as real + Decimal(fraction) as real / Tens(|fraction|) as real;
    if minus then -x else x
  }

  predicate White(s: string) {
    forall i :: 0 <= i < |s| ==> s[i] as int in {9, 10, 13, 32}
  }

  /** The code of a character and how it may be escaped with one letter. */
  predicate ShortPair(letter: char, c: char) {
    || (letter == '"' && c as int == 34) || (letter == '\\' && c as int == 92) || (letter == '/' && c as int == 47)
    || (letter == 'b' && c as int == 8) || (letter == 'f' && c as int == 12) || (letter == 'n' && c as int == 10)
    || (letter == 'r' && c as int == 13) || (letter == 't' && c as int == 9)
  }

  /** Four hexadecimal digits of either case for a character; the code is taken modulo 256. */
  ghost predicate Codes(digits: string, c: char) {
    && |digits| == 4
    && exists p: int, q: int, high: int, low: int ::
      && Denotes(digits[0], p) && Denotes(digits[1], q) && Denotes(digits[2], high) && Denotes(digits[3], low)
      && c as int == (4096 * p + 256 * q + 16 * high + low) % 256
  }

  /** Between the quotes: characters for themselves, and escapes of both kinds. */
  ghost predicate Spells(text: string, plain: string)
    decreases |plain|
  {
    if plain == "" then text == ""
    else if text == "" then false
    else if text[0] != '\\' then text[0] != '"' && text[0] != '\n' && text[0] == plain[0] && Spells(text[1..], plain[1..])
    else if |text| >= 6 && text[1] == 'u' then Codes(text[2..6], plain[0]) && Spells(text[6..], plain[1..])
    else |text| >= 2 && ShortPair(text[1], plain[0]) && Spells(text[2..], plain[1..])
  }

  /** Text that json.c takes as it stands: not empty, no quote or backslash, no white space in front. */
  predicate Verbatim(s: string) {
    s != "" && '"' !in s && '\\' !in s && s[0] as int !in {9, 10, 13, 32}
  }

  ghost predicate BodyOk(b: Body, named: bool)
    decreases b, 2
  {
    match b
    case NullWord => true
    case BoolWord(_) => true
    case Num(minus, whole, fraction) =>
      && DigitsOnly(whole) && DigitsOnly(fraction) && whole != ""
      && Decimal(whole) < 0x8000_0000_0000_0000 && Decimal(fraction) < 0x1_0000_0000_0000_0000
    case Quoted(text, plain) => if named then Spells(text, plain) else text == plain && Verbatim(plain)
    case List(isObject, open, items) => White(open) && ItemsOk(items)
  }

  ghost predicate DocOk(d: Doc)
    decreases d, 0
  {
    && (d.name == "" || Verbatim(d.name))
    && White(d.beforeColon) && White(d.afterColon) && White(d.after) && White(d.gap)
    && BodyOk(d.body, d.name != "")
  }

  ghost predicate ItemsOk(items: seq<Doc>)
    decreases items, 1
  {
    items == [] || (DocOk(items[0]) && ItemsOk(items[1..]))
  }

  function TreeOf(d: Doc): Elem
    requires Numeric(d.body)
    decreases d, 0
  {
    Elem(d.name, ValueOf(d.body))
  }

  /** Its numbers are made of digits. */
  predicate Numeric(b: Body)
    decreases b, 0
  {
    match b
    case Num(_, whole, fraction) => DigitsOnly(whole) && DigitsOnly(fraction)
    case List(_, _, items) => AllNumeric(items)
    case _ => true
  }

  predicate AllNumeric(items: seq<Doc>)
    decreases items, 1
  {
    items == [] || (Numeric(items[0].body) && AllNumeric(items[1..]))
  }

  function ValueOf(b: Body): Value
    requires Numeric(b)
    decreases b, 2
  {
    match b
    case NullWord => Null
    case BoolWord(isTrue) => Bool(isTrue)
    case Num(minus, whole, fraction) => Number(NumberOf(minus, whole, fraction))
    case Quoted(_, plain) => Str(plain)
    case List(isObject, _, items) => if isObject then Object(TreesOf(items)) else Array(TreesOf(items))
  }

  function TreesOf(items: seq<Doc>): seq<Elem>
    requires AllNumeric(items)
    decreases items, 1
  {
    if items == [] then [] else [TreeOf(items[0])] + TreesOf(items[1..])
  }

  lemma {:induction false} OkIsNumeric(b: Body, named: bool)
    requires BodyOk(b, named)
    ensures Numeric(b)
    decreases b, 0
  {
    if b.List? {
      OkItemsNumeric(b.items);
    }
  }

  lemma {:induction false} OkItemsNumeric(items: seq<Doc>)
    requires ItemsOk(items)
    ensures AllNumeric(items)
    decreases items, 1
  {
    if items != [] {
      OkIsNumeric(items[0].body, items[0].name != "");
      OkItemsNumeric(items[1..]);
    }
  }

  // ------------------------------------------------------------------ white space

  lemma {:induction false} WhiteIsSkipped(b: string, rest: string)
    requires White(b)
    ensures Skip(b + rest) == Skip(rest)
  {
    if b == "" {
      assert b + rest == rest;
    } else {
      assert (b + rest)[1..] == b[1..] + rest;
      WhiteIsSkipped(b[1..], rest);
    }
  }

  lemma WhiteToText(b: string, rest: string)
    requires White(b) && rest != "" && rest[0] as int !in {9, 10, 13, 32}
    ensures Skip(b + rest) == rest
  {
    WhiteIsSkipped(b, rest);
  }

  // ------------------------------------------------------------------ strings

  lemma LowByte(p: int, q: int, high: int, low: int)
    requires 0 <= p < 16 && 0 <= q < 16 && 0 <= high < 16 && 0 <= low < 16
    ensures (4096 * p + 256 * q + 16 * high + low) % 256 == 16 * high + low
  {
    assert 4096 * p + 256 * q + 16 * high + low == 256 * (16 * p + q) + (16 * high + low);
  }

  lemma CodeIsRead(digits: string, c: char)
    requires Codes(digits, c)
    ensures FromHex(digits[2], digits[3]) == c
    ensures forall i :: 0 <= i < 4 ==> digits[i] != '"' && digits[i] != '\\' && digits[i] != '\n'
  {
    hide Denotes, HexVal;
    var p: int, q: int, high: int, low: int :|
      && Denotes(digits[0], p) && Denotes(digits[1], q) && Denotes(digits[2], high) && Denotes(digits[3], low)
      && c as int == (4096 * p + 256 * q + 16 * high + low) % 256;
    DigitValue(digits[0], p);
    DigitValue(digits[1], q);
    DigitValue(digits[2], high);
    DigitValue(digits[3], low);
    LowByte(p, q, high, low);
  }

  lemma {:induction false} SpellingIsRead(text: string, plain: string)
    requires Spells(text, plain)
    ensures Unescape(text) == Some(plain)
    decreases |plain|
  {
    if plain != "" {
      hide Codes, FromHex;
      assert [plain[0]] + plain[1..] == plain;
      if text[0] != '\\' {
        SpellingIsRead(text[1..], plain[1..]);
      } else if |text| >= 6 && text[1] == 'u' {
        SpellingIsRead(text[6..], plain[1..]);
        CodeIsRead(text[2..6], plain[0]);
        assert text[2..6][2] == text[4] && text[2..6][3] == text[5];
      } else {
        SpellingIsRead(text[2..], plain[1..]);
      }
    }
  }

  lemma PassPlain(r: string, i: nat)
    requires Ended(r) && i < |r| - 1 && r[i] != '"' && r[i] != '\\' && r[i] != '\n'
    ensures ClosingQuote(r, i, false) == ClosingQuote(r, i + 1, false)
  {
  }

  lemma PassEscape(r: string, i: nat)
    requires Ended(r) && i + 1 < |r| - 1 && r[i] == '\\' && r[i + 1] != '\n'
    ensures ClosingQuote(r, i, false) == ClosingQuote(r, i + 2, false)
  {
  }

  lemma PassCode(r: string, i: nat)
    requires Ended(r) && i + 5 < |r| - 1 && r[i] == '\\' && r[i + 1] == 'u'
    requires forall k :: i + 2 <= k < i + 6 ==> r[k] != '"' && r[k] != '\\' && r[k] != '\n'
    ensures ClosingQuote(r, i, false) == ClosingQuote(r, i + 6, false)
  {
    hide ClosingQuote, Ended;
    PassEscape(r, i);
    PassPlain(r, i + 2);
    PassPlain(r, i + 3);
    PassPlain(r, i + 4);
    PassPlain(r, i + 5);
  }

  lemma HereIsQuote(r: string, i: nat)
    requires Ended(r) && i < |r| - 1 && r[i] == '"'
    ensures ClosingQuote(r, i, false) == Some(i)
  {
  }

  /** The parts of r from i on when it reads text and then q. */
  lemma At(r: string, i: nat, text: string, q: string)
    requires i <= |r| && r[i..] == text + q
    ensures |r| == i + |text| + |q| && (forall k :: 0 <= k < |text| ==> r[i + k] == text[k])
    ensures forall k :: 0 <= k <= |text| ==> r[i + k..] == text[k..] + q
  {
    forall k | 0 <= k < |text|
      ensures r[i + k] == text[k]
    {
      assert r[i..][k] == (text + q)[k];
    }
    forall k | 0 <= k <= |text|
      ensures r[i + k..] == text[k..] + q
    {
      assert r[i + k..] == r[i..][k..] == (text + q)[k..];
    }
  }

  /** The quote behind a spelled text is the one that ends it. */
  lemma {:induction false} SpellingEnds(r: string, i: nat, text: string, plain: string, q: string)
    requires Ended(r) && i <= |r| && r[i..] == text + q && |q| >= 2 && q[0] == '"' && Spells(text, plain)
    ensures ClosingQuote(r, i, false) == Some(i + |text|)
    decreases |plain|
  {
    hide ClosingQuote, Ended, Codes;
    At(r, i, text, q);
    if plain == "" {
      assert r[i..] == q;
      HereIsQuote(r, i);
    } else if text[0] != '\\' {
      PassPlain(r, i);
      SpellingEnds(r, i + 1, text[1..], plain[1..], q);
    } else if |text| >= 6 && text[1] == 'u' {
      CodeIsRead(text[2..6], plain[0]);
      forall k | i + 2 <= k < i + 6
        ensures r[k] != '"' && r[k] != '\\' && r[k] != '\n'
      {
        assert r[k] == text[k - i] == text[2..6][k - i - 2];
      }
      PassCode(r, i);
      SpellingEnds(r, i + 6, text[6..], plain[1..], q);
    } else {
      PassEscape(r, i);
      SpellingEnds(r, i + 2, text[2..], plain[1..], q);
    }
  }

  lemma QuotedTextIsRead(text: string, plain: string, tail: string)
    requires Spells(text, plain) && Ended(tail)
    ensures var r := "\"" + (text + ("\"" + tail)); Ended(r) && ParseQuoted(r) == Parsed(plain, Skip(tail))
  {
    hide ClosingQuote, Spells, Unescape, Skip;
    var q := "\"" + tail;
    var r := "\"" + (text + q);
    assert q[1..] == tail;
    QuotedParts(text, q);
    SpellingEnds(r, 1, text, plain, q);
    SpellingIsRead(text, plain);
  }

  // ------------------------------------------------------------------ numbers

  lemma {:induction false} DecimalIsUnsigned(s: string)
    requires DigitsOnly(s) && Decimal(s) < 0x1_0000_0000_0000_0000
    ensures Unsigned(s) == Decimal(s)
    decreases |s|
  {
    if s != "" {
      DecimalIsUnsigned(s[..|s| - 1]);
    }
  }

  lemma {:induction false} TensArePowers(n: nat)
    ensures PowerOfTen(n) == Tens(n) as real
  {
    if n > 0 {
      TensArePowers(n - 1);
    }
  }

  lemma DotIsFound(whole: string, fraction: string)
    requires DigitsOnly(whole)
    ensures IndexOf(whole + ("." + fraction), '.') == |whole|
  {
    var s := whole + ("." + fraction);
    assert s[|whole|] == '.' && s[..|whole|] == whole;
  }

  /** The characters of a number without sign. */
  function Token(whole: string, fraction: string): string {
    whole + if fraction == "" then "" else "." + fraction
  }

  lemma WholeIsRead(whole: string)
    requires DigitsOnly(whole) && Decimal(whole) < 0x8000_0000_0000_0000
    ensures Long(whole) == Decimal(whole)
  {
    DigitsLead(whole);
    DecimalIsUnsigned(whole);
  }

  lemma FractionIsRead(whole: string, fraction: string)
    requires DigitsOnly(whole) && DigitsOnly(fraction) && fraction != ""
    requires Decimal(whole) < 0x8000_0000_0000_0000 && Decimal(fraction) < 0x1_0000_0000_0000_0000
    ensures Real(whole + ("." + fraction)) == NumberOf(false, whole, fraction)
  {
    hide Unsigned, Decimal, Long, LeadingDigits, IndexOf, PowerOfTen, Tens;
    var s := whole + ("." + fraction);
    DotIsFound(whole, fraction);
    WholeIsRead(whole);
    DigitsLead(fraction);
    DecimalIsUnsigned(fraction);
    TensArePowers(|fraction|);
    assert s[..|whole|] == whole && s[|whole| + 1..] == fraction;
  }

  lemma IntegerIsRead(whole: string)
    requires DigitsOnly(whole) && Decimal(whole) < 0x8000_0000_0000_0000
    ensures Real(whole) == NumberOf(false, whole, "")
  {
    hide Unsigned, Long, LeadingDigits;
    DigitsLead(whole);
    WholeIsRead(whole);
    assert whole[..|whole|] == whole;
    assert Decimal("") == 0;
  }

  lemma TokenIsRead(whole: string, fraction: string)
    requires DigitsOnly(whole) && DigitsOnly(fraction) && whole != ""
    requires Decimal(whole) < 0x8000_0000_0000_0000 && Decimal(fraction) < 0x1_0000_0000_0000_0000
    ensures Real(Token(whole, fraction)) == NumberOf(false, whole, fraction)
  {
    hide Real, NumberOf, Decimal;
    if fraction == "" {
      IntegerIsRead(whole);
      assert whole + "" == whole;
    } else {
      FractionIsRead(whole, fraction);
    }
  }

  lemma {:induction false} NumeralCharsEnd(s: string, tail: string)
    requires forall i :: 0 <= i < |s| ==> IsNumeral(s[i])
    requires Ended(tail) && !IsNumeral(tail[0])
    ensures Ended(s + tail) && NumeralLen(s + tail) == |s|
  {
    if s == "" {
      assert s + tail == tail;
    } else {
      assert (s + tail)[1..] == s[1..] + tail;
      NumeralCharsEnd(s[1..], tail);
    }
  }

  lemma TokenEnds(whole: string, fraction: string, tail: string)
    requires DigitsOnly(whole) && DigitsOnly(fraction) && whole != "" && Ended(tail) && !IsNumeral(tail[0])
    ensures var t := Token(whole, fraction);
      IsNumeral((t + tail)[0]) && Ended(t + tail) && GetNumeral(t + tail) == Parsed(t, Skip(tail))
  {
    hide NumeralLen, Skip;
    var t := Token(whole, fraction);
    NumeralCharsEnd(t, tail);
    assert (t + tail)[..|t|] == t && (t + tail)[|t|..] == tail;
  }

  lemma MinusIsNone()
    ensures !IsNumeral('-')
  {
  }

  lemma NumIsRead(minus: bool, whole: string, fraction: string, tail: string)
    requires DigitsOnly(whole) && DigitsOnly(fraction) && whole != "" && Ended(tail) && !IsNumeral(tail[0])
    requires Decimal(whole) < 0x8000_0000_0000_0000 && Decimal(fraction) < 0x1_0000_0000_0000_0000
    ensures var r := (if minus then "-" else "") + (Token(whole, fraction) + tail);
      && Ended(r) && (IsNumeral(r[0]) || r[0] == '-')
      && ParseNumber(r) == Parsed(Number(NumberOf(minus, whole, fraction)), Skip(tail))
  {
    hide GetNumeral, GetChar, Real, Skip, Token, Decimal, Tens, IsNumeral;
    TokenIsRead(whole, fraction);
    TokenEnds(whole, fraction, tail);
    MinusIsNone();
    var r := Token(whole, fraction) + tail;
    if minus {
      MinusIsRead(r);
    } else {
      assert "" + r == r;
    }
  }

  // ------------------------------------------------------------------ names

  lemma VerbatimIsRead(s: string, q: string)
    requires Verbatim(s) && Ended(q) && q[0] == '"'
    ensures Ended(s + q) && GetChar("\"" + (s + q)) == Parsed('"', s + q)
    ensures GetUntil(s + q, '"') == Parsed(s, q)
  {
    hide Until;
    assert ("\"" + (s + q))[1..] == s + q;
    assert (s + q)[0] == s[0];
    UntilFound(s, q);
    assert (s + q)[..|s|] == s && (s + q)[|s|..] == q;
  }

  lemma CharIsRead(c: char, b: string, rest: string)
    requires White(b) && Ended(rest) && rest[0] as int !in {9, 10, 13, 32} && c != '\0'
    ensures Ended([c] + (b + rest)) && GetChar([c] + (b + rest)) == Parsed(c, rest)
  {
    assert ([c] + (b + rest))[1..] == b + rest;
    WhiteToText(b, rest);
  }

  /** A name, its colon and the white space around it. */
  lemma NamePartIsRead(name: string, before: string, after: string, rest: string)
    requires Verbatim(name) && White(before) && White(after) && Ended(rest) && rest[0] as int !in {9, 10, 13, 32}
    ensures var r := "\"" + (name + ("\"" + (before + (":" + (after + rest)))));
      Ended(r) && ParseLead(r) == Parsed(Lead(name, ""), rest)
  {
    hide GetUntil, GetChar, Verbatim, White, ParseLead;
    var r3 := ":" + (after + rest);
    var r2 := "\"" + (before + r3);
    CharIsRead(':', after, rest);
    CharIsRead('"', before, r3);
    VerbatimIsRead(name, r2);
    NamedLead("\"" + (name + r2), name + r2, r2, r3, rest, name);
  }

  /** A string without a name, as it stands. */
  lemma BareStringIsRead(text: string, after: string, rest: string)
    requires Verbatim(text) && White(after) && Ended(rest) && rest[0] as int !in {9, 10, 13, 32} && rest[0] != ':'
    ensures var r := "\"" + (text + ("\"" + (after + rest)));
      Ended(r) && ParseLead(r) == Parsed(Lead("", text), rest)
  {
    hide GetUntil, GetChar, Verbatim, White;
    CharIsRead('"', after, rest);
    VerbatimIsRead(text, "\"" + (after + rest));
  }

  // ------------------------------------------------------------------ values

  /** What may come behind the white space after a value inside a list. */
  predicate Behind(tail: string) {
    |tail| >= 2 && Ended(tail) && (tail[0] == ',' || tail[0] == ']' || tail[0] == '}')
  }

  /** r starts with a value, which is read up to the tail. */
  ghost predicate ReadsAs(r: string, v: Value, tail: string) {
    StartsValue(r) && (r[0] == '"' <==> v.Str?) && ParseValue(r) == Parsed(v, tail)
  }

  lemma AfterValue(after: string, tail: string)
    requires White(after) && Behind(tail)
    ensures var r := after + tail; Ended(r) && |r| >= 2 && !IsNumeral(r[0]) && Skip(r) == tail
  {
    WhiteToText(after, tail);
  }

  lemma NumberText(minus: bool, whole: string, fraction: string, x: string)
    ensures RenderBody(Num(minus, whole, fraction)) + x == (if minus then "-" else "") + (Token(whole, fraction) + x)
  {
    var sign, t := if minus then "-" else "", Token(whole, fraction);
    Regroup(sign, whole, if fraction == "" then "" else "." + fraction);
    Regroup(sign, t, x);
  }

  lemma NumberReads(minus: bool, whole: string, fraction: string, after: string, tail: string)
    requires BodyOk(Num(minus, whole, fraction), true) && White(after) && Behind(tail)
    ensures ReadsAs(RenderBody(Num(minus, whole, fraction)) + (after + tail), ValueOf(Num(minus, whole, fraction)), tail)
  {
    hide ParseNumber, Skip, Token, Decimal, Tens, RenderBody, White, NumberOf, DigitsOnly;
    AfterValue(after, tail);
    NumIsRead(minus, whole, fraction, after + tail);
    NumberText(minus, whole, fraction, after + tail);
  }

  lemma QuotedText(text: string, plain: string, x: string)
    ensures RenderBody(Quoted(text, plain)) + x == "\"" + (text + ("\"" + x))
  {
    Regroup("\"" + text, "\"", x);
    Regroup("\"", text, "\"" + x);
  }

  lemma QuotedReads(text: string, plain: string, after: string, tail: string)
    requires Spells(text, plain) && White(after) && Behind(tail)
    ensures ReadsAs(RenderBody(Quoted(text, plain)) + (after + tail), Str(plain), tail)
  {
    hide ParseQuoted, Skip, Spells, RenderBody, White;
    AfterValue(after, tail);
    QuotedTextIsRead(text, plain, after + tail);
    QuotedText(text, plain, after + tail);
  }

  lemma WordReads(b: Body, after: string, tail: string)
    requires (b.NullWord? || b.BoolWord?) && White(after) && Behind(tail)
    ensures ReadsAs(RenderBody(b) + (after + tail), ValueOf(b), tail)
  {
    hide ParseLiteral, Skip;
    AfterValue(after, tail);
    if b.NullWord? {
      NullIsRead(after + tail);
    } else if b.isTrue {
      TrueIsRead(after + tail);
    } else {
      FalseIsRead(after + tail);
    }
  }

  // ------------------------------------------------------------------ elements and lists

  lemma NamedDoc(d: Doc, tail: string)
    requires d.name != ""
    ensures var b := RenderBody(d.body) + (d.after + tail);
      Render(d) + tail == "\"" + (d.name + ("\"" + (d.beforeColon + (":" + (d.afterColon + b)))))
  {
    hide RenderBody;
    var b := RenderBody(d.body);
    var n := "\"" + d.name + "\"" + d.beforeColon + ":" + d.afterColon;
    assert n + b + d.after + tail == n + (b + (d.after + tail));
    assert n + (b + (d.after + tail)) == "\"" + (d.name + ("\"" + (d.beforeColon + (":" + (d.afterColon + (b + (d.after + tail)))))));
  }

  lemma NamelessDoc(d: Doc, tail: string)
    requires d.name == ""
    ensures Render(d) + tail == RenderBody(d.body) + (d.after + tail)
  {
    hide RenderBody;
    var b := RenderBody(d.body);
    assert "" + b + d.after == b + d.after;
    Regroup(b, d.after, tail);
  }

  /** An element whose value is read. */
  lemma DocFromBody(d: Doc, tail: string)
    requires DocOk(d) && Numeric(d.body) && (Behind(tail) || (d.body.List? && Ended(tail) && tail[0] as int !in {9, 10, 13, 32}))
    requires d.name != "" || !d.body.Quoted? ==> ReadsAs(RenderBody(d.body) + (d.after + tail), ValueOf(d.body), tail)
    ensures StartsValue(Render(d) + tail) && ParseElem(Render(d) + tail) == Parsed(TreeOf(d), tail)
  {
    hide ParseLead, ParseValue, Render, White, BodyOk, Skip;
    var r := RenderBody(d.body) + (d.after + tail);
    if d.name != "" {
      NamedDoc(d, tail);
      hide RenderBody;
      NamePartIsRead(d.name, d.beforeColon, d.afterColon, r);
    } else {
      NamelessDoc(d, tail);
      if d.body.Quoted? {
        BareDoc(d, tail);
      } else {
        hide RenderBody;
        NoLead(r);
      }
    }
  }

  lemma TextIsThere(s: string)
    requires Verbatim(s)
    ensures s != ""
  {
  }

  lemma BareDoc(d: Doc, tail: string)
    requires DocOk(d) && d.name == "" && d.body.Quoted? && Behind(tail)
    ensures var r := RenderBody(d.body) + (d.after + tail);
      Ended(r) && r[0] == '"' && ParseLead(r) == Parsed(Lead("", d.body.plain), tail) && d.body.plain != ""
  {
    hide ParseLead, White;
    hide RenderBody, Verbatim;
    BareStringIsRead(d.body.text, d.after, tail);
    QuotedText(d.body.text, d.body.plain, d.after + tail);
    TextIsThere(d.body.plain);
  }

  lemma ItemsStep(items: seq<Doc>, q: string)
    requires items != []
    ensures RenderItems(items) + q ==
      Render(items[0]) + if |items| == 1 then q else "," + (items[0].gap + (RenderItems(items[1..]) + q))
  {
    var x := Render(items[0]);
    hide Render;
    if |items| == 1 {
      assert x + "" == x;
    } else {
      CommaParts(x, items[0].gap, RenderItems(items[1..]), q);
    }
  }

  lemma CommaParts(x: string, gap: string, more: string, q: string)
    ensures x + ("," + gap + more) + q == x + ("," + (gap + (more + q)))
  {
    Regroup(x, "," + gap + more, q);
    Regroup("," + gap, more, q);
    Regroup(",", gap, more + q);
  }

  lemma {:induction false} ItemsAreRead(items: seq<Doc>, end: char, tail: string)
    requires ItemsOk(items) && AllNumeric(items) && Ended(tail) && (end == ']' || end == '}')
    ensures var r := RenderItems(items) + ([end] + tail);
      && (items != [] ==> StartsValue(r)) && Ended(r)
      && ParseChildren(r, end) == Parsed(TreesOf(items), Skip(tail))
    decreases items, 1
  {
    hide ParseElem, ParseChildren, Render, RenderItems, Skip, DocOk, ValueOf, Numeric;
    var q := [end] + tail;
    EndIsRead(end, tail);
    if items == [] {
      NoItems(q);
    } else {
      ItemsStep(items, q);
      var rest := items[1..];
      if rest == [] {
        DocIsRead(items[0], q);
        ChildIsRead(Render(items[0]) + q, end, TreeOf(items[0]), [], q, Skip(tail));
        assert [TreeOf(items[0])] + [] == [TreeOf(items[0])];
      } else {
        ItemsAreRead(rest, end, tail);
        var y := RenderItems(rest) + q;
        var next := "," + (items[0].gap + y);
        GapSkipped(items[0], y, end);
        DocIsRead(items[0], next);
        ChildIsRead(Render(items[0]) + next, end, TreeOf(items[0]), TreesOf(rest), next, Skip(tail));
      }
    }
  }

  lemma NoItems(q: string)
    ensures RenderItems([]) + q == q
  {
    assert "" + q == q;
  }

  lemma GapSkipped(d: Doc, y: string, end: char)
    requires DocOk(d) && StartsValue(y) && (end == ']' || end == '}')
    ensures var next := "," + (d.gap + y); Behind(next) && ParseChildren(next, end) == ParseChildren(y, end)
  {
    hide ParseChildren, BodyOk;
    WhiteToText(d.gap, y);
    CommaIsSkipped(d.gap + y, end);
  }

  lemma {:induction false} DocIsRead(d: Doc, tail: string)
    requires DocOk(d) && Numeric(d.body) && (Behind(tail) || (d.body.List? && Ended(tail) && tail[0] as int !in {9, 10, 13, 32}))
    ensures StartsValue(Render(d) + tail) && ParseElem(Render(d) + tail) == Parsed(TreeOf(d), tail)
    decreases d, 3
  {
    hide ParseElem, Render, RenderBody, Skip, ReadsAs, White, ValueOf, BodyOk, Numeric;
    BodyReads(d, tail);
    DocFromBody(d, tail);
  }

  lemma {:induction false} BodyReads(d: Doc, tail: string)
    requires DocOk(d) && Numeric(d.body) && (Behind(tail) || (d.body.List? && Ended(tail) && tail[0] as int !in {9, 10, 13, 32}))
    ensures d.name != "" || !d.body.Quoted? ==> ReadsAs(RenderBody(d.body) + (d.after + tail), ValueOf(d.body), tail)
    decreases d, 2
  {
    hide RenderBody, ReadsAs, White;
    match d.body
    case NullWord => WordReads(d.body, d.after, tail);
    case BoolWord(isTrue) => WordReads(d.body, d.after, tail);
    case Num(minus, whole, fraction) => NumberReads(minus, whole, fraction, d.after, tail);
    case Quoted(text, plain) =>
      if d.name != "" {
        QuotedReads(text, plain, d.after, tail);
      }
    case List(isObject, open, items) => ListReads(d, tail);
  }

  lemma {:induction false} ListReads(d: Doc, tail: string)
    requires DocOk(d) && Numeric(d.body) && d.body.List? && Ended(tail) && tail[0] as int !in {9, 10, 13, 32}
    ensures ReadsAs(RenderBody(d.body) + (d.after + tail), ValueOf(d.body), tail)
    decreases d, 1
  {
    hide ParseChildren, Skip, RenderItems, TreesOf, ItemsOk, AllNumeric, RenderBody, ReadsAs, White;
    var b, x := d.body, d.after + tail;
    var end := if b.isObject then '}' else ']';
    var y := RenderItems(b.items) + ([end] + x);
    WhiteToText(d.after, tail);
    ItemsAreRead(b.items, end, x);
    NoItems([end] + x);
    WhiteToText(b.open, y);
    ListText(b.isObject, b.open, b.items, x);
    BracketIsRead(b.isObject, b.open, y, TreesOf(b.items), tail);
  }

  lemma ListText(isObject: bool, open: string, items: seq<Doc>, x: string)
    ensures var first, end := if isObject then "{" else "[", if isObject then '}' else ']';
      RenderBody(List(isObject, open, items)) + x == first + (open + (RenderItems(items) + ([end] + x)))
  {
    var first, last, t := if isObject then "{" else "[", if isObject then "}" else "]", RenderItems(items);
    hide RenderItems;
    Regroup(first + open + t, last, x);
    Regroup(first + open, t, last + x);
    Regroup(first, open, t + (last + x));
  }

  lemma BracketIsRead(isObject: bool, open: string, y: string, list: seq<Elem>, tail: string)
    requires Ended(y) && Skip(open + y) == y && Ended(open + y)
    requires ParseChildren(y, if isObject then '}' else ']') == Parsed(list, tail)
    ensures ReadsAs((if isObject then "{" else "[") + (open + y), if isObject then Object(list) else Array(list), tail)
  {
    hide ParseChildren, Skip;
    var first := if isObject then "{" else "[";
    assert (first + (open + y))[1..] == open + y;
  }

  /** Main result.  Every text of an object or array is read as the tree it stands for, to its end. */
  lemma TextIsRead(front: string, d: Doc)
    requires White(front) && DocOk(d) && d.body.List?
    ensures Numeric(d.body) && Parse(front + Render(d)) == Parsed(TreeOf(d), "\0")
  {
    hide ParseElem, Render, Skip, BodyOk, Numeric, White;
    OkIsNumeric(d.body, d.name != "");
    DocIsRead(d, "\0");
    var r := Render(d) + "\0";
    WhiteToText(front, r);
    Regroup(front, Render(d), "\0");
    NeverEmpty(d);
  }

  lemma NeverEmpty(d: Doc)
    requires d.body.List?
    ensures Render(d) != ""
  {
    hide RenderItems;
  }
}
