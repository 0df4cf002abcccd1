/** Reading back the text that json.c writes gives the same element. */
module JsonRoundTrip {
  import opened Hex
  import opened JsonText
  import opened JsonGrammar

  predicate Bytes(s: string) {
    forall i :: 0 <= i < |s| ==> s[i] as int < 256
  }

  predicate AllDigits(s: string) {
    forall i :: 0 <= i < |s| ==> '0' <= s[i] <= '9'
  }

  predicate Unescaped(s: string) {
    forall i :: 0 <= i < |s| ==> Printable(s[i]) && ShortEscape(s[i]) == ""
  }

  /** Text that is written as it is and read back as a name: not empty, nothing to escape, no blank in front. */
  predicate Plain(s: string) {
    s != "" && s[0] != ' ' && Unescaped(s)
  }

  /** Arrays hold values without a name, objects hold named ones; strings in arrays are plain. */
  predicate Readable(v: Value)
    decreases v
  {
    match v
    case Null => true
    case Bool(_) => true
    case Number(_) => true
    case Str(text) => Bytes(text)
    case Array(list) => forall e <- list :: e.name == "" && (e.value.Str? ==> Plain(e.value.text)) && Readable(e.value)
    case Object(list) => forall e <- list :: Plain(e.name) && Readable(e.value)
  }

  /** Text that can follow a value inside a list. */
  predicate Follows(tail: string) {
    && |tail| >= 2 && Ended(tail)
    && (tail[0] == ',' || tail[0] == '\n' || tail[0] == ']' || tail[0] == '}')
    && Skip(tail)[0] != ':'
  }

  // ------------------------------------------------------------------ strings

  lemma {:induction false} PlainIsNotEscaped(s: string)
    requires Unescaped(s)
    ensures EscapeAll(s) == s
  {
    if s != "" {
      PlainIsNotEscaped(s[1..]);
    }
  }

  /** A character that neither ends a quoted text nor escapes. */
  predicate Neutral(c: char) {
    c != '"' && c != '\\' && c != '\n'
  }

  lemma ShortShape(c: char)
    requires ShortEscape(c) != ""
    ensures ShortEscape(c)[0] == '\\' && ShortEscape(c)[1] != '\n'
  {
  }

  lemma EscapeShape(c: char)
    ensures var e := Escape(c);
            if |e| == 1 then Neutral(e[0])
            else e[0] == '\\' && e[1] != '\n' && (|e| == 2 || (|e| == 6 && forall k {:trigger e[k]} :: 2 <= k < 6 ==> Neutral(e[k])))
  {
    if ShortEscape(c) != "" {
      ShortShape(c);
    }
  }

  /** The scan for the closing quote passes an escaped character. */
  lemma EscapeIsPassed(r: string, i: nat, c: char)
    requires Ended(r) && i + |Escape(c)| < |r| - 1 && r[i..i + |Escape(c)|] == Escape(c)
    ensures ClosingQuote(r, i, false) == ClosingQuote(r, i + |Escape(c)|, false)
  {
    hide Escape;
    var e := Escape(c);
    EscapeShape(c);
    assert forall k {:trigger r[k]} :: i <= k < i + |e| ==> r[k] == e[k - i];
    assert r[i] == e[0];
    if |e| > 1 {
      assert r[i + 1] == e[1];
      assert ClosingQuote(r, i, false) == ClosingQuote(r, i + 1, true) == ClosingQuote(r, i + 2, false);
      if |e| == 6 {
        assert Neutral(r[i + 2]) && Neutral(r[i + 3]) && Neutral(r[i + 4]) && Neutral(r[i + 5]);
        assert ClosingQuote(r, i + 2, false) == ClosingQuote(r, i + 3, false) == ClosingQuote(r, i + 4, false);
      }
    }
  }

  lemma EscapeInFront(r: string, i: nat, e: string, rest: string)
    requires i <= |r| && r[i..] == e + rest
    ensures i + |e| <= |r| && r[i..i + |e|] == e && r[i + |e|..] == rest
  {
    assert r[i..][..|e|] == e && r[i..][|e|..] == rest;
  }

  lemma QuoteHere(r: string, i: nat, q: string)
    requires Ended(r) && i <= |r| && r[i..] == EscapeAll("") + q && |q| >= 2 && q[0] == '"'
    ensures ClosingQuote(r, i, false) == Some(i) && EscapeAll("") == ""
  {
    assert r[i] == r[i..][0];
  }

  lemma EscapeAllStep(s: string)
    requires s != ""
    ensures EscapeAll(s) == Escape(s[0]) + EscapeAll(s[1..])
  {
  }

  lemma {:induction false} QuoteIsFound(r: string, i: nat, s: string, q: string)
    requires Ended(r) && i <= |r| && r[i..] == EscapeAll(s) + q && |q| >= 2 && q[0] == '"'
    ensures ClosingQuote(r, i, false) == Some(i + |EscapeAll(s)|)
    decreases |s|
  {
    hide ClosingQuote, Escape, EscapeAll, Ended;
    if s == "" {
      QuoteHere(r, i, q);
    } else {
      var e, t := Escape(s[0]), EscapeAll(s[1..]);
      EscapeAllStep(s);
      Regroup(e, t, q);
      EscapeInFront(r, i, e, t + q);
      EscapeIsPassed(r, i, s[0]);
      QuoteIsFound(r, i + |e|, s[1..], q);
    }
  }

  lemma ShortIsUndone(c: char)
    requires ShortEscape(c) != ""
    ensures ShortEscape(c)[0] == '\\' && ShortEscape(c)[1] != 'u' && Unshort(ShortEscape(c)[1]) == Some(c)
  {
  }

  lemma EscapeIsUndone(c: char, rest: string)
    requires c as int < 256
    ensures Unescape(Escape(c) + rest) == Prepend(c, Unescape(rest))
  {
    hide ShortEscape, Unshort, FromHex, Hex2, Prepend;
    var e := Escape(c);
    var s := e + rest;
    assert s[|e|..] == rest && s[..|e|] == e;
    if ShortEscape(c) != "" {
      ShortIsUndone(c);
      assert s[0] == e[0] && s[1] == e[1];
    } else if Printable(c) {
      assert s[0] == c;
      NotABackslash(c);
    } else {
      HexRoundTrip(c);
      assert s[0] == e[0] && s[1] == e[1] && s[4] == e[4] && s[5] == e[5];
    }
  }

  lemma NotABackslash(c: char)
    requires ShortEscape(c) == ""
    ensures c != '\\'
  {
  }

  /** Unescaping undoes escaping, for any bytes. */
  lemma {:induction false} UnescapeUndoesEscape(s: string)
    requires Bytes(s)
    ensures Unescape(EscapeAll(s)) == Some(s)
  {
    if s != "" {
      UnescapeUndoesEscape(s[1..]);
      EscapeIsUndone(s[0], EscapeAll(s[1..]));
      assert [s[0]] + s[1..] == s;
    }
  }

  lemma QuotedParts(t: string, q: string)
    requires q != ""
    ensures var r := "\"" + (t + q);
            && r[1..] == t + q && r[1..1 + |t|] == t && r[1 + |t|..] == q && r[|t| + 2..] == q[1..]
  {
    var r := "\"" + (t + q);
    assert r[1..] == t + q;
    EscapeInFront(r, 1, t, q);
  }

  lemma QuotedIsRead(s: string, tail: string)
    requires Ended(tail) && Bytes(s)
    ensures var r := "\"" + (EscapeAll(s) + ("\"" + tail));
            Ended(r) && ParseQuoted(r) == Parsed(s, Skip(tail))
  {
    hide EscapeAll, ClosingQuote, Unescape, Bytes, Skip;
    var t, q := EscapeAll(s), "\"" + tail;
    var r := "\"" + (t + q);
    assert q[1..] == tail;
    QuotedParts(t, q);
    QuoteIsFound(r, 1, s, q);
    UnescapeUndoesEscape(s);
  }

  // ------------------------------------------------------------------ numbers

  lemma {:induction false} DigitsAreNumerals(n: nat)
    ensures AllDigits(Digits(n))
    decreases n
  {
    if n >= 10 {
      DigitsAreNumerals(n / 10);
    }
  }

  lemma {:induction false} DigitsSpell(n: nat)
    requires n < 0x1_0000_0000_0000_0000
    ensures Unsigned(Digits(n)) == n
    decreases n
  {
    var d := Digits(n);
    if n >= 10 {
      DigitsSpell(n / 10);
      assert d[..|d| - 1] == Digits(n / 10);
    } else {
      assert d[..0] == "";
    }
  }

  lemma {:induction false} DigitsLead(s: string)
    requires AllDigits(s)
    ensures LeadingDigits(s) == s && IndexOf(s, '.') == |s|
  {
    if s != "" {
      DigitsLead(s[1..]);
    }
  }

  lemma {:induction false} NumeralEnds(s: string, tail: string)
    requires AllDigits(s)
    requires Ended(tail) && !IsNumeral(tail[0])
    ensures Ended(s + tail) && NumeralLen(s + tail) == |s|
  {
    if s == "" {
      assert s + tail == tail;
    } else {
      assert (s + tail)[1..] == s[1..] + tail;
      NumeralEnds(s[1..], tail);
    }
  }

  lemma DigitsAreRead(n: nat, tail: string)
    requires n < 0x8000_0000_0000_0000 && Ended(tail) && !IsNumeral(tail[0])
    ensures Ended(Digits(n) + tail) && GetNumeral(Digits(n) + tail) == Parsed(Digits(n), Skip(tail))
    ensures Real(Digits(n)) == n as real
  {
    var d := Digits(n);
    DigitsAreNumerals(n);
    NumeralEnds(d, tail);
    DigitsLead(d);
    DigitsSpell(n);
    assert (d + tail)[..|d|] == d && (d + tail)[|d|..] == tail;
    assert d[..|d|] == d;
  }

  lemma DigitsStart(n: nat, tail: string)
    ensures IsNumeral((Digits(n) + tail)[0])
  {
    DigitsAreNumerals(n);
  }

  lemma MinusIsRead(r: string)
    requires Ended(r) && IsNumeral(r[0])
    ensures GetChar("-" + r) == Parsed('-', r)
  {
    assert ("-" + r)[1..] == r;
    SkipNothing(r);
  }

  lemma NumberIsRead(x: real, tail: string)
    requires Integral(x) && Ended(tail) && !IsNumeral(tail[0])
    ensures var r := IntText(x.Floor) + tail;
            Ended(r) && (IsNumeral(r[0]) || r[0] == '-') && ParseNumber(r) == Parsed(Number(x), Skip(tail))
  {
    hide Digits, GetNumeral, GetChar, Real, Skip;
    var n := x.Floor;
    if n < 0 {
      DigitsAreRead(-n, tail);
      DigitsStart(-n, tail);
      var r := Digits(-n) + tail;
      assert IntText(n) + tail == "-" + r;
      MinusIsRead(r);
    } else {
      DigitsAreRead(n, tail);
      DigitsStart(n, tail);
    }
  }

  lemma SkipNothing(r: string)
    requires r != "" && !IsBlank(r[0])
    ensures Skip(r) == r
  {
  }

  // ------------------------------------------------------------------ names

  lemma {:induction false} UntilFound(s: string, rest: string)
    requires '"' !in s && Ended(rest) && rest[0] == '"'
    ensures Ended(s + rest) && Until(s + rest, '"') == |s|
  {
    if s == "" {
      assert s + rest == rest;
    } else {
      assert (s + rest)[1..] == s[1..] + rest;
      UntilFound(s[1..], rest);
    }
  }

  lemma {:induction false} SpacesAreSkipped(n: nat, rest: string)
    ensures Skip(Spaces(n) + rest) == Skip(rest)
  {
    if n == 0 {
      assert Spaces(0) + rest == rest;
    } else {
      assert (Spaces(n) + rest)[1..] == Spaces(n - 1) + rest;
      SpacesAreSkipped(n - 1, rest);
    }
  }

  /** A plain text up to the quote that ends it. */
  lemma PlainIsRead(s: string, q: string)
    requires Plain(s) && Ended(q) && q[0] == '"'
    ensures Ended(s + q) && GetChar("\"" + (s + q)) == Parsed('"', s + q)
    ensures GetUntil(s + q, '"') == Parsed(s, q)
  {
    hide Until;
    assert ("\"" + (s + q))[1..] == s + q;
    assert (s + q)[0] == s[0];
    UntilFound(s, q);
    assert (s + q)[..|s|] == s && (s + q)[|s|..] == q;
  }

  lemma QuoteIsRead(t: string)
    requires Ended(t)
    ensures GetChar("\": " + t) == Parsed('"', ": " + t)
  {
    assert ("\": " + t)[1..] == ": " + t;
  }

  lemma ColonIsRead(t: string)
    requires Ended(t)
    ensures GetChar(": " + t) == Parsed(':', Skip(t))
  {
    assert (": " + t)[1..] == " " + t && (" " + t)[1..] == t;
  }

  /** The parts of a name with its quotes and colon. */
  lemma NamedLead(r: string, r1: string, r2: string, r3: string, rest: string, name: string)
    requires Ended(r) && Ended(r1) && Ended(r2) && Ended(r3) && r[0] == '"' && r3[0] == ':'
    requires GetChar(r) == Parsed('"', r1) && GetUntil(r1, '"') == Parsed(name, r2)
    requires GetChar(r2) == Parsed('"', r3) && GetChar(r3) == Parsed(':', rest)
    ensures ParseLead(r) == Parsed(Lead(name, ""), rest)
  {
    hide GetChar, GetUntil;
  }

  lemma NameIsRead(name: string, blanks: nat, rest: string)
    requires Plain(name) && Ended(rest) && !IsBlank(rest[0])
    ensures var r := "\"" + (name + ("\": " + (Spaces(blanks) + rest)));
            Ended(r) && ParseLead(r) == Parsed(Lead(name, ""), rest)
  {
    hide GetUntil, Plain, Spaces, ParseLead, GetChar;
    assert Skip(rest) == rest;
    hide Skip;
    var t := Spaces(blanks) + rest;
    var q := "\": " + t;
    PlainIsRead(name, q);
    SpacesAreSkipped(blanks, rest);
    QuoteIsRead(t);
    ColonIsRead(t);
    NamedLead("\"" + (name + q), name + q, q, ": " + t, rest, name);
  }

  lemma StringIsRead(text: string, tail: string)
    requires Plain(text) && Follows(tail)
    ensures var r := "\"" + (text + ("\"" + tail));
            Ended(r) && ParseLead(r) == Parsed(Lead("", text), Skip(tail))
  {
    hide GetUntil, Plain, Skip;
    var q := "\"" + tail;
    PlainIsRead(text, q);
    assert GetChar(q) == Parsed('"', Skip(tail)) by {
      assert q[1..] == tail;
    }
    hide GetChar;
  }

  // ------------------------------------------------------------------ elements

  predicate IsList(v: Value) {
    v.Array? || v.Object?
  }

  /** The first character of a value: no blank, comma or closing bracket. */
  predicate StartsValue(r: string) {
    Ended(r) && !IsBlank(r[0]) && r[0] != ',' && r[0] != ']' && r[0] != '}'
  }

  /** The text of v, then tail, is read as v up to the tail. */
  predicate Reads(v: Value, indent: nat, tail: string) {
    var r := ValueText(v, indent) + tail;
    StartsValue(r) && (r[0] == '"' <==> v.Str?) && ParseValue(r) == Parsed(v, Skip(tail))
  }

  /** A text does not start with a word of another first character. */
  lemma OtherWord(r: string, word: string)
    requires |word| <= |r| && word != "" && r[0] != word[0]
    ensures r[..|word|] != word
  {
    assert r[..|word|][0] == r[0];
  }

  lemma WordInFront(word: string, tail: string)
    requires word != ""
    ensures (word + tail)[..|word|] == word && (word + tail)[|word|..] == tail && (word + tail)[0] == word[0]
  {
  }

  lemma FalseIsRead(tail: string)
    requires Ended(tail)
    ensures Ended("false" + tail) && ParseLiteral("false" + tail) == Parsed(Bool(false), Skip(tail))
  {
    hide Skip;
    WordInFront("false", tail);
  }

  lemma TrueIsRead(tail: string)
    requires Ended(tail) && |tail| >= 2
    ensures Ended("true" + tail) && ParseLiteral("true" + tail) == Parsed(Bool(true), Skip(tail))
  {
    hide Skip;
    WordInFront("true", tail);
    OtherWord("true" + tail, "false");
  }

  lemma NullIsRead(tail: string)
    requires Ended(tail) && |tail| >= 2
    ensures Ended("null" + tail) && ParseLiteral("null" + tail) == Parsed(Null, Skip(tail))
  {
    hide Skip;
    WordInFront("null", tail);
    OtherWord("null" + tail, "false");
    OtherWord("null" + tail, "true");
  }

  lemma ScalarIsRead(v: Value, indent: nat, tail: string)
    requires !IsList(v) && Writable(v, indent) && Readable(v) && Follows(tail)
    ensures Reads(v, indent, tail)
  {
    hide ParseNumber, ParseQuoted, ParseLiteral, IntText, EscapeAll, Skip;
    if v.Number? {
      NumberIsRead(v.num, tail);
    } else if v.Str? {
      QuotedIsRead(v.text, tail);
      Regroup("\"" + EscapeAll(v.text), "\"", tail);
      Regroup("\"", EscapeAll(v.text), "\"" + tail);
    } else if v.Null? {
      NullIsRead(tail);
    } else if v.isTrue {
      TrueIsRead(tail);
    } else {
      FalseIsRead(tail);
    }
  }

  /** How an element may be named inside an array or an object. */
  predicate Named(e: Elem, noName: bool) {
    if noName then e.name == "" && (e.value.Str? ==> Plain(e.value.text)) else Plain(e.name)
  }

  lemma NameTextInFront(name: string, indent: nat, rest: string)
    requires Plain(name)
    ensures exists blanks: nat :: NameText(name, indent, false) + rest ==
              Spaces(indent) + ("\"" + (name + ("\": " + (Spaces(blanks) + rest))))
  {
    hide Spaces, EscapeAll;
    PlainIsNotEscaped(name);
    var blanks: nat := if |name| < NAME_MIN_LEN then NAME_MIN_LEN - |name| else 0;
    var a, q, n, c, b := Spaces(indent), "\"", name, "\": ", Spaces(blanks);
    assert NameText(name, indent, false) == a + q + n + c + b;
    Regroup(a + q + n + c, b, rest);
    Regroup(a + q + n, c, b + rest);
    Regroup(a + q, n, c + (b + rest));
    Regroup(a, q, n + (c + (b + rest)));
  }

  /** An element is read when its value is. */
  lemma ElemIsRead(e: Elem, indent: nat, noName: bool, tail: string)
    requires Named(e, noName) && Reads(e.value, indent, tail) && Ended(tail) && (e.value.Str? ==> Follows(tail))
    ensures var r := Skip(ElemText(e, indent, noName) + tail);
            StartsValue(r) && ParseElem(r) == Parsed(e, Skip(tail))
  {
    hide ValueText, ParseValue, Spaces, ParseLead, Plain, Skip;
    var v := ValueText(e.value, indent) + tail;
    if noName {
      assert ElemText(e, indent, noName) + tail == v;
      SkipNothing(v);
      if e.value.Str? {
        StringInArrayIsRead(e.value.text, indent, tail);
        TextNotEmpty(e.value.text);
      } else {
        NoLead(v);
      }
    } else {
      Regroup(NameText(e.name, indent, noName), ValueText(e.value, indent), tail);
      NameTextInFront(e.name, indent, v);
      var blanks: nat :| NameText(e.name, indent, false) + v ==
        Spaces(indent) + ("\"" + (e.name + ("\": " + (Spaces(blanks) + v))));
      var r := "\"" + (e.name + ("\": " + (Spaces(blanks) + v)));
      NameIsRead(e.name, blanks, v);
      SpacesAreSkipped(indent, r);
      SkipNothing(r);
    }
  }

  lemma TextNotEmpty(s: string)
    requires Plain(s)
    ensures s != ""
  {
  }

  lemma NoLead(r: string)
    requires Ended(r) && r[0] != '"'
    ensures ParseLead(r) == Parsed(Lead("", ""), r)
  {
  }

  lemma StringInArrayIsRead(text: string, indent: nat, tail: string)
    requires Plain(text) && Follows(tail)
    ensures var r := ValueText(Str(text), indent) + tail;
            Ended(r) && ParseLead(r) == Parsed(Lead("", text), Skip(tail))
  {
    hide ParseLead, Skip;
    PlainIsNotEscaped(text);
    StringIsRead(text, tail);
    Regroup("\"" + text, "\"", tail);
    Regroup("\"", text, "\"" + tail);
  }

  // ------------------------------------------------------------------ lists

  lemma CommaIsSkipped(r: string, end: char)
    requires Ended(r) && end != '\0' && end != ','
    ensures ParseChildren("," + r, end) == ParseChildren(Skip(r), end)
  {
    hide ParseElem;
    assert ("," + r)[1..] == r;
  }

  lemma ChildIsRead(r: string, end: char, e: Elem, list: seq<Elem>, r1: string, r2: string)
    requires StartsValue(r) && (end == ']' || end == '}')
    requires ParseElem(r) == Parsed(e, r1) && ParseChildren(r1, end) == Parsed(list, r2)
    ensures ParseChildren(r, end) == Parsed([e] + list, r2)
  {
    hide ParseElem;
  }

  lemma EndIsRead(end: char, tail: string)
    requires Ended(tail) && (end == ']' || end == '}')
    ensures Ended([end] + tail) && ParseChildren([end] + tail, end) == Parsed([], Skip(tail))
  {
    hide ParseElem;
    assert ([end] + tail)[1..] == tail;
  }

  /** What the children of an array or object must be for the round trip. */
  ghost predicate Good(list: seq<Elem>, indent: nat, noName: bool) {
    forall i {:trigger list[i]} :: 0 <= i < |list| ==>
      Named(list[i], noName) && Writable(list[i].value, indent) && Readable(list[i].value)
  }

  /** What stands between the children, and after the last one. */
  predicate Layout(blank: string, last: string) {
    (blank == " " && last == "") || (blank == "\n" && last == "\n")
  }

  /** z is what follows the last child, up to the closing bracket and then the tail. */
  predicate Closes(z: string, last: string, end: char, tail: string) {
    Ended(tail) && (end == ']' || end == '}') && Ended(z) && Skip(z) == [end] + tail && (last == "" ==> z[0] == end)
  }

  lemma LastFollows(blank: string, last: string, z: string, end: char, tail: string)
    requires Layout(blank, last) && Closes(z, last, end, tail)
    ensures Follows(last + z) && Skip(last + z) == [end] + tail
  {
    assert |z| >= 2;
    assert last != "" ==> (last + z)[1..] == z;
    assert last == "" ==> last + z == z;
  }

  lemma CommaFollows(blank: string, last: string, more: string, end: char)
    requires Layout(blank, last) && Ended(more) && (end == ']' || end == '}')
    ensures Follows("," + blank + more) && Skip("," + blank + more) == "," + blank + more
    ensures ParseChildren("," + blank + more, end) == ParseChildren(Skip(more), end)
  {
    hide ParseChildren;
    var r := blank + more;
    assert "," + blank + more == "," + r;
    assert r[1..] == more;
    CommaIsSkipped(r, end);
  }

  lemma JoinedStep(list: seq<Elem>, indent: nat, noName: bool, blank: string, last: string, z: string)
    requires list != []
    ensures Joined(list, indent, noName, "," + blank, last) + z ==
            ElemText(list[0], indent, noName) +
            if |list| == 1 then last + z else "," + blank + (Joined(list[1..], indent, noName, "," + blank, last) + z)
  {
    hide ElemText;
    var t := ElemText(list[0], indent, noName);
    if |list| == 1 {
      Regroup(t, last, z);
    } else {
      var more := Joined(list[1..], indent, noName, "," + blank, last);
      Regroup(t, "," + blank + more, z);
      Regroup("," + blank, more, z);
    }
  }

  /** A first child and the rest of the list. */
  lemma FirstAndRest(list: seq<Elem>, indent: nat, noName: bool, q: string, end: char, tail: string)
    requires list != [] && Named(list[0], noName) && Reads(list[0].value, indent, q) && Follows(q)
    requires end == ']' || end == '}'
    requires ParseChildren(Skip(q), end) == Parsed(list[1..], Skip(tail))
    ensures var r := Skip(ElemText(list[0], indent, noName) + q);
            Ended(r) && ParseChildren(r, end) == Parsed(list, Skip(tail))
  {
    hide ParseElem, ParseChildren, ElemText, Skip, Named, Reads;
    ElemIsRead(list[0], indent, noName, q);
    ChildIsRead(Skip(ElemText(list[0], indent, noName) + q), end, list[0], list[1..], Skip(q), Skip(tail));
    assert list == [list[0]] + list[1..];
  }

  lemma {:induction false} JoinedIsRead(list: seq<Elem>, indent: nat, noName: bool, blank: string, last: string,
                                        z: string, end: char, tail: string)
    requires list != [] && Good(list, indent, noName) && Layout(blank, last) && Closes(z, last, end, tail)
    ensures var r := Skip(Joined(list, indent, noName, "," + blank, last) + z);
            Ended(r) && ParseChildren(r, end) == Parsed(list, Skip(tail))
    decreases list, 0
  {
    hide ParseChildren, ElemText, Joined, Readable, Writable, Skip, Named, Follows, Reads, Layout;
    JoinedStep(list, indent, noName, blank, last, z);
    if |list| == 1 {
      LastFollows(blank, last, z, end, tail);
      EndIsRead(end, tail);
      ValueIsRead(list[0].value, indent, last + z);
      assert list[1..] == [];
      FirstAndRest(list, indent, noName, last + z, end, tail);
    } else {
      var more := Joined(list[1..], indent, noName, "," + blank, last) + z;
      JoinedIsRead(list[1..], indent, noName, blank, last, z, end, tail);
      CommaFollows(blank, last, more, end);
      ValueIsRead(list[0].value, indent, "," + blank + more);
      FirstAndRest(list, indent, noName, "," + blank + more, end, tail);
    }
  }

  lemma {:induction false} ValueIsRead(v: Value, indent: nat, tail: string)
    requires Writable(v, indent) && Readable(v) && Ended(tail) && (IsList(v) || Follows(tail))
    ensures Reads(v, indent, tail)
    decreases v, 1
  {
    if !IsList(v) {
      ScalarIsRead(v, indent, tail);
    } else {
      GoodChildren(v, indent);
      if v.children == [] {
        EmptyIsRead(v, indent, tail);
      } else if v.Array? {
        ArrayIsRead(v.children, indent, tail);
      } else {
        ObjectIsRead(v.children, indent, tail);
      }
    }
  }

  /** A list value whose children are read after its opening bracket. */
  lemma ListIsRead(v: Value, indent: nat, x: string, tail: string)
    requires IsList(v) && Ended(x)
    requires ValueText(v, indent) + tail == (if v.Array? then "[" else "{") + x
    requires ParseChildren(Skip(x), if v.Array? then ']' else '}') == Parsed(v.children, Skip(tail))
    ensures Reads(v, indent, tail)
  {
    hide ParseChildren, ValueText;
    assert (ValueText(v, indent) + tail)[1..] == x;
  }

  lemma BlankIsSkipped(c: char, r: string)
    requires IsBlank(c)
    ensures Skip([c] + r) == Skip(r)
  {
    assert ([c] + r)[1..] == r;
  }

  /** A list without children. */
  lemma EmptyIsRead(v: Value, indent: nat, tail: string)
    requires IsList(v) && v.children == [] && Ended(tail)
    ensures Reads(v, indent, tail)
  {
    hide ParseChildren, Skip, Reads;
    var end := if v.Array? then ']' else '}';
    var z := [end] + tail;
    SkipNothing(z);
    EndIsRead(end, tail);
    BlankIsSkipped(' ', z);
    assert ValueText(v, indent) + tail == (if v.Array? then "[" else "{") + (" " + z);
    ListIsRead(v, indent, " " + z, tail);
  }

  lemma GoodChildren(v: Value, indent: nat)
    requires IsList(v) && Writable(v, indent) && Readable(v)
    ensures Good(v.children, Deeper(v.children, indent), v.Array?)
    ensures v.children != [] ==> (v.children[0].name == "") == v.Array?
  {
  }

  lemma {:induction false} ArrayIsRead(list: seq<Elem>, indent: nat, tail: string)
    requires list != [] && Good(list, indent, true) && Ended(tail)
    ensures Reads(Array(list), indent, tail)
    decreases list, 1
  {
    hide ParseChildren, Joined, Skip, Plain, Reads, Writable, Readable;
    var z := "]" + tail;
    SkipNothing(z);
    JoinedIsRead(list, indent, true, " ", "", z, ']', tail);
    assert "," + " " == ", ";
    var j := Joined(list, indent, true, ", ", "");
    LineText(list, indent, j, tail);
    BlankIsSkipped(' ', j + z);
    ListIsRead(Array(list), indent, " " + (j + z), tail);
  }

  lemma {:induction false} ObjectIsRead(list: seq<Elem>, indent: nat, tail: string)
    requires list != [] && list[0].name != "" && Good(list, Deeper(list, indent), false) && Ended(tail)
    ensures Reads(Object(list), indent, tail)
    decreases list, 1
  {
    hide ParseChildren, Joined, Skip, Reads, Spaces, Good, Deeper;
    var q := "}" + tail;
    var z := Spaces(indent) + q;
    SkipNothing(q);
    SpacesAreSkipped(indent, q);
    assert "," + "\n" == ",\n";
    var deeper := Deeper(list, indent);
    JoinedIsRead(list, deeper, false, "\n", "\n", z, '}', tail);
    var j := Joined(list, deeper, false, ",\n", "\n");
    LinesText(list, indent, j, tail);
    BlankIsSkipped(' ', "\n" + (j + z));
    BlankIsSkipped('\n', j + z);
    ListIsRead(Object(list), indent, " " + ("\n" + (j + z)), tail);
  }

  lemma LineText(list: seq<Elem>, indent: nat, j: string, tail: string)
    requires list != [] && list[0].name == ""
    requires j == Joined(list, indent, true, ", ", "")
    ensures ValueText(Array(list), indent) + tail == "[" + (" " + (j + ("]" + tail)))
  {
    hide Joined;
    Regroup("[ " + j, "]", tail);
    Regroup("[ ", j, "]" + tail);
  }

  lemma LinesText(list: seq<Elem>, indent: nat, j: string, tail: string)
    requires list != [] && list[0].name != ""
    requires j == Joined(list, Deeper(list, indent), false, ",\n", "\n")
    ensures ValueText(Object(list), indent) + tail == "{" + (" " + ("\n" + (j + (Spaces(indent) + ("}" + tail)))))
  {
    hide Joined, Spaces;
    Regroup("{ " + ("\n" + j + Spaces(indent)), "}", tail);
    Regroup("{ ", "\n" + j + Spaces(indent), "}" + tail);
    Regroup("\n" + j, Spaces(indent), "}" + tail);
    Regroup("\n", j, Spaces(indent) + ("}" + tail));
  }

  /** Main result: an object or array is read back from its text, whatever follows it. */
  lemma WriteThenParse(root: Elem)
    requires IsList(root.value) && (root.name == "" || Plain(root.name))
    requires Writable(root.value, 0) && Readable(root.value)
    ensures ElemText(root, 0, false) != "" && Parse(ElemText(root, 0, false)) == Parsed(root, "\0")
  {
    hide ParseElem, ValueText, Skip, Readable, Writable, Reads;
    var noName := root.name == "";
    ValueIsRead(root.value, 0, "\0");
    ElemIsRead(root, 0, noName, "\0");
    assert ElemText(root, 0, false) == ElemText(root, 0, noName);
    SkipNothing("\0");
    TextStarts(root.value);
  }

  lemma TextStarts(v: Value)
    requires IsList(v)
    ensures ValueText(v, 0) != ""
  {
  }

  // ------------------------------------------------------------------ nesting

  predicate Indents(list: seq<Elem>) {
    list != [] && list[0].name != ""
  }

  /** How many lists with named children lie inside each other. */
  function Nesting(v: Value): nat
    decreases v
  {
    if !IsList(v) then 0
    else (if Indents(v.children) then 1 else 0) + MaxNesting(v.children)
  }

  function MaxNesting(list: seq<Elem>): nat
    decreases list
  {
    if list == [] then 0
    else
      var first, more := Nesting(list[0].value), MaxNesting(list[1..]);
      if first >= more then first else more
  }

  predicate AllIntegral(v: Value)
    decreases v
  {
    if v.Number? then Integral(v.num)
    else IsList(v) ==> forall e <- v.children :: AllIntegral(e.value)
  }

  lemma {:induction false} MaxNestingIsMax(list: seq<Elem>, bound: nat)
    ensures MaxNesting(list) <= bound <==> forall e <- list :: Nesting(e.value) <= bound
    decreases list
  {
    if list == [] {
    } else {
      MaxNestingIsMax(list[1..], bound);
      assert list == [list[0]] + list[1..];
    }
  }

  /** The blanks of indent_buf last exactly for 33 levels of named children. */
  lemma {:induction false} WritableToDepth33(v: Value, level: nat)
    requires level <= 33
    ensures Writable(v, level * INDENT_SIZE) <==> AllIntegral(v) && level + Nesting(v) <= 33
    decreases v
  {
    if IsList(v) {
      var list := v.children;
      var n := if Indents(list) then level + 1 else level;
      var indent := Deeper(list, level * INDENT_SIZE);
      assert indent == n * INDENT_SIZE;
      if n <= 33 {
        forall e <- list
          ensures Writable(e.value, indent) <==> AllIntegral(e.value) && n + Nesting(e.value) <= 33
        {
          WritableToDepth33(e.value, n);
        }
        MaxNestingIsMax(list, 33 - n);
      }
    }
  }
}
