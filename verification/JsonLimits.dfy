/** Exactly which names, and which strings without a name, json.c reads back: it looks for the first quote
    character and does not undo the escapes there. */
module JsonLimits {
  import opened JsonText
  import opened JsonGrammar
  import opened JsonRoundTrip

  /** What is taken as the name or the value of an element whose text starts with s in quotes. */
  function Token(s: string, q: string): string
    requires Ended(q)
  {
    EndedAfter(EscapeAll(s), q);
    var r := Skip(EscapeAll(s) + q);
    r[..Until(r, '"')]
  }

  lemma EndedAfter(t: string, q: string)
    requires Ended(q)
    ensures Ended(t + q)
  {
  }

  lemma {:induction false} EscapingLengthens(s: string)
    ensures |EscapeAll(s)| >= |s|
    ensures |EscapeAll(s)| == |s| ==> Unescaped(s)
  {
    if s != "" {
      EscapingLengthens(s[1..]);
      assert forall i :: 0 < i < |s| ==> s[i] == s[1..][i - 1];
    }
  }

  lemma {:induction false} QuoteEscaped(s: string)
    requires '"' !in s
    ensures '"' !in EscapeAll(s)
  {
    if s != "" {
      QuoteEscaped(s[1..]);
    }
  }

  lemma {:induction false} UntilExcludes(r: string, c: char)
    requires Ended(r)
    ensures c !in r[..Until(r, c)]
  {
    var n := Until(r, c);
    if n > 0 {
      UntilExcludes(r[1..], c);
      assert r[..n] == [r[0]] + r[1..][..n - 1];
    }
  }

  lemma FirstEscaped(s: string)
    requires s != ""
    ensures EscapeAll(s) != "" && EscapeAll(s)[0] != '"' && (s[0] != ' ' ==> !IsBlank(EscapeAll(s)[0]))
  {
  }

  /** Text that is not plain is never taken as it is. */
  lemma TokenDiffers(s: string, q: string)
    requires s != "" && !Plain(s) && Ended(q) && q[0] == '"'
    ensures Token(s, q) != s
  {
    var t := EscapeAll(s);
    var r := Skip(t + q);
    UntilExcludes(r, '"');
    FirstEscaped(s);
    if s[0] == ' ' {
      assert Token(s, q) != "" ==> Token(s, q)[0] == r[0];
    } else if '"' !in s {
      QuoteEscaped(s);
      SkipNothing(t + q);
      UntilFound(t, q);
      assert (t + q)[..|t|] == t;
      EscapingLengthens(s);
    }
  }

  /** Only blanks are taken as an empty text, and then nothing is left of them. */
  lemma {:induction false} EmptyToken(s: string, q: string)
    requires Ended(q) && q[0] == '"' && Token(s, q) == ""
    ensures Skip(EscapeAll(s) + q) == q
  {
    hide Until, Escape;
    if s == "" {
      assert EscapeAll(s) + q == q;
    } else {
      FirstEscaped(s);
      if s[0] == ' ' {
        BlankNotEscaped();
        assert EscapeAll(s) + q == " " + (EscapeAll(s[1..]) + q);
        BlankIsSkipped(' ', EscapeAll(s[1..]) + q);
        EmptyToken(s[1..], q);
      } else {
        SkipNothing(EscapeAll(s) + q);
        UntilNotZero(EscapeAll(s) + q);
      }
    }
  }

  lemma BlankNotEscaped()
    ensures Escape(' ') == " "
  {
  }

  lemma UntilNotZero(r: string)
    requires Ended(r) && |r| > 1 && r[0] != '"'
    ensures Until(r, '"') > 0
  {
  }

  /** Whatever follows, the leading text of an element is the token. */
  lemma LeadIsToken(s: string, q: string)
    requires |q| >= 2 && Ended(q) && q[0] == '"'
    ensures var p := ParseLead("\"" + (EscapeAll(s) + q));
            p.Parsed? ==> p.value == Lead("", Token(s, q)) || p.value == Lead(Token(s, q), "")
    ensures Token(s, q) == "" ==>
              var r := Skip(q[1..]);
              r[0] != ':' && r[0] != '\0' ==> ParseLead("\"" + (EscapeAll(s) + q)) == Parsed(Lead("", ""), r)
  {
    hide EscapeAll, Until;
    var t := EscapeAll(s);
    assert ("\"" + (t + q))[1..] == t + q;
    if Token(s, q) == "" {
      EmptyToken(s, q);
      QuoteFirst(q);
      assert q[..0] == "" && q[0..] == q;
      SkipNothing(q);
    }
  }

  lemma QuoteFirst(q: string)
    requires Ended(q) && q[0] == '"'
    ensures Until(q, '"') == 0
  {
  }

  /** A string without a name reads back exactly when it is plain. */
  lemma StringReadsBackIffPlain(s: string, tail: string)
    requires Follows(tail) && (tail[0] == ',' || tail[0] == ']')
    ensures var r := "\"" + (EscapeAll(s) + ("\"" + tail));
            Ended(r) && (ParseElem(r) == Parsed(Elem("", Str(s)), Skip(tail)) <==> Plain(s))
  {
    hide EscapeAll, ParseLead, ParseValue, Token, Plain;
    var q := "\"" + tail;
    var r := "\"" + (EscapeAll(s) + q);
    assert q[1..] == tail;
    if Plain(s) {
      PlainText(s);
      StringIsRead(s, tail);
    } else {
      LeadIsToken(s, q);
      SkipNothing(tail);
      NoValueHere(tail);
      if s != "" {
        TokenDiffers(s, q);
      }
    }
  }

  lemma PlainText(s: string)
    requires Plain(s)
    ensures EscapeAll(s) == s && s != ""
  {
    PlainIsNotEscaped(s);
  }

  lemma NoValueHere(r: string)
    requires Ended(r) && (r[0] == ',' || r[0] == ']')
    ensures ParseValue(r) == Failed
  {
  }

  /** A named element reads back exactly when its name is plain. */
  lemma NameReadsBackIffPlain(e: Elem, indent: nat, tail: string)
    requires e.name != "" && Reads(e.value, indent, tail) && Ended(tail) && (e.value.Str? ==> Follows(tail))
    ensures var r := Skip(ElemText(e, indent, false) + tail);
            Ended(r) && (ParseElem(r) == Parsed(e, Skip(tail)) <==> Plain(e.name))
  {
    hide EscapeAll, ParseLead, ParseValue, Token, Plain, Skip, ElemText, Reads, StartsValue;
    if Plain(e.name) {
      ElemIsRead(e, indent, false, tail);
      StartsEnded(Skip(ElemText(e, indent, false) + tail));
    } else {
      NameInFront(e, indent, tail);
    }
  }

  lemma StartsEnded(r: string)
    requires StartsValue(r)
    ensures Ended(r)
  {
  }

  lemma NameInFront(e: Elem, indent: nat, tail: string)
    requires e.name != "" && !Plain(e.name) && Ended(tail)
    ensures var r := Skip(ElemText(e, indent, false) + tail);
            Ended(r) && ParseElem(r) != Parsed(e, Skip(tail))
  {
    hide EscapeAll, ParseLead, ParseValue, Token, Plain, ValueText, Spaces;
    var n := e.name;
    var blanks: nat := if |n| < NAME_MIN_LEN then NAME_MIN_LEN - |n| else 0;
    var rest := ": " + Spaces(blanks) + ValueText(e.value, indent) + tail;
    var q := "\"" + rest;
    var r := "\"" + (EscapeAll(n) + q);
    assert ElemText(e, indent, false) + tail == Spaces(indent) + r;
    SpacesAreSkipped(indent, r);
    SkipNothing(r);
    LeadIsToken(n, q);
    TokenDiffers(n, q);
  }
}
