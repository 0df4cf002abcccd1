/** Percent-escaping in string.c (RFC 3986 section 2.1). */
module PercentEscape {
  import opened Hex

  /** The characters that need no escape. */
  type Unreserved = char -> bool

  function EscapeChar(c: char, unres: Unreserved): (e: string)
    ensures |e| == 1 || |e| == 3
  {
    if unres(c) then [c] else "%" + Hex2(c)
  }

  function Escape(s: string, unres: Unreserved): (e: string)
    ensures |e| >= |s|
  {
    if s == "" then "" else EscapeChar(s[0], unres) + Escape(s[1..], unres)
  }

  /** pj_strcpy_unescape: the two characters after a percent sign count whatever they are. */
  function Unescape(s: string): string {
    if s == "" then ""
    else if s[0] == '%' && |s| >= 3 then [FromHex(s[1], s[2])] + Unescape(s[3..])
    else [s[0]] + Unescape(s[1..])
  }

  /** pj_str_unescape: only hexadecimal digits count. */
  function UnescapeHex(s: string): string {
    if s == "" then ""
    else if s[0] == '%' && |s| >= 3 && IsHex(s[1]) && IsHex(s[2]) then [FromHex(s[1], s[2])] + UnescapeHex(s[3..])
    else [s[0]] + UnescapeHex(s[1..])
  }

  predicate Bytes(s: string) {
    forall i :: 0 <= i < |s| ==> s[i] as int < 256
  }

  // ------------------------------------------------------------------ inverses

  /** One escaped character in front, when '%' is escaped. */
  lemma OneBack(c: char, unres: Unreserved, rest: string)
    requires c as int < 256 && !unres('%')
    ensures Unescape(EscapeChar(c, unres) + rest) == [c] + Unescape(rest)
    ensures UnescapeHex(EscapeChar(c, unres) + rest) == [c] + UnescapeHex(rest)
  {
    hide Hex2, FromHex, IsHex;
    HexRoundTrip(c);
    var e := EscapeChar(c, unres);
    assert (e + rest)[|e|..] == rest;
  }

  /** Both functions undo the escaping when '%' itself is escaped. */
  lemma {:induction false} UnescapeUndoesEscape(s: string, unres: Unreserved)
    requires Bytes(s) && !unres('%')
    ensures Unescape(Escape(s, unres)) == s && UnescapeHex(Escape(s, unres)) == s
  {
    if s != "" {
      UnescapeUndoesEscape(s[1..], unres);
      OneBack(s[0], unres, Escape(s[1..], unres));
      assert [s[0]] + s[1..] == s;
    }
  }

  ghost predicate Undone(unres: Unreserved) {
    forall s :: Bytes(s) ==> Unescape(Escape(s, unres)) == s
  }

  ghost predicate UndoneHex(unres: Unreserved) {
    forall s :: Bytes(s) ==> UnescapeHex(Escape(s, unres)) == s
  }

  /** pj_strcpy_unescape undoes the escaping of every text exactly when '%' is escaped. */
  lemma UndoneIff(unres: Unreserved)
    ensures Undone(unres) <==> !unres('%')
  {
    if unres('%') {
      var s := "%aa";
      var e := Escape(s, unres);
      EscapeStep(s, unres);
      EscapeStep("aa", unres);
      EscapeStep("a", unres);
      assert s[1..] == "aa" && "aa"[1..] == "a" && "a"[1..] == "";
      var x := EscapeChar('a', unres);
      assert e == "%" + (x + (x + ""));
      assert Bytes(s);
      if unres('a') {
        assert e == s;
        LosesTwo(e);
      } else {
        assert e[1] == '%';
        FirstFromPercent(e);
      }
    } else {
      forall s | Bytes(s)
        ensures Unescape(Escape(s, unres)) == s
      {
        UnescapeUndoesEscape(s, unres);
      }
    }
  }

  lemma EscapeStep(s: string, unres: Unreserved)
    requires s != ""
    ensures Escape(s, unres) == EscapeChar(s[0], unres) + Escape(s[1..], unres)
    ensures |s| == 1 ==> Escape(s[1..], unres) == ""
  {
  }

  lemma LosesTwo(s: string)
    requires |s| == 3 && s[0] == '%'
    ensures |Unescape(s)| == 1 && (IsHex(s[1]) && IsHex(s[2]) ==> |UnescapeHex(s)| == 1)
  {
    assert s[3..] == "";
  }

  lemma PercentAsDigit(y: char)
    ensures FromHex('%', y) != '%'
  {
    assert HexVal('%') == 5;
  }

  lemma FirstFromPercent(e: string)
    requires |e| >= 3 && e[0] == '%' && e[1] == '%'
    ensures Unescape(e) != "" && Unescape(e)[0] != '%'
  {
    hide FromHex;
    PercentAsDigit(e[2]);
  }

  /** pj_str_unescape undoes it also when '%' is left alone, as long as no hexadecimal digit is. */
  lemma UndoneHexIff(unres: Unreserved)
    ensures UndoneHex(unres) <==> !unres('%') || forall c :: IsHex(c) ==> !unres(c)
  {
    if unres('%') && exists c :: IsHex(c) && unres(c) {
      var c :| IsHex(c) && unres(c);
      var s := "%" + [c, c];
      EscapeStep(s, unres);
      EscapeStep([c, c], unres);
      EscapeStep([c], unres);
      assert s[1..] == [c, c] && [c, c][1..] == [c] && [c][1..] == "";
      assert Escape(s, unres) == s && Bytes(s);
      LosesTwo(s);
    } else {
      forall s | Bytes(s)
        ensures UnescapeHex(Escape(s, unres)) == s
      {
        if unres('%') {
          NoDigitsLeft(s, unres);
        } else {
          UnescapeUndoesEscape(s, unres);
        }
      }
    }
  }

  lemma {:induction false} NoDigitsLeft(s: string, unres: Unreserved)
    requires Bytes(s) && unres('%') && forall c :: IsHex(c) ==> !unres(c)
    ensures UnescapeHex(Escape(s, unres)) == s
    ensures Escape(s, unres) == "" || !IsHex(Escape(s, unres)[0])
  {
    if s != "" {
      var e, rest := EscapeChar(s[0], unres), Escape(s[1..], unres);
      NoDigitsLeft(s[1..], unres);
      HexRoundTrip(s[0]);
      assert (e + rest)[|e|..] == rest;
      assert [s[0]] + s[1..] == s;
      hide Hex2, FromHex;
    }
  }

  // ------------------------------------------------------------------ what escaped text means

  /** The text stands for these characters: each for itself, or as a percent sign and the two hexadecimal
      digits of its code, in either case. */
  ghost predicate StandsFor(text: string, plain: string)
    decreases |plain|
  {
    if plain == "" then text == ""
    else
      || (text != "" && text[0] != '%' && text[0] == plain[0] && StandsFor(text[1..], plain[1..]))
      || (|text| >= 3 && text[0] == '%' && StandsFor(text[3..], plain[1..])
          && exists high: int, low: int :: Denotes(text[1], high) && Denotes(text[2], low) && plain[0] as int == 16 * high + low)
  }

  /** Both functions give back what the text stands for, whoever wrote it. */
  lemma {:induction false} MeaningIsRead(text: string, plain: string)
    requires StandsFor(text, plain)
    ensures Unescape(text) == plain && UnescapeHex(text) == plain
    decreases |plain|
  {
    if plain != "" {
      if text[0] != '%' {
        MeaningIsRead(text[1..], plain[1..]);
      } else {
        MeaningIsRead(text[3..], plain[1..]);
        DigitValues(text[1]);
        DigitValues(text[2]);
      }
      assert [plain[0]] + plain[1..] == plain;
    }
  }

  /** And what is escaped stands for the text it was made from. */
  lemma {:induction false} EscapedMeans(s: string, unres: Unreserved)
    requires Bytes(s) && !unres('%')
    ensures StandsFor(Escape(s, unres), s)
  {
    if s != "" {
      EscapedMeans(s[1..], unres);
      var e, rest := EscapeChar(s[0], unres), Escape(s[1..], unres);
      assert (e + rest)[|e|..] == rest;
      if !unres(s[0]) {
        DigitsOf(s[0]);
        assert e[1] == Hex2(s[0])[0] && e[2] == Hex2(s[0])[1];
      }
    }
  }

  lemma DigitsOf(c: char)
    requires c as int < 256
    ensures Denotes(Hex2(c)[0], c as int / 16) && Denotes(Hex2(c)[1], c as int % 16)
  {
  }

  ghost predicate IsDigit(c: char) {
    exists n: int :: Denotes(c, n)
  }

  /** What pj_str_unescape makes of any text: a percent sign that two hexadecimal digits do not follow
      stands for itself. */
  ghost predicate Means(text: string, plain: string)
    decreases |text|
  {
    if text == "" then plain == ""
    else if text[0] == '%' && |text| >= 3 && IsDigit(text[1]) && IsDigit(text[2]) then
      && plain != "" && Means(text[3..], plain[1..])
      && exists high: int, low: int :: Denotes(text[1], high) && Denotes(text[2], low) && plain[0] as int == 16 * high + low
    else plain != "" && plain[0] == text[0] && Means(text[1..], plain[1..])
  }

  lemma {:induction false} UnescapedMeans(text: string)
    ensures Means(text, UnescapeHex(text))
    decreases |text|
  {
    if text != "" {
      var plain := UnescapeHex(text);
      if |text| >= 3 {
        DigitValues(text[1]);
        DigitValues(text[2]);
        UnescapedMeans(text[3..]);
      }
      UnescapedMeans(text[1..]);
      assert plain[1..] == if text[0] == '%' && |text| >= 3 && IsHex(text[1]) && IsHex(text[2])
                           then UnescapeHex(text[3..]) else UnescapeHex(text[1..]);
    }
  }

  // ------------------------------------------------------------------ the code

  lemma EscapeFrom(s: string, i: nat, unres: Unreserved)
    requires i < |s|
    ensures Escape(s[i..], unres) == EscapeChar(s[i], unres) + Escape(s[i + 1..], unres)
  {
    assert s[i..][1..] == s[i + 1..];
  }

  lemma EscapeCharIs(c: char, unres: Unreserved)
    ensures EscapeChar(c, unres) == if unres(c) then [c] else "%" + Hex2(c)
  {
    hide Hex2;
  }

  /** Some characters at d, and nothing else. */
  method Put(dst: array<char>, d: nat, s: string) returns (end: nat)
    requires d + |s| <= dst.Length
    modifies dst
    ensures end == d + |s| && dst[..end] == old(dst[..d]) + s && dst[end..] == old(dst[end..])
  {
    end := d + |s|;
    forall i | 0 <= i < |s| {
      dst[d + i] := s[i];
    }
  }

  lemma Regroup(a: string, b: string, c: string)
    ensures a + (b + c) == a + b + c && a + "" == a && "" + a == a
  {
  }

  /** pj_strncpy2_escape: the length written, or -1. */
  method CopyEscaped(dst: array<char>, src: string, max: nat, unres: Unreserved) returns (len: int)
    requires max <= dst.Length
    modifies dst
    ensures len == if |Escape(src, unres)| <= max then |Escape(src, unres)| else -1
    ensures len >= 0 ==> dst[..len] == Escape(src, unres)
    ensures dst[max..] == old(dst[max..])
  {
    hide Escape, Hex2, EscapeChar;
    if max < |src| {
      return -1;
    }
    var i, d := 0, 0;
    ghost var all := Escape(src, unres);
    ghost var beyond := dst[max..];
    assert src[0..] == src && dst[..0] == "";
    Regroup(all, "", "");
    while i != |src| && d != max
      invariant i <= |src| && 0 <= d <= max && dst[max..] == beyond
      invariant all == dst[..d] + Escape(src[i..], unres)
      decreases |src| - i
    {
      EscapeFrom(src, i, unres);
      EscapeCharIs(src[i], unres);
      Regroup(dst[..d], EscapeChar(src[i], unres), Escape(src[i + 1..], unres));
      ghost var end := d + |EscapeChar(src[i], unres)|;
      if unres(src[i]) {
        d := Put(dst, d, [src[i]]);
      } else {
        if d >= max - 2 {
          break;
        }
        d := Put(dst, d, "%" + Hex2(src[i]));
      }
      assert dst[max..] == dst[d..][max - d..];
      i := i + 1;
    }
    if i == |src| {
      NothingLeft(src[i..], unres);
      Regroup(dst[..d], "", "");
      return d;
    }
    return -1;
  }

  lemma NothingLeft(s: string, unres: Unreserved)
    requires s == ""
    ensures Escape(s, unres) == ""
  {
  }

  lemma UnescapeFrom(s: string, i: nat)
    requires i < |s|
    ensures var r := s[i..];
            && Unescape(r) == (if s[i] == '%' && i + 3 <= |s| then [FromHex(s[i + 1], s[i + 2])] + Unescape(s[i + 3..])
                               else [s[i]] + Unescape(s[i + 1..]))
            && UnescapeHex(r) == if s[i] == '%' && i + 3 <= |s| && IsHex(s[i + 1]) && IsHex(s[i + 2])
                                 then [FromHex(s[i + 1], s[i + 2])] + UnescapeHex(s[i + 3..])
                                 else [s[i]] + UnescapeHex(s[i + 1..])
  {
    hide FromHex, IsHex;
    assert s[i..][1..] == s[i + 1..];
    if i + 3 <= |s| {
      assert s[i..][3..] == s[i + 3..];
    }
  }

  /** pj_strcpy_unescape; the target is as long as the source at most. */
  method CopyUnescaped(dst: array<char>, src: string) returns (len: nat)
    requires |src| <= dst.Length
    modifies dst
    ensures len <= |src| && dst[..len] == Unescape(src)
  {
    hide Unescape, UnescapeHex, FromHex;
    var i := 0;
    len := 0;
    assert src[0..] == src && dst[..0] == "";
    Regroup(Unescape(src), "", "");
    while i != |src|
      invariant len <= i <= |src| && Unescape(src) == dst[..len] + Unescape(src[i..])
      decreases |src| - i
    {
      UnescapeFrom(src, i);
      ghost var done := dst[..len];
      var c;
      if src[i] == '%' && i < |src| - 2 {
        c := FromHex(src[i + 1], src[i + 2]);
        i := i + 3;
      } else {
        c := src[i];
        i := i + 1;
      }
      Regroup(done, [c], Unescape(src[i..]));
      len := Put(dst, len, [c]);
    }
    NothingUnescaped(src[i..]);
    assert dst[..len] + "" == dst[..len];
  }

  lemma NothingUnescaped(s: string)
    requires s == ""
    ensures Unescape(s) == "" && UnescapeHex(s) == ""
  {
  }

  /** pj_str_unescape */
  method Unescaped(src: string) returns (r: string)
    ensures r == UnescapeHex(src)
  {
    hide Unescape, UnescapeHex, FromHex, IsHex;
    if '%' !in src {
      NoPercent(src);
      return src;
    }
    var dst := new char[|src|];
    var i, len := 0, 0;
    assert src[0..] == src && dst[..0] == "";
    Regroup(UnescapeHex(src), "", "");
    while i != |src|
      invariant len <= i <= |src| && dst.Length == |src|
      invariant 0 <= len && UnescapeHex(src) == dst[..len] + UnescapeHex(src[i..])
      decreases |src| - i
    {
      UnescapeFrom(src, i);
      ghost var done := dst[..len];
      var c;
      if src[i] == '%' && i < |src| - 2 && IsHex(src[i + 1]) && IsHex(src[i + 2]) {
        c := FromHex(src[i + 1], src[i + 2]);
        i := i + 3;
      } else {
        c := src[i];
        i := i + 1;
      }
      Regroup(done, [c], UnescapeHex(src[i..]));
      len := Put(dst, len, [c]);
    }
    NothingUnescaped(src[i..]);
    assert dst[..len] + "" == dst[..len];
    return dst[..len];
  }

  lemma {:induction false} NoPercent(s: string)
    requires '%' !in s
    ensures UnescapeHex(s) == s
  {
    if s != "" {
      NoPercent(s[1..]);
      assert [s[0]] + s[1..] == s;
    }
  }
}
