/** base64.c: the encoding of RFC 4648 section 4, and a decoder that skips what is not in the alphabet. */
module Base64 {
  import opened Bytes

  const INV := -1

  // ------------------------------------------------------------------ alphabet

  /** base64_char */
  function Alphabet(v: nat): char
    requires v < 64
  {
    if v < 26 then 'A' + v as char
    else if v < 52 then 'a' + (v - 26) as char
    else if v < 62 then '0' + (v - 52) as char
    else if v == 62 then '+'
    else '/'
  }

  /** base256_char */
  function Value(c: char): (v: int)
    ensures INV <= v < 64
  {
    if 'A' <= c <= 'Z' then c as int - 'A' as int
    else if 'a' <= c <= 'z' then c as int - 'a' as int + 26
    else if '0' <= c <= '9' then c as int - '0' as int + 52
    else if c == '+' then 62
    else if c == '/' then 63
    else INV
  }

  lemma ValueOfAlphabet(v: nat)
    requires v < 64
    ensures Value(Alphabet(v)) == v && Alphabet(v) != '='
  {
  }

  // ------------------------------------------------------------------ encoding

  /** base256to64: the four characters of up to three bytes. */
  function Four(c1: Byte, c2: Byte, c3: Byte, padding: nat): (s: string)
    requires padding <= 2
    ensures |s| == 4
  {
    [Alphabet(c1 / 4), Alphabet(c1 % 4 * 16 + c2 / 16),
     if padding == 2 then '=' else Alphabet(c2 % 16 * 4 + c3 / 64),
     if padding == 0 then Alphabet(c3 % 64) else '=']
  }

  function Encode(x: seq<Byte>): string {
    if |x| == 0 then ""
    else if |x| == 1 then Four(x[0], 0, 0, 2)
    else if |x| == 2 then Four(x[0], x[1], 0, 1)
    else Four(x[0], x[1], x[2], 0) + Encode(x[3..])
  }

  /** The encoded text is four characters for every three bytes begun, and fits the size the macro asks for. */
  lemma {:induction false} EncodedLength(x: seq<Byte>)
    ensures |Encode(x)| == 4 * ((|x| + 2) / 3) && |Encode(x)| <= |x| * 4 / 3 + 3
  {
    hide Four;
    GroupsOfThree(|x|);
    if |x| >= 3 {
      EncodedLength(x[3..]);
    }
  }

  lemma GroupsOfThree(n: nat)
    ensures n >= 3 ==> (n + 2) / 3 == (n - 3 + 2) / 3 + 1
    ensures 4 * ((n + 2) / 3) <= n * 4 / 3 + 3
  {
    var q, r := n / 3, n % 3;
    assert n == 3 * q + r;
    assert n * 4 / 3 == 4 * q + r * 4 / 3;
  }

  /** The alphabet of RFC 4648 section 4, by character codes. */
  lemma AlphabetIs(v: nat)
    requires v < 64
    ensures Alphabet(v) as int ==
      if v < 26 then 65 + v else if v < 52 then 97 + (v - 26) else if v < 62 then 48 + (v - 52) else if v == 62 then 43 else 47
  {
  }

  /** The number whose digits to base 64 are the values of four characters. */
  function Digits64(s: string): int
    requires |s| == 4
  {
    262144 * Value(s[0]) + 4096 * Value(s[1]) + 64 * Value(s[2]) + Value(s[3])
  }

  /** Three bytes are a number of 24 bits, most significant byte first, and its four digits to base 64 are what
      they are encoded as; fewer bytes are filled up with zeros, and the digits that say nothing are "=". */
  lemma GroupsAreNumbers(c1: Byte, c2: Byte, c3: Byte)
    ensures Digits64(Four(c1, c2, c3, 0)) == 65536 * c1 + 256 * c2 + c3
    ensures Four(c1, c2, 0, 1) == Four(c1, c2, 0, 0)[..3] + "="
    ensures Four(c1, 0, 0, 2) == Four(c1, 0, 0, 0)[..2] + "=="
  {
    ValueOfAlphabet(c1 / 4);
    ValueOfAlphabet(c1 % 4 * 16 + c2 / 16);
    ValueOfAlphabet(c2 % 16 * 4 + c3 / 64);
    ValueOfAlphabet(c3 % 64);
    hide Alphabet, Value;
    assert c1 == 4 * (c1 / 4) + c1 % 4 && c2 == 16 * (c2 / 16) + c2 % 16 && c3 == 64 * (c3 / 64) + c3 % 64;
  }

  // ------------------------------------------------------------------ decoding

  /** The text without the padding at its end. */
  function Strip(s: string): (t: string)
    ensures |t| <= |s| && t == s[..|t|] && (t != "" ==> t[|t| - 1] != '=')
  {
    if s != "" && s[|s| - 1] == '=' then Strip(s[..|s| - 1]) else s
  }

  /** The values the decoder works on.  An invalid character is passed over, but not the last one of the text. */
  function Symbols(s: string): (v: seq<int>)
    ensures |v| <= |s|
  {
    if s == "" then []
    else if Value(s[0]) != INV then [Value(s[0])] + Symbols(s[1..])
    else if |s| == 1 then [INV]
    else Symbols(s[1..])
  }

  function Byte1(c0: int, c1: int): Byte {
    c0 * 4 % 256 + c1 % 64 / 16
  }

  function Byte2(c1: int, c2: int): Byte {
    c1 % 16 * 16 + c2 % 64 / 4
  }

  function Byte3(c2: int, c3: int): Byte {
    c2 % 4 * 64 + c3 % 64
  }

  /** The bytes that values of six bits spell; up to three values may be left at the end. */
  function Spell(v: seq<int>): seq<Byte> {
    if |v| >= 4 then [Byte1(v[0], v[1]), Byte2(v[1], v[2]), Byte3(v[2], v[3])] + Spell(v[4..])
    else if |v| == 3 then [Byte1(v[0], v[1]), Byte2(v[1], v[2])]
    else if |v| == 2 then [Byte1(v[0], v[1])]
    else []
  }

  function Decode(s: string): seq<Byte> {
    Spell(Symbols(Strip(s)))
  }

  lemma {:induction false} SpelledLength(v: seq<int>)
    ensures |Spell(v)| == |v| * 3 / 4
  {
    if |v| >= 4 {
      SpelledLength(v[4..]);
    }
  }

  /** What is decoded never outgrows the size the macro asks for. */
  lemma DecodedFits(s: string)
    ensures |Decode(s)| <= |Strip(s)| * 3 / 4
  {
    SpelledLength(Symbols(Strip(s)));
  }

  // ------------------------------------------------------------------ round trip

  lemma SymbolsOfFour(c1: Byte, c2: Byte, c3: Byte, rest: string)
    ensures Symbols(Four(c1, c2, c3, 0) + rest) ==
            [c1 / 4, c1 % 4 * 16 + c2 / 16, c2 % 16 * 4 + c3 / 64, c3 % 64] + Symbols(rest)
  {
    var s := Four(c1, c2, c3, 0) + rest;
    ValueOfAlphabet(c1 / 4);
    ValueOfAlphabet(c1 % 4 * 16 + c2 / 16);
    ValueOfAlphabet(c2 % 16 * 4 + c3 / 64);
    ValueOfAlphabet(c3 % 64);
    SymbolsStep(s, 0);
    SymbolsStep(s, 1);
    SymbolsStep(s, 2);
    SymbolsStep(s, 3);
    assert s[0..] == s && s[4..] == rest;
    hide Symbols;
  }

  lemma SymbolsStep(s: string, i: nat)
    requires i < |s| && Value(s[i]) != INV
    ensures Symbols(s[i..]) == [Value(s[i])] + Symbols(s[i + 1..])
  {
    assert s[i..][1..] == s[i + 1..];
  }

  lemma FirstBack(c1: Byte, y: nat)
    requires y < 16
    ensures Byte1(c1 / 4, c1 % 4 * 16 + y) == c1
  {
  }

  lemma SecondBack(x: nat, c2: Byte, z: nat)
    requires x < 4 && z < 4
    ensures Byte2(x * 16 + c2 / 16, c2 % 16 * 4 + z) == c2
  {
    var q, r := c2 / 16, c2 % 16;
    assert (x * 16 + q) % 16 == q;
    assert (r * 4 + z) % 64 / 4 == r;
  }

  lemma ThirdBack(y: nat, c3: Byte)
    requires y < 16
    ensures Byte3(y * 4 + c3 / 64, c3 % 64) == c3
  {
  }

  lemma StripStops(s: string)
    requires s != "" && s[|s| - 1] != '='
    ensures Strip(s) == s
  {
  }

  lemma {:induction false} StripAppends(a: string, b: string)
    requires Strip(b) != ""
    ensures Strip(a + b) == a + Strip(b)
    decreases |b|
  {
    var n := |b| - 1;
    if b[n] == '=' {
      assert (a + b)[..|a + b| - 1] == a + b[..n];
      StripAppends(a, b[..n]);
    } else {
      StripStops(b);
      StripStops(a + b);
    }
  }

  lemma {:induction false} StripKeepsFirst(s: string)
    requires s != "" && s[0] != '='
    ensures Strip(s) != ""
    decreases |s|
  {
    if s[|s| - 1] == '=' {
      StripKeepsFirst(s[..|s| - 1]);
    }
  }

  lemma EncodedStart(x: seq<Byte>)
    requires x != []
    ensures Encode(x) != "" && Strip(Encode(x)) != ""
  {
    ValueOfAlphabet(x[0] / 4);
    StripKeepsFirst(Encode(x));
  }

  /** A whole group in front of other text. */
  lemma FourInFront(c1: Byte, c2: Byte, c3: Byte, rest: string)
    requires rest == "" || Strip(rest) != ""
    ensures Decode(Four(c1, c2, c3, 0) + rest) == [c1, c2, c3] + Decode(rest)
  {
    var f := Four(c1, c2, c3, 0);
    ValueOfAlphabet(c3 % 64);
    if rest == "" {
      assert f + rest == f;
      StripStops(f);
      assert f + Strip(rest) == f;
    } else {
      StripAppends(f, rest);
    }
    SymbolsOfFour(c1, c2, c3, Strip(rest));
    SpellsFour(c1, c2, c3, Symbols(Strip(rest)));
    hide Spell, Symbols, Strip;
  }

  lemma SpellsFour(c1: Byte, c2: Byte, c3: Byte, more: seq<int>)
    ensures Spell([c1 / 4, c1 % 4 * 16 + c2 / 16, c2 % 16 * 4 + c3 / 64, c3 % 64] + more) == [c1, c2, c3] + Spell(more)
  {
    FirstBack(c1, c2 / 16);
    SecondBack(c1 % 4, c2, c3 / 64);
    ThirdBack(c2 % 16, c3);
    hide Byte1, Byte2, Byte3;
    var v := [c1 / 4, c1 % 4 * 16 + c2 / 16, c2 % 16 * 4 + c3 / 64, c3 % 64];
    assert (v + more)[4..] == more;
  }

  lemma StripPadding(t: string)
    ensures Strip(t + "=") == Strip(t)
  {
    assert (t + "=")[..|t|] == t;
  }

  lemma SymbolsOfTwo(v: nat, w: nat, rest: string)
    requires v < 64 && w < 64
    ensures Symbols([Alphabet(v), Alphabet(w)] + rest) == [v, w] + Symbols(rest)
  {
    var s := [Alphabet(v), Alphabet(w)] + rest;
    ValueOfAlphabet(v);
    ValueOfAlphabet(w);
    SymbolsStep(s, 0);
    SymbolsStep(s, 1);
    assert s[0..] == s && s[2..] == rest;
    hide Symbols;
  }

  lemma LastByte(c1: Byte)
    ensures Decode(Four(c1, 0, 0, 2)) == [c1]
  {
    var v, w := c1 / 4, c1 % 4 * 16;
    var t := [Alphabet(v), Alphabet(w)];
    ValueOfAlphabet(w);
    StripStops(t);
    StripPadding(t);
    StripPadding(t + "=");
    SymbolsOfTwo(v, w, "");
    FirstBack(c1, 0);
    assert Four(c1, 0, 0, 2) == t + "=" + "=" && t + "" == t;
    hide Strip, Byte1;
  }

  lemma LastBytes(c1: Byte, c2: Byte)
    ensures Decode(Four(c1, c2, 0, 1)) == [c1, c2]
  {
    var v, w, u := c1 / 4, c1 % 4 * 16 + c2 / 16, c2 % 16 * 4;
    var t := [Alphabet(v), Alphabet(w)] + [Alphabet(u)];
    ValueOfAlphabet(u);
    StripStops(t);
    StripPadding(t);
    SymbolsOfTwo(v, w, [Alphabet(u)]);
    assert Symbols([Alphabet(u)]) == [u];
    FirstBack(c1, c2 / 16);
    SecondBack(c1 % 4, c2, 0);
    assert Four(c1, c2, 0, 1) == t + "=";
    hide Strip, Byte1, Byte2, Symbols;
  }

  lemma NothingDecoded()
    ensures Decode("") == []
  {
  }

  /** Decoding gives back what was encoded. */
  lemma {:induction false} DecodeUndoesEncode(x: seq<Byte>)
    ensures Decode(Encode(x)) == x
  {
    hide Decode, Four, Strip;
    if |x| == 0 {
      NothingDecoded();
    } else if |x| == 1 {
      LastByte(x[0]);
    } else if |x| == 2 {
      LastBytes(x[0], x[1]);
    } else {
      var rest := x[3..];
      DecodeUndoesEncode(rest);
      if rest != [] {
        EncodedStart(rest);
      }
      FourInFront(x[0], x[1], x[2], Encode(rest));
      assert x == [x[0], x[1], x[2]] + rest;
    }
  }

  // ------------------------------------------------------------------ characters outside the alphabet

  /** The values of the characters in the alphabet. */
  function Clean(s: string): (v: seq<int>)
    ensures |v| <= |s|
  {
    if s == "" then [] else (if Value(s[0]) != INV then [Value(s[0])] else []) + Clean(s[1..])
  }

  /** Only an invalid last character leaves a trace. */
  lemma {:induction false} SymbolsAreClean(s: string)
    ensures Symbols(s) == Clean(s) + if s != "" && Value(s[|s| - 1]) == INV then [INV] else []
  {
    if |s| > 1 {
      SymbolsAreClean(s[1..]);
    } else if |s| == 1 {
      assert s[1..] == "";
    }
  }

  lemma {:induction false} CleanAppends(a: string, b: string)
    ensures Clean(a + b) == Clean(a) + Clean(b)
  {
    hide Value, Clean;
    if a == "" {
      CleanStep(a);
      assert a + b == b && [] + Clean(b) == Clean(b);
    } else {
      CleanStep(a);
      CleanStep(a + b);
      CleanAppends(a[1..], b);
      assert (a + b)[1..] == a[1..] + b;
      Together(Cleaned(a[0]), Clean(a[1..]), Clean(b));
    }
  }

  function Cleaned(c: char): seq<int> {
    if Value(c) != INV then [Value(c)] else []
  }

  lemma CleanStep(s: string)
    ensures Clean(s) == if s == "" then [] else Cleaned(s[0]) + Clean(s[1..])
  {
    hide Value;
  }

  lemma Together(x: seq<int>, y: seq<int>, z: seq<int>)
    ensures (x + y) + z == x + (y + z)
  {
  }

  lemma {:induction false} NoiseIsClean(noise: string)
    requires forall c <- noise :: Value(c) == INV
    ensures Clean(noise) == []
  {
    hide Value;
    if noise != "" {
      NoiseIsClean(noise[1..]);
    }
  }

  /** The padding is noise like any other. */
  lemma {:induction false} StripIsClean(s: string)
    ensures Clean(Strip(s)) == Clean(s)
    decreases |s|
  {
    if s != "" && s[|s| - 1] == '=' {
      var front := s[..|s| - 1];
      StripIsClean(front);
      CleanAppends(front, "=");
      NoiseIsClean("=");
      assert s == front + "=";
    }
  }

  /** The text without its padding ends in the alphabet, or has whole groups of four. */
  predicate Settled(s: string) {
    var t := Strip(s);
    t == "" || Value(t[|t| - 1]) != INV || |Clean(s)| % 4 == 0
  }

  /** Characters outside the alphabet may be put in or taken out anywhere. */
  lemma NoiseChangesNothing(a: string, noise: string, b: string)
    requires forall c <- noise :: Value(c) == INV
    requires Settled(a + b) && Settled(a + noise + b)
    ensures Decode(a + noise + b) == Decode(a + b)
  {
    hide Clean, Strip, Decode, Spell;
    StripIsClean(a + b);
    StripIsClean(a + noise + b);
    CleanAppends(a, b);
    CleanAppends(a + noise, b);
    CleanAppends(a, noise);
    NoiseIsClean(noise);
    NoiseIsIgnoredIff(a + b);
    NoiseIsIgnoredIff(a + noise + b);
    assert Clean(a) + [] == Clean(a);
  }

  /** Characters outside the alphabet change nothing exactly when the text, without its padding, does not end in
      one, or when the characters in the alphabet make up whole groups of four. */
  lemma NoiseIsIgnoredIff(s: string)
    ensures var t := Strip(s);
            Decode(s) == Spell(Clean(t)) <==> t == "" || Value(t[|t| - 1]) != INV || |Clean(t)| % 4 == 0
  {
    var t := Strip(s);
    SymbolsAreClean(t);
    if t != "" && Value(t[|t| - 1]) == INV {
      OneMore(Clean(t));
    } else {
      assert Clean(t) + [] == Clean(t);
    }
  }

  lemma {:induction false} OneMore(v: seq<int>)
    ensures Spell(v + [INV]) == Spell(v) <==> |v| % 4 == 0
  {
    if |v| >= 4 {
      hide Spell;
      OneMore(v[4..]);
      SameFront(v);
    } else {
      SpelledLength(v);
      SpelledLength(v + [INV]);
    }
  }

  lemma SameFront(v: seq<int>)
    requires |v| >= 4
    ensures Spell(v + [INV]) == Spell(v) <==> Spell(v[4..] + [INV]) == Spell(v[4..])
  {
    hide Byte1, Byte2, Byte3, Spell;
    var front, more := v[..4], v[4..];
    assert v == front + more && v + [INV] == front + (more + [INV]);
    SpellStep(front, more);
    SpellStep(front, more + [INV]);
    var b := [Byte1(front[0], front[1]), Byte2(front[1], front[2]), Byte3(front[2], front[3])];
    assert (b + Spell(more))[3..] == Spell(more) && (b + Spell(more + [INV]))[3..] == Spell(more + [INV]);
  }

  // ------------------------------------------------------------------ the code

  lemma EncodeStep(input: seq<Byte>, i: nat)
    requires i < |input|
    ensures Encode(input[i..]) ==
            if i + 1 == |input| then Four(input[i], 0, 0, 2)
            else if i + 2 == |input| then Four(input[i], input[i + 1], 0, 1)
            else Four(input[i], input[i + 1], input[i + 2], 0) + Encode(input[i + 3..])
  {
    hide Four;
    if i + 2 < |input| {
      assert input[i..][3..] == input[i + 3..];
    }
  }

  /** base256to64 into the output buffer. */
  method PutFour(c1: Byte, c2: Byte, c3: Byte, padding: nat, output: array<char>, po: nat) returns (end: nat)
    requires padding <= 2 && po + 4 <= output.Length
    modifies output
    ensures end == po + 4 && output[..end] == old(output[..po]) + Four(c1, c2, c3, padding)
  {
    output[po] := Alphabet(c1 / 4);
    output[po + 1] := Alphabet(c1 % 4 * 16 + c2 / 16);
    if padding == 0 {
      output[po + 2] := Alphabet(c2 % 16 * 4 + c3 / 64);
      output[po + 3] := Alphabet(c3 % 64);
    } else if padding == 1 {
      output[po + 2] := Alphabet(c2 % 16 * 4 + c3 / 64);
      output[po + 3] := '=';
    } else {
      output[po + 2] := '=';
      output[po + 3] := '=';
    }
    end := po + 4;
  }

  /** pj_base64_encode */
  method EncodeBuffer(input: seq<Byte>, output: array<char>) returns (ok: bool, outLen: nat)
    modifies output
    ensures ok <==> output.Length >= |input| * 4 / 3 + 3
    ensures ok ==> outLen <= output.Length && output[..outLen] == Encode(input)
  {
    hide Encode, Four;
    if output.Length < |input| * 4 / 3 + 3 {
      return false, 0;
    }
    EncodedLength(input);
    var i, po := 0, 0;
    assert input[0..] == input && output[..0] + Encode(input) == Encode(input);
    while i < |input|
      invariant i <= |input| && po <= output.Length
      invariant output[..po] + Encode(input[i..]) == Encode(input)
    {
      EncodeStep(input, i);
      ghost var done := output[..po];
      var c1 := input[i];
      i := i + 1;
      if i == |input| {
        po := PutFour(c1, 0, 0, 2, output, po);
        return true, po;
      }
      var c2 := input[i];
      i := i + 1;
      if i == |input| {
        po := PutFour(c1, c2, 0, 1, output, po);
        return true, po;
      }
      var c3 := input[i];
      i := i + 1;
      assert done + (Four(c1, c2, c3, 0) + Encode(input[i..])) == done + Four(c1, c2, c3, 0) + Encode(input[i..]);
      po := PutFour(c1, c2, c3, 0, output, po);
    }
    NothingEncoded();
    assert input[i..] == [] && output[..po] + "" == output[..po];
    return true, po;
  }

  lemma NothingEncoded()
    ensures Encode([]) == ""
  {
  }

  /** The inner loop of the decoder: the next value, invalid only if the text ends. */
  method NextSymbol(s: string, i: nat) returns (v: int, next: nat)
    requires i < |s|
    ensures i < next <= |s| && Symbols(s[i..]) == [v] + Symbols(s[next..])
  {
    next := i;
    v := INV;
    while next < |s|
      invariant i <= next <= |s| && v == INV
      invariant next < |s| ==> Symbols(s[i..]) == Symbols(s[next..])
      invariant next == |s| ==> Symbols(s[i..]) == [INV]
    {
      v := Value(s[next]);
      assert s[next..][1..] == s[next + 1..];
      next := next + 1;
      if v != INV {
        return;
      }
    }
    assert s[next..] == "";
  }

  /** Up to four values. */
  method FillFour(s: string, i: nat) returns (c: seq<int>, next: nat)
    requires i < |s|
    ensures i < next <= |s| && 0 < |c| <= 4 && (|c| < 4 ==> next == |s|)
    ensures Symbols(s[i..]) == c + Symbols(s[next..])
  {
    hide Symbols;
    c, next := [], i;
    assert [] + Symbols(s[i..]) == Symbols(s[i..]);
    while |c| < 4 && next < |s|
      invariant i <= next <= |s| && |c| <= 4 && (c == [] ==> next == i) && (next == i ==> c == [])
      invariant Symbols(s[i..]) == c + Symbols(s[next..])
      decreases |s| - next
    {
      ghost var before, at := c, next;
      var v;
      v, next := NextSymbol(s, next);
      c := c + [v];
      assert before + ([v] + Symbols(s[next..])) == c + Symbols(s[next..]);
    }
  }

  lemma SpellStep(c: seq<int>, more: seq<int>)
    requires 0 < |c| <= 4 && (|c| < 4 ==> more == [])
    ensures |c| == 4 ==>
              Spell(c + more) == [Byte1(c[0], c[1]), Byte2(c[1], c[2]), Byte3(c[2], c[3])] + Spell(more)
    ensures |c| == 3 ==> Spell(c + more) == [Byte1(c[0], c[1]), Byte2(c[1], c[2])]
    ensures |c| == 2 ==> Spell(c + more) == [Byte1(c[0], c[1])]
    ensures |c| == 1 ==> Spell(c + more) == []
  {
    hide Byte1, Byte2, Byte3;
    if |c| == 4 {
      assert (c + more)[4..] == more;
    } else {
      assert c + more == c;
    }
  }

  /** The bytes of up to four values. */
  method PutBytes(c: seq<int>, out: array<Byte>, j: nat) returns (end: nat)
    requires 0 < |c| <= 4 && j + |c| * 3 / 4 <= out.Length
    modifies out
    ensures end == j + |c| * 3 / 4 && out[..end] == old(out[..j]) + Spell(c)
  {
    end := j;
    SpellStep(c, []);
    assert c + [] == c;
    if |c| < 4 {
      if |c| > 1 {
        out[end] := Byte1(c[0], c[1]);
        end := end + 1;
        if |c| > 2 {
          out[end] := Byte2(c[1], c[2]);
          end := end + 1;
        }
      }
    } else {
      out[end], out[end + 1], out[end + 2] := Byte1(c[0], c[1]), Byte2(c[1], c[2]), Byte3(c[2], c[3]);
      end := end + 3;
    }
  }

  lemma SpellAppends(c: seq<int>, more: seq<int>)
    requires 0 < |c| <= 4 && (|c| < 4 ==> more == [])
    ensures Spell(c + more) == Spell(c) + Spell(more)
    ensures |Spell(c)| == |c| * 3 / 4
  {
    hide Byte1, Byte2, Byte3, Spell;
    assert c + [] == c;
    SpellStep(c, more);
    SpellStep(c, []);
    SpelledLength([]);
    SpelledLength(c);
    assert Spell([]) == [] && Spell(c) + [] == Spell(c);
  }

  /** Dropping the padding. */
  method DropPadding(input: string) returns (len: nat)
    ensures len <= |input| && input[..len] == Strip(input)
  {
    len := |input|;
    assert input[..len] == input;
    while len > 0 && input[len - 1] == '='
      invariant len <= |input| && Strip(input[..len]) == Strip(input)
    {
      assert input[..len][..len - 1] == input[..len - 1];
      len := len - 1;
    }
    if len > 0 {
      StripStops(input[..len]);
    }
  }

  /** pj_base64_decode.  `inBounds` is the assertion at its end, which asks for one byte more than the macro. */
  method DecodeBuffer(input: string, out: array<Byte>) returns (ok: bool, outLen: nat, inBounds: bool)
    modifies out
    ensures ok <==> out.Length >= |Strip(input)| * 3 / 4
    ensures ok ==> outLen <= out.Length && out[..outLen] == Decode(input)
    ensures ok ==> (inBounds <==> |Decode(input)| < out.Length)
  {
    hide Symbols, Spell, Strip;
    var len := DropPadding(input);
    var s := input[..len];
    if out.Length < len * 3 / 4 {
      return false, 0, false;
    }
    DecodedFits(input);
    var i, j := 0, 0;
    ghost var all := Spell(Symbols(s));
    assert s[0..] == s && out[..0] + all == all;
    while i < len
      invariant i <= len && 0 <= j <= out.Length && all == out[..j] + Spell(Symbols(s[i..]))
    {
      var c;
      c, i := FillFour(s, i);
      NoSymbols(s[i..]);
      SpellAppends(c, Symbols(s[i..]));
      ghost var done, more := out[..j], Spell(Symbols(s[i..]));
      assert done + (Spell(c) + more) == done + Spell(c) + more;
      j := PutBytes(c, out, j);
    }
    NoSymbols(s[i..]);
    SpelledLength([]);
    assert out[..j] + [] == out[..j];
    return true, j, j < out.Length;
  }

  lemma NoSymbols(s: string)
    ensures s == "" ==> Symbols(s) == []
  {
  }

  /** A buffer of exactly the size the macro gives for text in the alphabet is filled to its end, so the assertion
      fails although everything fits. */
  lemma MacroIsExact(s: string)
    requires Strip(s) == s && forall i :: 0 <= i < |s| ==> Value(s[i]) != INV
    ensures |Decode(s)| == |s| * 3 / 4
  {
    SpelledLength(Symbols(s));
    AllSymbols(s);
  }

  lemma {:induction false} AllSymbols(s: string)
    requires forall i :: 0 <= i < |s| ==> Value(s[i]) != INV
    ensures |Symbols(s)| == |s|
  {
    if s != "" {
      AllSymbols(s[1..]);
    }
  }
}
