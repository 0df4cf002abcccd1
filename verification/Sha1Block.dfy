/** SHA1_Transform of sha1.c: the schedule kept in 16 words over the block itself gives the compression function of
    RFC 3174 section 6.1, which uses 80 words. */
module Sha1Block {
  import opened Hashing

  datatype State = State(a: bv32, b: bv32, c: bv32, d: bv32, e: bv32)

  function Rol1(x: bv32): bv32 {
    (x << 1) | (x >> 31)
  }

  function Rol5(x: bv32): bv32 {
    (x << 5) | (x >> 27)
  }

  function Rol30(x: bv32): bv32 {
    (x << 30) | (x >> 2)
  }

  // ------------------------------------------------------------------ RFC 3174

  function Choice(b: bv32, c: bv32, d: bv32): bv32 {
    (b & c) | (!b & d)
  }

  function Majority(b: bv32, c: bv32, d: bv32): bv32 {
    (b & c) | (b & d) | (c & d)
  }

  function Parity(b: bv32, c: bv32, d: bv32): bv32 {
    b ^ c ^ d
  }

  function F(t: nat, b: bv32, c: bv32, d: bv32): bv32 {
    if t < 20 then Choice(b, c, d)
    else if t < 40 then Parity(b, c, d)
    else if t < 60 then Majority(b, c, d)
    else Parity(b, c, d)
  }

  function K(t: nat): bv32 {
    if t < 20 then 0x5A827999 else if t < 40 then 0x6ED9EBA1 else if t < 60 then 0x8F1BBCDC else 0xCA62C1D6
  }

  function Word(m: Octets, i: nat): bv32
    requires |m| == BLOCK && i < 16
  {
    (m[4 * i] as bv32 << 24) | (m[4 * i + 1] as bv32 << 16) | (m[4 * i + 2] as bv32 << 8) | m[4 * i + 3] as bv32
  }

  function Mix(w: bv32, x: bv32, y: bv32, z: bv32): bv32 {
    Rol1(w ^ x ^ y ^ z)
  }

  function W(m: Octets, t: nat): bv32
    requires |m| == BLOCK
  {
    if t < 16 then Word(m, t) else Mix(W(m, t - 3), W(m, t - 8), W(m, t - 14), W(m, t - 16))
  }

  function Temp(a5: bv32, f: bv32, e: bv32, w: bv32, k: bv32): bv32 {
    a5 + f + e + w + k
  }

  function Round(t: nat, s: State, w: bv32): State {
    State(Temp(Rol5(s.a), F(t, s.b, s.c, s.d), s.e, w, K(t)), s.a, Rol30(s.b), s.c, s.d)
  }

  function Rounds(m: Octets, s: State, t: nat): State
    requires |m| == BLOCK
  {
    if t == 0 then s else Round(t - 1, Rounds(m, s, t - 1), W(m, t - 1))
  }

  function Sum(s: State, t: State): State {
    State(s.a + t.a, s.b + t.b, s.c + t.c, s.d + t.d, s.e + t.e)
  }

  function Compress(s: State, m: Octets): State {
    if |m| != BLOCK then s else Sum(s, Rounds(m, s, 80))
  }

  // ------------------------------------------------------------------ the macros

  function MacroChoice(w: bv32, x: bv32, y: bv32): bv32 {
    (w & (x ^ y)) ^ y
  }

  function MacroMajority(w: bv32, x: bv32, y: bv32): bv32 {
    ((w | x) & y) | (w & x)
  }

  /** f of the macros R0 to R4. */
  function MacroF(t: nat, w: bv32, x: bv32, y: bv32): bv32 {
    if t < 20 then MacroChoice(w, x, y)
    else if t < 40 then Parity(w, x, y)
    else if t < 60 then MacroMajority(w, x, y)
    else Parity(w, x, y)
  }

  function MacroTemp(z: bv32, f: bv32, w: bv32, k: bv32, v5: bv32): bv32 {
    z + (f + w + k + v5)
  }

  lemma ChoiceBits(b: bv32, c: bv32, d: bv32)
    ensures (b & (c ^ d)) ^ d == (b & c) | (!b & d)
  {
  }

  lemma MajorityBits(b: bv32, c: bv32, d: bv32)
    ensures ((b | c) & d) | (b & c) == (b & c) | (b & d) | (c & d)
  {
  }

  lemma MacroChoiceIsChoice(b: bv32, c: bv32, d: bv32)
    ensures MacroChoice(b, c, d) == Choice(b, c, d)
  {
    ChoiceBits(b, c, d);
  }

  lemma MacroMajorityIsMajority(b: bv32, c: bv32, d: bv32)
    ensures MacroMajority(b, c, d) == Majority(b, c, d)
  {
    MajorityBits(b, c, d);
  }

  lemma MacroTempIsTemp(z: bv32, f: bv32, w: bv32, k: bv32, v5: bv32)
    ensures MacroTemp(z, f, w, k, v5) == Temp(v5, f, z, w, k)
  {
  }

  lemma MacroIsF(t: nat, b: bv32, c: bv32, d: bv32)
    ensures MacroF(t, b, c, d) == F(t, b, c, d)
  {
    hide MacroChoice, MacroMajority, Choice, Majority, Parity;
    MacroChoiceIsChoice(b, c, d);
    MacroMajorityIsMajority(b, c, d);
  }

  /** One use of a macro; the roles of the five variables then move on by one. */
  function Step(t: nat, s: State, word: bv32): State {
    State(MacroTemp(s.e, MacroF(t, s.b, s.c, s.d), word, K(t), Rol5(s.a)), s.a, Rol30(s.b), s.c, s.d)
  }

  lemma StepIsRound(t: nat, s: State, word: bv32)
    ensures Step(t, s, word) == Round(t, s, word)
  {
    hide Rol5, Rol30, K, F, MacroF, Temp, MacroTemp;
    MacroIsF(t, s.b, s.c, s.d);
    MacroTempIsTemp(s.e, F(t, s.b, s.c, s.d), word, K(t), Rol5(s.a));
  }

  /** A word as a little-endian machine loads it. */
  function Loaded(m: Octets, i: nat): bv32
    requires |m| == BLOCK && i < 16
  {
    (m[4 * i + 3] as bv32 << 24) | (m[4 * i + 2] as bv32 << 16) | (m[4 * i + 1] as bv32 << 8) | m[4 * i] as bv32
  }

  /** blk0 */
  function SwapBytes(x: bv32): bv32 {
    (((x << 24) | (x >> 8)) & 0xFF00FF00) | (((x << 8) | (x >> 24)) & 0x00FF00FF)
  }

  lemma SwapLoaded(m: Octets, i: nat)
    requires |m| == BLOCK && i < 16
    ensures SwapBytes(Loaded(m, i)) == Word(m, i)
  {
    SwapFour(m[4 * i], m[4 * i + 1], m[4 * i + 2], m[4 * i + 3]);
  }

  lemma SwapFour(p: bv8, q: bv8, r: bv8, s: bv8)
    ensures SwapBytes((s as bv32 << 24) | (r as bv32 << 16) | (q as bv32 << 8) | p as bv32) ==
            (p as bv32 << 24) | (q as bv32 << 16) | (r as bv32 << 8) | s as bv32
  {
  }

  // ------------------------------------------------------------------ SHA1_Transform

  /** The step whose word is at place i of the 16, once t words are there. */
  function Latest(t: nat, i: nat): (k: nat)
    requires t >= 16 && i < 16
    ensures t - 16 <= k < t && k % 16 == i
  {
    t - 16 + (i - t) % 16
  }

  lemma LatestAt(t: nat, d: nat)
    requires t >= 16 && d < 16
    ensures Latest(t, (t + d) % 16) == t - 16 + d
  {
  }

  lemma LatestNext(t: nat, i: nat)
    requires t >= 16 && i < 16
    ensures Latest(t + 1, i) == if i == t % 16 then t else Latest(t, i)
  {
  }

  /** The words of the block hold the last 16 words of the schedule. */
  ghost predicate Holds(l: seq<bv32>, m: Octets, t: nat)
    requires |l| == 16 && t >= 16 && |m| == BLOCK
  {
    forall i {:trigger l[i]} :: 0 <= i < 16 ==> l[i] == W(m, Latest(t, i))
  }

  lemma WordStep(m: Octets, t: nat)
    requires |m| == BLOCK && t >= 16
    ensures W(m, t) == Mix(W(m, t - 3), W(m, t - 8), W(m, t - 14), W(m, t - 16))
  {
  }

  lemma HeldWord(l: seq<bv32>, m: Octets, t: nat, d: nat)
    requires |l| == 16 && t >= 16 && |m| == BLOCK && Holds(l, m, t) && d < 16
    ensures l[(t + d) % 16] == W(m, t - 16 + d)
  {
    hide Latest, W;
    LatestAt(t, d);
  }

  lemma NextHeld(l: seq<bv32>, m: Octets, t: nat, p: nat)
    requires |l| == 16 && t >= 16 && |m| == BLOCK && Holds(l, m, t) && p == t % 16
    ensures Holds(l[p := W(m, t)], m, t + 1)
  {
    hide Latest, W;
    var next := l[p := W(m, t)];
    forall i | 0 <= i < 16
      ensures next[i] == W(m, Latest(t + 1, i))
    {
      LatestNext(t, i);
    }
  }

  lemma NextWord(l: seq<bv32>, m: Octets, t: nat)
    requires |l| == 16 && t >= 16 && |m| == BLOCK && Holds(l, m, t)
    ensures var w := Mix(l[(t + 13) % 16], l[(t + 8) % 16], l[(t + 2) % 16], l[t % 16]);
            w == W(m, t) && Holds(l[t % 16 := w], m, t + 1)
  {
    hide Mix, W, Holds;
    WordStep(m, t);
    HeldWord(l, m, t, 13);
    HeldWord(l, m, t, 8);
    HeldWord(l, m, t, 2);
    HeldWord(l, m, t, 0);
    NextHeld(l, m, t, t % 16);
  }

  /** The block is read through, and ends up as, 16 words in place. */
  method Transform(state: State, buffer: array<Octet>) returns (next: State)
    requires buffer.Length == BLOCK
    modifies buffer
    ensures next == Compress(state, old(buffer[..]))
  {
    hide Word, Loaded, SwapBytes, Mix, Step, Round, W, Holds, Sum;
    ghost var m := buffer[..];
    var l := new bv32[16](i requires 0 <= i < 16 reads buffer => Loaded(buffer[..], i));
    var s := state;
    for t := 0 to 16
      invariant s == Rounds(m, state, t)
      invariant forall i {:trigger l[i]} :: 0 <= i < t ==> l[i] == W(m, i)
      invariant forall i {:trigger l[i]} :: t <= i < 16 ==> l[i] == Loaded(m, i)
    {
      SwapLoaded(m, t);
      FirstWords(m, t);
      l[t] := SwapBytes(l[t]);
      StepIsRound(t, s, l[t]);
      s := Step(t, s, l[t]);
    }
    FirstHeld(l[..], m);
    for t := 16 to 80
      invariant s == Rounds(m, state, t)
      invariant Holds(l[..], m, t)
    {
      NextWord(l[..], m, t);
      l[t % 16] := Mix(l[(t + 13) % 16], l[(t + 8) % 16], l[(t + 2) % 16], l[t % 16]);
      StepIsRound(t, s, l[t % 16]);
      s := Step(t, s, l[t % 16]);
    }
    next := Sum(state, s);
    for i := 0 to 16 {
      buffer[4 * i], buffer[4 * i + 1] := (l[i] & 0xFF) as bv8, ((l[i] >> 8) & 0xFF) as bv8;
      buffer[4 * i + 2], buffer[4 * i + 3] := ((l[i] >> 16) & 0xFF) as bv8, (l[i] >> 24) as bv8;
    }
  }

  lemma FirstWords(m: Octets, t: nat)
    requires |m| == BLOCK && t < 16
    ensures W(m, t) == Word(m, t)
  {
  }

  lemma FirstHeld(l: seq<bv32>, m: Octets)
    requires |l| == 16 && |m| == BLOCK && forall i {:trigger l[i]} :: 0 <= i < 16 ==> l[i] == W(m, i)
    ensures Holds(l, m, 16)
  {
  }
}
