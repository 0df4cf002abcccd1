/** MD5Transform of md5.c: its 64 unrolled steps are the rounds of RFC 1321 section 3.4. */
module Md5Block {
  import opened Hashing

  datatype State = State(a: bv32, b: bv32, c: bv32, d: bv32)

  function Rol(x: bv32, s: nat): bv32
    requires s <= 32
  {
    (x << s) | (x >> (32 - s))
  }

  function Plus(x: bv32, y: bv32): bv32 {
    x + y
  }

  // ------------------------------------------------------------------ RFC 1321

  function F(x: bv32, y: bv32, z: bv32): bv32 {
    (x & y) | (!x & z)
  }

  function G(x: bv32, y: bv32, z: bv32): bv32 {
    (x & z) | (y & !z)
  }

  function H(x: bv32, y: bv32, z: bv32): bv32 {
    x ^ y ^ z
  }

  function I(x: bv32, y: bv32, z: bv32): bv32 {
    y ^ (x | !z)
  }

  /** The function of step t. */
  function Aux(t: nat, x: bv32, y: bv32, z: bv32): bv32 {
    if t < 16 then F(x, y, z) else if t < 32 then G(x, y, z) else if t < 48 then H(x, y, z) else I(x, y, z)
  }

  /** The word of the block that step t adds. */
  function Index(t: nat): (k: nat)
    ensures k < 16
  {
    if t < 16 then t else if t < 32 then (1 + 5 * t) % 16 else if t < 48 then (5 + 3 * t) % 16 else 7 * t % 16
  }

  /** How far step t rotates. */
  function Shift(t: nat): (s: nat)
    ensures s <= 32
  {
    var i := t % 4;
    if t < 16 then (if i == 0 then 7 else if i == 1 then 12 else if i == 2 then 17 else 22)
    else if t < 32 then (if i == 0 then 5 else if i == 1 then 9 else if i == 2 then 14 else 20)
    else if t < 48 then (if i == 0 then 4 else if i == 1 then 11 else if i == 2 then 16 else 23)
    else (if i == 0 then 6 else if i == 1 then 10 else if i == 2 then 15 else 21)
  }

  /** The table of sines: the constant of step t. */
  function T(t: nat): bv32 {
    if t < 16 then Sines1(t) else if t < 32 then Sines2(t) else if t < 48 then Sines3(t) else Sines4(t)
  }

  function Sines1(t: nat): bv32 {
    match t
    case 0 => 0xd76aa478
    case 1 => 0xe8c7b756
    case 2 => 0x242070db
    case 3 => 0xc1bdceee
    case 4 => 0xf57c0faf
    case 5 => 0x4787c62a
    case 6 => 0xa8304613
    case 7 => 0xfd469501
    case 8 => 0x698098d8
    case 9 => 0x8b44f7af
    case 10 => 0xffff5bb1
    case 11 => 0x895cd7be
    case 12 => 0x6b901122
    case 13 => 0xfd987193
    case 14 => 0xa679438e
    case _ => 0x49b40821
  }

  function Sines2(t: nat): bv32 {
    match t
    case 16 => 0xf61e2562
    case 17 => 0xc040b340
    case 18 => 0x265e5a51
    case 19 => 0xe9b6c7aa
    case 20 => 0xd62f105d
    case 21 => 0x02441453
    case 22 => 0xd8a1e681
    case 23 => 0xe7d3fbc8
    case 24 => 0x21e1cde6
    case 25 => 0xc33707d6
    case 26 => 0xf4d50d87
    case 27 => 0x455a14ed
    case 28 => 0xa9e3e905
    case 29 => 0xfcefa3f8
    case 30 => 0x676f02d9
    case _ => 0x8d2a4c8a
  }

  function Sines3(t: nat): bv32 {
    match t
    case 32 => 0xfffa3942
    case 33 => 0x8771f681
    case 34 => 0x6d9d6122
    case 35 => 0xfde5380c
    case 36 => 0xa4beea44
    case 37 => 0x4bdecfa9
    case 38 => 0xf6bb4b60
    case 39 => 0xbebfbc70
    case 40 => 0x289b7ec6
    case 41 => 0xeaa127fa
    case 42 => 0xd4ef3085
    case 43 => 0x04881d05
    case 44 => 0xd9d4d039
    case 45 => 0xe6db99e5
    case 46 => 0x1fa27cf8
    case _ => 0xc4ac5665
  }

  function Sines4(t: nat): bv32 {
    match t
    case 48 => 0xf4292244
    case 49 => 0x432aff97
    case 50 => 0xab9423a7
    case 51 => 0xfc93a039
    case 52 => 0x655b59c3
    case 53 => 0x8f0ccc92
    case 54 => 0xffeff47d
    case 55 => 0x85845dd1
    case 56 => 0x6fa87e4f
    case 57 => 0xfe2ce6e0
    case 58 => 0xa3014314
    case 59 => 0x4e0811a1
    case 60 => 0xf7537e82
    case 61 => 0xbd3af235
    case 62 => 0x2ad7d2bb
    case _ => 0xeb86d391
  }

  /** The word at i, the least significant byte first. */
  function Word(m: Octets, i: nat): bv32
    requires |m| == BLOCK && i < 16
  {
    (m[4 * i + 3] as bv32 << 24) | (m[4 * i + 2] as bv32 << 16) | (m[4 * i + 1] as bv32 << 8) | m[4 * i] as bv32
  }

  function Words(m: Octets): (w: seq<bv32>)
    requires |m| == BLOCK
    ensures |w| == 16
  {
    seq(16, i requires 0 <= i < 16 => Word(m, i))
  }

  function Sums(a: bv32, f: bv32, word: bv32, k: bv32): bv32 {
    a + f + word + k
  }

  /** b + ((a + f + X + T) rotated) */
  function Op(t: nat, a: bv32, b: bv32, f: bv32, word: bv32): bv32 {
    Plus(b, Rol(Sums(a, f, word, T(t)), Shift(t)))
  }

  /** Step t, after which the four variables change their roles. */
  function Round(t: nat, s: State, w: seq<bv32>): State
    requires |w| == 16
  {
    State(s.d, Op(t, s.a, s.b, Aux(t, s.b, s.c, s.d), w[Index(t)]), s.b, s.c)
  }

  function Rounds(w: seq<bv32>, s: State, t: nat): State
    requires |w| == 16
  {
    if t == 0 then s else Round(t - 1, Rounds(w, s, t - 1), w)
  }

  function Sum(s: State, t: State): State {
    State(s.a + t.a, s.b + t.b, s.c + t.c, s.d + t.d)
  }

  function Compress(s: State, m: Octets): State {
    if |m| != BLOCK then s else Sum(s, Rounds(Words(m), s, 64))
  }

  // ------------------------------------------------------------------ the macros

  function F1(x: bv32, y: bv32, z: bv32): bv32 {
    z ^ (x & (y ^ z))
  }

  function F2(x: bv32, y: bv32, z: bv32): bv32 {
    F1(z, x, y)
  }

  function F3(x: bv32, y: bv32, z: bv32): bv32 {
    x ^ y ^ z
  }

  function F4(x: bv32, y: bv32, z: bv32): bv32 {
    y ^ (x | !z)
  }

  /** MD5STEP, whose data are a word of the block and a constant. */
  function Step(f: bv32, w: bv32, x: bv32, word: bv32, k: bv32, s: nat): bv32
    requires s <= 32
  {
    Plus(x, Rol(Total(w, f, word, k), s))
  }

  function MacroF(t: nat, x: bv32, y: bv32, z: bv32): bv32 {
    if t < 16 then F1(x, y, z) else if t < 32 then F2(x, y, z) else if t < 48 then F3(x, y, z) else F4(x, y, z)
  }

  lemma MacroIsAux(t: nat, x: bv32, y: bv32, z: bv32)
    ensures MacroF(t, x, y, z) == Aux(t, x, y, z)
  {
    hide F1, F2, F, G, F4, I, F3, H;
    FirstBits(x, y, z);
    SecondBits(x, y, z);
    LastBits(x, y, z);
  }

  lemma LastBits(x: bv32, y: bv32, z: bv32)
    ensures F3(x, y, z) == H(x, y, z) && F4(x, y, z) == I(x, y, z)
  {
  }

  lemma ChoiceBits(x: bv32, y: bv32, z: bv32)
    ensures z ^ (x & (y ^ z)) == (x & y) | (!x & z)
  {
  }

  lemma ChoiceOrder(x: bv32, y: bv32, z: bv32)
    ensures (z & x) | (!z & y) == (x & z) | (y & !z)
  {
  }

  lemma FirstBits(x: bv32, y: bv32, z: bv32)
    ensures F1(x, y, z) == F(x, y, z)
  {
    ChoiceBits(x, y, z);
  }

  lemma FIsG(x: bv32, y: bv32, z: bv32)
    ensures F(z, x, y) == G(x, y, z)
  {
    ChoiceOrder(x, y, z);
  }

  lemma SecondBits(x: bv32, y: bv32, z: bv32)
    ensures F2(x, y, z) == G(x, y, z)
  {
    hide F, F1, G;
    FirstBits(z, x, y);
    FIsG(x, y, z);
  }

  lemma SameSum(a: bv32, f: bv32, word: bv32, k: bv32)
    ensures Total(a, f, word, k) == Sums(a, f, word, k)
  {
  }

  function Total(w: bv32, f: bv32, word: bv32, k: bv32): bv32 {
    w + (f + (word + k))
  }

  /** Line t of MD5Transform. */
  function Line(t: nat, w: bv32, x: bv32, y: bv32, z: bv32, word: bv32): bv32 {
    Step(MacroF(t, x, y, z), w, x, word, T(t), Shift(t))
  }

  lemma LineIsOp(t: nat, w: bv32, x: bv32, y: bv32, z: bv32, word: bv32)
    ensures Line(t, w, x, y, z, word) == Op(t, w, x, Aux(t, x, y, z), word)
  {
    hide Rol, Plus, MacroF, Aux, T, Shift, Total, Sums;
    MacroIsAux(t, x, y, z);
    SameSum(w, Aux(t, x, y, z), word, T(t));
  }

  /** Four lines bring the variables back to their roles. */
  lemma FourLines(w: seq<bv32>, s: State, t: nat)
    requires |w| == 16
    ensures var q := Rounds(w, s, t);
            var a := Line(t, q.a, q.b, q.c, q.d, w[Index(t)]);
            var d := Line(t + 1, q.d, a, q.b, q.c, w[Index(t + 1)]);
            var c := Line(t + 2, q.c, d, a, q.b, w[Index(t + 2)]);
            var b := Line(t + 3, q.b, c, d, a, w[Index(t + 3)]);
            Rounds(w, s, t + 4) == State(a, b, c, d)
  {
    hide Line, Op, Aux, Index, Rounds;
    var q := Rounds(w, s, t);
    LineIsOp(t, q.a, q.b, q.c, q.d, w[Index(t)]);
    var a := Line(t, q.a, q.b, q.c, q.d, w[Index(t)]);
    LineIsOp(t + 1, q.d, a, q.b, q.c, w[Index(t + 1)]);
    var d := Line(t + 1, q.d, a, q.b, q.c, w[Index(t + 1)]);
    LineIsOp(t + 2, q.c, d, a, q.b, w[Index(t + 2)]);
    var c := Line(t + 2, q.c, d, a, q.b, w[Index(t + 2)]);
    LineIsOp(t + 3, q.b, c, d, a, w[Index(t + 3)]);
    RoundsStep(w, s, t);
    RoundsStep(w, s, t + 1);
    RoundsStep(w, s, t + 2);
    RoundsStep(w, s, t + 3);
  }

  lemma RoundsStep(w: seq<bv32>, s: State, t: nat)
    requires |w| == 16
    ensures Rounds(w, s, t + 1) == Round(t, Rounds(w, s, t), w)
  {
  }

  // ------------------------------------------------------------------ MD5Transform

  lemma FirstRowsEarly()
    ensures Index(0) == 0 && T(0) == 0xd76aa478 && Shift(0) == 7
    ensures Index(1) == 1 && T(1) == 0xe8c7b756 && Shift(1) == 12
    ensures Index(2) == 2 && T(2) == 0x242070db && Shift(2) == 17
    ensures Index(3) == 3 && T(3) == 0xc1bdceee && Shift(3) == 22
    ensures Index(4) == 4 && T(4) == 0xf57c0faf && Shift(4) == 7
    ensures Index(5) == 5 && T(5) == 0x4787c62a && Shift(5) == 12
    ensures Index(6) == 6 && T(6) == 0xa8304613 && Shift(6) == 17
    ensures Index(7) == 7 && T(7) == 0xfd469501 && Shift(7) == 22
  {
  }

  lemma FirstRowsLate()
    ensures Index(8) == 8 && T(8) == 0x698098d8 && Shift(8) == 7
    ensures Index(9) == 9 && T(9) == 0x8b44f7af && Shift(9) == 12
    ensures Index(10) == 10 && T(10) == 0xffff5bb1 && Shift(10) == 17
    ensures Index(11) == 11 && T(11) == 0x895cd7be && Shift(11) == 22
    ensures Index(12) == 12 && T(12) == 0x6b901122 && Shift(12) == 7
    ensures Index(13) == 13 && T(13) == 0xfd987193 && Shift(13) == 12
    ensures Index(14) == 14 && T(14) == 0xa679438e && Shift(14) == 17
    ensures Index(15) == 15 && T(15) == 0x49b40821 && Shift(15) == 22
  {
  }

  method FirstRound(x: seq<bv32>, ghost start: State, s: State) returns (next: State)
    requires |x| == 16 && s == Rounds(x, start, 0)
    ensures next == Rounds(x, start, 16)
  {
    hide Rol, Plus, Step, F1, F2, F3, F4, Rounds, Index, T, Shift;
    FirstRowsEarly();
    FirstRowsLate();
    var a, b, c, d := s.a, s.b, s.c, s.d;
    FourLines(x, start, 0);
    a := Step(F1(b, c, d), a, b, x[0], 0xd76aa478, 7);
    d := Step(F1(a, b, c), d, a, x[1], 0xe8c7b756, 12);
    c := Step(F1(d, a, b), c, d, x[2], 0x242070db, 17);
    b := Step(F1(c, d, a), b, c, x[3], 0xc1bdceee, 22);
    FourLines(x, start, 4);
    a := Step(F1(b, c, d), a, b, x[4], 0xf57c0faf, 7);
    d := Step(F1(a, b, c), d, a, x[5], 0x4787c62a, 12);
    c := Step(F1(d, a, b), c, d, x[6], 0xa8304613, 17);
    b := Step(F1(c, d, a), b, c, x[7], 0xfd469501, 22);
    FourLines(x, start, 8);
    a := Step(F1(b, c, d), a, b, x[8], 0x698098d8, 7);
    d := Step(F1(a, b, c), d, a, x[9], 0x8b44f7af, 12);
    c := Step(F1(d, a, b), c, d, x[10], 0xffff5bb1, 17);
    b := Step(F1(c, d, a), b, c, x[11], 0x895cd7be, 22);
    FourLines(x, start, 12);
    a := Step(F1(b, c, d), a, b, x[12], 0x6b901122, 7);
    d := Step(F1(a, b, c), d, a, x[13], 0xfd987193, 12);
    c := Step(F1(d, a, b), c, d, x[14], 0xa679438e, 17);
    b := Step(F1(c, d, a), b, c, x[15], 0x49b40821, 22);
    next := State(a, b, c, d);
  }

  lemma SecondRowsEarly()
    ensures Index(16) == 1 && T(16) == 0xf61e2562 && Shift(16) == 5
    ensures Index(17) == 6 && T(17) == 0xc040b340 && Shift(17) == 9
    ensures Index(18) == 11 && T(18) == 0x265e5a51 && Shift(18) == 14
    ensures Index(19) == 0 && T(19) == 0xe9b6c7aa && Shift(19) == 20
    ensures Index(20) == 5 && T(20) == 0xd62f105d && Shift(20) == 5
    ensures Index(21) == 10 && T(21) == 0x02441453 && Shift(21) == 9
    ensures Index(22) == 15 && T(22) == 0xd8a1e681 && Shift(22) == 14
    ensures Index(23) == 4 && T(23) == 0xe7d3fbc8 && Shift(23) == 20
  {
  }

  lemma SecondRowsLate()
    ensures Index(24) == 9 && T(24) == 0x21e1cde6 && Shift(24) == 5
    ensures Index(25) == 14 && T(25) == 0xc33707d6 && Shift(25) == 9
    ensures Index(26) == 3 && T(26) == 0xf4d50d87 && Shift(26) == 14
    ensures Index(27) == 8 && T(27) == 0x455a14ed && Shift(27) == 20
    ensures Index(28) == 13 && T(28) == 0xa9e3e905 && Shift(28) == 5
    ensures Index(29) == 2 && T(29) == 0xfcefa3f8 && Shift(29) == 9
    ensures Index(30) == 7 && T(30) == 0x676f02d9 && Shift(30) == 14
    ensures Index(31) == 12 && T(31) == 0x8d2a4c8a && Shift(31) == 20
  {
  }

  method SecondRound(x: seq<bv32>, ghost start: State, s: State) returns (next: State)
    requires |x| == 16 && s == Rounds(x, start, 16)
    ensures next == Rounds(x, start, 32)
  {
    hide Rol, Plus, Step, F1, F2, F3, F4, Rounds, Index, T, Shift;
    SecondRowsEarly();
    SecondRowsLate();
    var a, b, c, d := s.a, s.b, s.c, s.d;
    FourLines(x, start, 16);
    a := Step(F2(b, c, d), a, b, x[1], 0xf61e2562, 5);
    d := Step(F2(a, b, c), d, a, x[6], 0xc040b340, 9);
    c := Step(F2(d, a, b), c, d, x[11], 0x265e5a51, 14);
    b := Step(F2(c, d, a), b, c, x[0], 0xe9b6c7aa, 20);
    FourLines(x, start, 20);
    a := Step(F2(b, c, d), a, b, x[5], 0xd62f105d, 5);
    d := Step(F2(a, b, c), d, a, x[10], 0x02441453, 9);
    c := Step(F2(d, a, b), c, d, x[15], 0xd8a1e681, 14);
    b := Step(F2(c, d, a), b, c, x[4], 0xe7d3fbc8, 20);
    FourLines(x, start, 24);
    a := Step(F2(b, c, d), a, b, x[9], 0x21e1cde6, 5);
    d := Step(F2(a, b, c), d, a, x[14], 0xc33707d6, 9);
    c := Step(F2(d, a, b), c, d, x[3], 0xf4d50d87, 14);
    b := Step(F2(c, d, a), b, c, x[8], 0x455a14ed, 20);
    FourLines(x, start, 28);
    a := Step(F2(b, c, d), a, b, x[13], 0xa9e3e905, 5);
    d := Step(F2(a, b, c), d, a, x[2], 0xfcefa3f8, 9);
    c := Step(F2(d, a, b), c, d, x[7], 0x676f02d9, 14);
    b := Step(F2(c, d, a), b, c, x[12], 0x8d2a4c8a, 20);
    next := State(a, b, c, d);
  }

  lemma ThirdRowsEarly()
    ensures Index(32) == 5 && T(32) == 0xfffa3942 && Shift(32) == 4
    ensures Index(33) == 8 && T(33) == 0x8771f681 && Shift(33) == 11
    ensures Index(34) == 11 && T(34) == 0x6d9d6122 && Shift(34) == 16
    ensures Index(35) == 14 && T(35) == 0xfde5380c && Shift(35) == 23
    ensures Index(36) == 1 && T(36) == 0xa4beea44 && Shift(36) == 4
    ensures Index(37) == 4 && T(37) == 0x4bdecfa9 && Shift(37) == 11
    ensures Index(38) == 7 && T(38) == 0xf6bb4b60 && Shift(38) == 16
    ensures Index(39) == 10 && T(39) == 0xbebfbc70 && Shift(39) == 23
  {
  }

  lemma ThirdRowsLate()
    ensures Index(40) == 13 && T(40) == 0x289b7ec6 && Shift(40) == 4
    ensures Index(41) == 0 && T(41) == 0xeaa127fa && Shift(41) == 11
    ensures Index(42) == 3 && T(42) == 0xd4ef3085 && Shift(42) == 16
    ensures Index(43) == 6 && T(43) == 0x04881d05 && Shift(43) == 23
    ensures Index(44) == 9 && T(44) == 0xd9d4d039 && Shift(44) == 4
    ensures Index(45) == 12 && T(45) == 0xe6db99e5 && Shift(45) == 11
    ensures Index(46) == 15 && T(46) == 0x1fa27cf8 && Shift(46) == 16
    ensures Index(47) == 2 && T(47) == 0xc4ac5665 && Shift(47) == 23
  {
  }

  method ThirdRound(x: seq<bv32>, ghost start: State, s: State) returns (next: State)
    requires |x| == 16 && s == Rounds(x, start, 32)
    ensures next == Rounds(x, start, 48)
  {
    hide Rol, Plus, Step, F1, F2, F3, F4, Rounds, Index, T, Shift;
    ThirdRowsEarly();
    ThirdRowsLate();
    var a, b, c, d := s.a, s.b, s.c, s.d;
    FourLines(x, start, 32);
    a := Step(F3(b, c, d), a, b, x[5], 0xfffa3942, 4);
    d := Step(F3(a, b, c), d, a, x[8], 0x8771f681, 11);
    c := Step(F3(d, a, b), c, d, x[11], 0x6d9d6122, 16);
    b := Step(F3(c, d, a), b, c, x[14], 0xfde5380c, 23);
    FourLines(x, start, 36);
    a := Step(F3(b, c, d), a, b, x[1], 0xa4beea44, 4);
    d := Step(F3(a, b, c), d, a, x[4], 0x4bdecfa9, 11);
    c := Step(F3(d, a, b), c, d, x[7], 0xf6bb4b60, 16);
    b := Step(F3(c, d, a), b, c, x[10], 0xbebfbc70, 23);
    FourLines(x, start, 40);
    a := Step(F3(b, c, d), a, b, x[13], 0x289b7ec6, 4);
    d := Step(F3(a, b, c), d, a, x[0], 0xeaa127fa, 11);
    c := Step(F3(d, a, b), c, d, x[3], 0xd4ef3085, 16);
    b := Step(F3(c, d, a), b, c, x[6], 0x04881d05, 23);
    FourLines(x, start, 44);
    a := Step(F3(b, c, d), a, b, x[9], 0xd9d4d039, 4);
    d := Step(F3(a, b, c), d, a, x[12], 0xe6db99e5, 11);
    c := Step(F3(d, a, b), c, d, x[15], 0x1fa27cf8, 16);
    b := Step(F3(c, d, a), b, c, x[2], 0xc4ac5665, 23);
    next := State(a, b, c, d);
  }

  lemma FourthRowsEarly()
    ensures Index(48) == 0 && T(48) == 0xf4292244 && Shift(48) == 6
    ensures Index(49) == 7 && T(49) == 0x432aff97 && Shift(49) == 10
    ensures Index(50) == 14 && T(50) == 0xab9423a7 && Shift(50) == 15
    ensures Index(51) == 5 && T(51) == 0xfc93a039 && Shift(51) == 21
    ensures Index(52) == 12 && T(52) == 0x655b59c3 && Shift(52) == 6
    ensures Index(53) == 3 && T(53) == 0x8f0ccc92 && Shift(53) == 10
    ensures Index(54) == 10 && T(54) == 0xffeff47d && Shift(54) == 15
    ensures Index(55) == 1 && T(55) == 0x85845dd1 && Shift(55) == 21
  {
  }

  lemma FourthRowsLate()
    ensures Index(56) == 8 && T(56) == 0x6fa87e4f && Shift(56) == 6
    ensures Index(57) == 15 && T(57) == 0xfe2ce6e0 && Shift(57) == 10
    ensures Index(58) == 6 && T(58) == 0xa3014314 && Shift(58) == 15
    ensures Index(59) == 13 && T(59) == 0x4e0811a1 && Shift(59) == 21
    ensures Index(60) == 4 && T(60) == 0xf7537e82 && Shift(60) == 6
    ensures Index(61) == 11 && T(61) == 0xbd3af235 && Shift(61) == 10
    ensures Index(62) == 2 && T(62) == 0x2ad7d2bb && Shift(62) == 15
    ensures Index(63) == 9 && T(63) == 0xeb86d391 && Shift(63) == 21
  {
  }

  method FourthRound(x: seq<bv32>, ghost start: State, s: State) returns (next: State)
    requires |x| == 16 && s == Rounds(x, start, 48)
    ensures next == Rounds(x, start, 64)
  {
    hide Rol, Plus, Step, F1, F2, F3, F4, Rounds, Index, T, Shift;
    FourthRowsEarly();
    FourthRowsLate();
    var a, b, c, d := s.a, s.b, s.c, s.d;
    FourLines(x, start, 48);
    a := Step(F4(b, c, d), a, b, x[0], 0xf4292244, 6);
    d := Step(F4(a, b, c), d, a, x[7], 0x432aff97, 10);
    c := Step(F4(d, a, b), c, d, x[14], 0xab9423a7, 15);
    b := Step(F4(c, d, a), b, c, x[5], 0xfc93a039, 21);
    FourLines(x, start, 52);
    a := Step(F4(b, c, d), a, b, x[12], 0x655b59c3, 6);
    d := Step(F4(a, b, c), d, a, x[3], 0x8f0ccc92, 10);
    c := Step(F4(d, a, b), c, d, x[10], 0xffeff47d, 15);
    b := Step(F4(c, d, a), b, c, x[1], 0x85845dd1, 21);
    FourLines(x, start, 56);
    a := Step(F4(b, c, d), a, b, x[8], 0x6fa87e4f, 6);
    d := Step(F4(a, b, c), d, a, x[15], 0xfe2ce6e0, 10);
    c := Step(F4(d, a, b), c, d, x[6], 0xa3014314, 15);
    b := Step(F4(c, d, a), b, c, x[13], 0x4e0811a1, 21);
    FourLines(x, start, 60);
    a := Step(F4(b, c, d), a, b, x[4], 0xf7537e82, 6);
    d := Step(F4(a, b, c), d, a, x[11], 0xbd3af235, 10);
    c := Step(F4(d, a, b), c, d, x[2], 0x2ad7d2bb, 15);
    b := Step(F4(c, d, a), b, c, x[9], 0xeb86d391, 21);
    next := State(a, b, c, d);
  }

  /** MD5Transform */
  method Transform(buf: State, input: array<Octet>) returns (next: State)
    requires input.Length == BLOCK
    ensures next == Compress(buf, input[..])
  {
    hide Rounds, Words, Sum;
    var x := Words(input[..]);
    NoRounds(x, buf);
    var s := FirstRound(x, buf, buf);
    s := SecondRound(x, buf, s);
    s := ThirdRound(x, buf, s);
    s := FourthRound(x, buf, s);
    next := Sum(buf, s);
  }

  lemma NoRounds(w: seq<bv32>, s: State)
    requires |w| == 16
    ensures Rounds(w, s, 0) == s
  {
  }
}
