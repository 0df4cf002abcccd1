/** The digest of "abc" in the test suite of RFC 1321 (section A.5), worked out step by step. */
module Md5Example {
  import opened Hashing
  import opened Md5Block
  import opened Md5

  /** The one block of the padded message. */
  predicate IsAbc(m: Octets) {
    m == Padded(Abc(), LittleEndian(LowBits(3)) + LittleEndian(HighBits(3)))
  }

  lemma ZeroBytes()
    ensures LittleEndian(24) == [24, 0, 0, 0] && LittleEndian(0) == [0, 0, 0, 0]
  {
  }

  lemma LengthBytes()
    ensures LittleEndian(LowBits(3)) == [24, 0, 0, 0] && LittleEndian(HighBits(3)) == [0, 0, 0, 0]
  {
    assert HighBits(3) == 0 && LowBits(3) == 24;
    ZeroBytes();
    hide HighBits, LowBits;
  }

  lemma ByteAt(m: Octets, k: nat)
    requires IsAbc(m) && k < BLOCK
    ensures |m| == BLOCK
    ensures m[k] == if k < 3 then Abc()[k] else if k == 3 then 0x80 else if k == 56 then 24 else 0
  {
    LengthBytes();
    hide LittleEndian, HighBits, LowBits;
    assert (55 - 3) % BLOCK == 52;
  }

  predicate Holds(m: Octets, i: nat, w: bv32) {
    IsAbc(m) && |m| == BLOCK && i < 16 && Word(m, i) == w
  }

  lemma WordOf(m: Octets, i: nat, p: bv8, q: bv8, r: bv8, s: bv8)
    requires IsAbc(m) && i < 16
    requires p == (if i == 0 then 0x61 else if i == 14 then 24 else 0) && q == (if i == 0 then 0x62 else 0)
    requires r == (if i == 0 then 0x63 else 0) && s == (if i == 0 then 0x80 else 0)
    ensures Holds(m, i, (s as bv32 << 24) | (r as bv32 << 16) | (q as bv32 << 8) | p as bv32)
  {
    hide IsAbc;
    ByteAt(m, 4 * i);
    ByteAt(m, 4 * i + 1);
    ByteAt(m, 4 * i + 2);
    ByteAt(m, 4 * i + 3);
  }

  lemma TheWords(m: Octets)
    requires IsAbc(m)
    ensures Holds(m, 0, 0x80636261) && Holds(m, 14, 24)
    ensures forall i {:trigger Holds(m, i, 0)} :: 0 < i < 16 && i != 14 ==> Holds(m, i, 0)
  {
    hide IsAbc, Holds;
    forall i | 0 < i < 16 && i != 14
      ensures Holds(m, i, 0)
    {
      WordOf(m, i, 0, 0, 0, 0);
    }
    WordOf(m, 0, 0x61, 0x62, 0x63, 0x80);
    WordOf(m, 14, 24, 0, 0, 0);
  }

  // ------------------------------------------------------------------ the steps

  predicate Reached(m: Octets, t: nat, s: State) {
    IsAbc(m) && |m| == BLOCK && Rounds(Words(m), Initial(), t) == s
  }

  lemma Start(m: Octets)
    requires IsAbc(m)
    ensures Reached(m, 0, State(0x67452301, 0xefcdab89, 0x98badcfe, 0x10325476))
  {
    ByteAt(m, 0);
    hide IsAbc;
  }

  lemma Then(m: Octets, t: nat, s: State, w: bv32, r: nat, b: bv32)
    requires Reached(m, t, s) && Holds(m, Index(t), w) && r == Shift(t)
    requires Plus(s.b, Rol(Sums(s.a, Aux(t, s.b, s.c, s.d), w, T(t)), r)) == b
    ensures Reached(m, t + 1, State(s.d, b, s.b, s.c))
  {
    hide IsAbc, Word, Aux, Index, Shift, T, Rol, Plus, Sums;
  }

  lemma Steps8(m: Octets)
    requires IsAbc(m)
    ensures Reached(m, 8, State(0xc73741ef, 0x928d99f6, 0x207dc67b, 0x8bac3051))
  {
    hide Holds, IsAbc, Reached, Rounds, Index, Shift, T;
    TheWords(m);
    FirstRowsEarly();
    Start(m);
    Then(m, 0, State(0x67452301, 0xefcdab89, 0x98badcfe, 0x10325476), 0x80636261, 7, 0xd6d117b4);
    Then(m, 1, State(0x10325476, 0xd6d117b4, 0xefcdab89, 0x98badcfe), 0x00000000, 12, 0x344a8432);
    Then(m, 2, State(0x98badcfe, 0x344a8432, 0xd6d117b4, 0xefcdab89), 0x00000000, 17, 0x2f6fbd72);
    Then(m, 3, State(0xefcdab89, 0x2f6fbd72, 0x344a8432, 0xd6d117b4), 0x00000000, 22, 0x7ad956f2);
    Then(m, 4, State(0xd6d117b4, 0x7ad956f2, 0x2f6fbd72, 0x344a8432), 0x00000000, 7, 0xc73741ef);
    Then(m, 5, State(0x344a8432, 0xc73741ef, 0x7ad956f2, 0x2f6fbd72), 0x00000000, 12, 0x8bac3051);
    Then(m, 6, State(0x2f6fbd72, 0x8bac3051, 0xc73741ef, 0x7ad956f2), 0x00000000, 17, 0x207dc67b);
    Then(m, 7, State(0x7ad956f2, 0x207dc67b, 0x8bac3051, 0xc73741ef), 0x00000000, 22, 0x928d99f6);
  }

  lemma Steps16(m: Octets)
    requires IsAbc(m)
    ensures Reached(m, 16, State(0xdda9b9a6, 0x72aff2e0, 0xe396856b, 0xa1051895))
  {
    hide Holds, IsAbc, Reached, Rounds, Index, Shift, T;
    TheWords(m);
    FirstRowsLate();
    Steps8(m);
    Then(m, 8, State(0xc73741ef, 0x928d99f6, 0x207dc67b, 0x8bac3051), 0x00000000, 7, 0x854b3712);
    Then(m, 9, State(0x8bac3051, 0x854b3712, 0x928d99f6, 0x207dc67b), 0x00000000, 12, 0x74e2f284);
    Then(m, 10, State(0x207dc67b, 0x74e2f284, 0x854b3712, 0x928d99f6), 0x00000000, 17, 0x3020401c);
    Then(m, 11, State(0x928d99f6, 0x3020401c, 0x74e2f284, 0x854b3712), 0x00000000, 22, 0x5ed49596);
    Then(m, 12, State(0x854b3712, 0x5ed49596, 0x3020401c, 0x74e2f284), 0x00000000, 7, 0xdda9b9a6);
    Then(m, 13, State(0x74e2f284, 0xdda9b9a6, 0x5ed49596, 0x3020401c), 0x00000000, 12, 0xa1051895);
    Then(m, 14, State(0x3020401c, 0xa1051895, 0xdda9b9a6, 0x5ed49596), 0x00000018, 17, 0xe396856b);
    Then(m, 15, State(0x5ed49596, 0xe396856b, 0xa1051895, 0xdda9b9a6), 0x00000000, 22, 0x72aff2e0);
  }

  lemma Steps24(m: Octets)
    requires IsAbc(m)
    ensures Reached(m, 24, State(0x59a8ffda, 0x47092c07, 0xabfc7920, 0x6d002f1e))
  {
    hide Holds, IsAbc, Reached, Rounds, Index, Shift, T;
    TheWords(m);
    SecondRowsEarly();
    Steps16(m);
    Then(m, 16, State(0xdda9b9a6, 0x72aff2e0, 0xe396856b, 0xa1051895), 0x00000000, 5, 0x3e9e9126);
    Then(m, 17, State(0xa1051895, 0x3e9e9126, 0x72aff2e0, 0xe396856b), 0x00000000, 9, 0x4a1d804e);
    Then(m, 18, State(0xe396856b, 0x4a1d804e, 0x3e9e9126, 0x72aff2e0), 0x00000000, 14, 0xe25e1652);
    Then(m, 19, State(0x72aff2e0, 0xe25e1652, 0x4a1d804e, 0x3e9e9126), 0x80636261, 20, 0xb5b204e4);
    Then(m, 20, State(0x3e9e9126, 0xb5b204e4, 0xe25e1652, 0x4a1d804e), 0x00000000, 5, 0x59a8ffda);
    Then(m, 21, State(0x4a1d804e, 0x59a8ffda, 0xb5b204e4, 0xe25e1652), 0x00000000, 9, 0x6d002f1e);
    Then(m, 22, State(0xe25e1652, 0x6d002f1e, 0x59a8ffda, 0xb5b204e4), 0x00000000, 14, 0xabfc7920);
    Then(m, 23, State(0xb5b204e4, 0xabfc7920, 0x6d002f1e, 0x59a8ffda), 0x00000000, 20, 0x47092c07);
  }

  lemma Steps32(m: Octets)
    requires IsAbc(m)
    ensures Reached(m, 32, State(0x790a77fb, 0x726342d3, 0xa62884aa, 0x9f47e4f8))
  {
    hide Holds, IsAbc, Reached, Rounds, Index, Shift, T;
    TheWords(m);
    SecondRowsLate();
    Steps24(m);
    Then(m, 24, State(0x59a8ffda, 0x47092c07, 0xabfc7920, 0x6d002f1e), 0x00000000, 5, 0xb7f268cf);
    Then(m, 25, State(0x6d002f1e, 0xb7f268cf, 0x47092c07, 0xabfc7920), 0x00000018, 9, 0x09388eff);
    Then(m, 26, State(0xabfc7920, 0x09388eff, 0xb7f268cf, 0x47092c07), 0x00000000, 14, 0xfe1623b1);
    Then(m, 27, State(0x47092c07, 0xfe1623b1, 0x09388eff, 0xb7f268cf), 0x00000000, 20, 0x786acb8f);
    Then(m, 28, State(0xb7f268cf, 0x786acb8f, 0xfe1623b1, 0x09388eff), 0x00000000, 5, 0x790a77fb);
    Then(m, 29, State(0x09388eff, 0x790a77fb, 0x786acb8f, 0xfe1623b1), 0x00000000, 9, 0x9f47e4f8);
    Then(m, 30, State(0xfe1623b1, 0x9f47e4f8, 0x790a77fb, 0x786acb8f), 0x00000000, 14, 0xa62884aa);
    Then(m, 31, State(0x786acb8f, 0xa62884aa, 0x9f47e4f8, 0x790a77fb), 0x00000000, 20, 0x726342d3);
  }

  lemma Steps40(m: Octets)
    requires IsAbc(m)
    ensures Reached(m, 40, State(0x21b117b9, 0x5a2f5ea5, 0x3575227e, 0x6e7429d5))
  {
    hide Holds, IsAbc, Reached, Rounds, Index, Shift, T;
    TheWords(m);
    ThirdRowsEarly();
    Steps32(m);
    Then(m, 32, State(0x790a77fb, 0x726342d3, 0xa62884aa, 0x9f47e4f8), 0x00000000, 4, 0xb3707ebf);
    Then(m, 33, State(0x9f47e4f8, 0xb3707ebf, 0x726342d3, 0xa62884aa), 0x00000000, 11, 0x60127b2e);
    Then(m, 34, State(0xa62884aa, 0x60127b2e, 0xb3707ebf, 0x726342d3), 0x00000000, 16, 0x8d212ff5);
    Then(m, 35, State(0x726342d3, 0x8d212ff5, 0x60127b2e, 0xb3707ebf), 0x00000018, 23, 0x3b0875c7);
    Then(m, 36, State(0xb3707ebf, 0x3b0875c7, 0x8d212ff5, 0x60127b2e), 0x00000000, 4, 0x21b117b9);
    Then(m, 37, State(0x60127b2e, 0x21b117b9, 0x3b0875c7, 0x8d212ff5), 0x00000000, 11, 0x6e7429d5);
    Then(m, 38, State(0x8d212ff5, 0x6e7429d5, 0x21b117b9, 0x3b0875c7), 0x00000000, 16, 0x3575227e);
    Then(m, 39, State(0x3b0875c7, 0x3575227e, 0x6e7429d5, 0x21b117b9), 0x00000000, 23, 0x5a2f5ea5);
  }

  lemma Steps48(m: Octets)
    requires IsAbc(m)
    ensures Reached(m, 48, State(0x7f2e507b, 0x7beb9700, 0x8fae6399, 0x99d9679d))
  {
    hide Holds, IsAbc, Reached, Rounds, Index, Shift, T;
    TheWords(m);
    ThirdRowsLate();
    Steps40(m);
    Then(m, 40, State(0x21b117b9, 0x5a2f5ea5, 0x3575227e, 0x6e7429d5), 0x00000000, 4, 0x11de1779);
    Then(m, 41, State(0x6e7429d5, 0x11de1779, 0x5a2f5ea5, 0x3575227e), 0x80636261, 11, 0xfadcaa38);
    Then(m, 42, State(0x3575227e, 0xfadcaa38, 0x11de1779, 0x5a2f5ea5), 0x00000000, 16, 0x31c465ca);
    Then(m, 43, State(0x5a2f5ea5, 0x31c465ca, 0xfadcaa38, 0x11de1779), 0x00000000, 23, 0x4c6124f4);
    Then(m, 44, State(0x11de1779, 0x4c6124f4, 0x31c465ca, 0xfadcaa38), 0x00000000, 4, 0x7f2e507b);
    Then(m, 45, State(0xfadcaa38, 0x7f2e507b, 0x4c6124f4, 0x31c465ca), 0x00000000, 11, 0x99d9679d);
    Then(m, 46, State(0x31c465ca, 0x99d9679d, 0x7f2e507b, 0x4c6124f4), 0x00000000, 16, 0x8fae6399);
    Then(m, 47, State(0x4c6124f4, 0x8fae6399, 0x99d9679d, 0x7f2e507b), 0x00000000, 23, 0x7beb9700);
  }

  lemma Steps56(m: Octets)
    requires IsAbc(m)
    ensures Reached(m, 56, State(0x06cc5e8a, 0x3bfa2c27, 0x7d632dd0, 0x5b0d97aa))
  {
    hide Holds, IsAbc, Reached, Rounds, Index, Shift, T;
    TheWords(m);
    FourthRowsEarly();
    Steps48(m);
    Then(m, 48, State(0x7f2e507b, 0x7beb9700, 0x8fae6399, 0x99d9679d), 0x80636261, 6, 0x7b201df8);
    Then(m, 49, State(0x99d9679d, 0x7b201df8, 0x7beb9700, 0x8fae6399), 0x00000000, 10, 0xf4e8e96e);
    Then(m, 50, State(0x8fae6399, 0xf4e8e96e, 0x7b201df8, 0x7beb9700), 0x00000018, 15, 0xb298cefd);
    Then(m, 51, State(0x7beb9700, 0xb298cefd, 0xf4e8e96e, 0x7b201df8), 0x00000000, 21, 0x8bf025c4);
    Then(m, 52, State(0x7b201df8, 0x8bf025c4, 0xb298cefd, 0xf4e8e96e), 0x00000000, 6, 0x06cc5e8a);
    Then(m, 53, State(0xf4e8e96e, 0x06cc5e8a, 0x8bf025c4, 0xb298cefd), 0x00000000, 10, 0x5b0d97aa);
    Then(m, 54, State(0xb298cefd, 0x5b0d97aa, 0x06cc5e8a, 0x8bf025c4), 0x00000000, 15, 0x7d632dd0);
    Then(m, 55, State(0x8bf025c4, 0x7d632dd0, 0x5b0d97aa, 0x06cc5e8a), 0x00000000, 21, 0x3bfa2c27);
  }

  lemma Steps64(m: Octets)
    requires IsAbc(m)
    ensures Reached(m, 64, State(0x310ade8f, 0xc08226b3, 0xe484b9d8, 0x624d8cb2))
  {
    hide Holds, IsAbc, Reached, Rounds, Index, Shift, T;
    TheWords(m);
    FourthRowsLate();
    Steps56(m);
    Then(m, 56, State(0x06cc5e8a, 0x3bfa2c27, 0x7d632dd0, 0x5b0d97aa), 0x00000000, 6, 0x7f81cc35);
    Then(m, 57, State(0x5b0d97aa, 0x7f81cc35, 0x3bfa2c27, 0x7d632dd0), 0x00000000, 10, 0x094454ab);
    Then(m, 58, State(0x7d632dd0, 0x094454ab, 0x7f81cc35, 0x3bfa2c27), 0x00000000, 15, 0x4f9dbe3f);
    Then(m, 59, State(0x3bfa2c27, 0x4f9dbe3f, 0x094454ab, 0x7f81cc35), 0x00000000, 21, 0x7327d604);
    Then(m, 60, State(0x7f81cc35, 0x7327d604, 0x4f9dbe3f, 0x094454ab), 0x00000000, 6, 0x310ade8f);
    Then(m, 61, State(0x094454ab, 0x310ade8f, 0x7327d604, 0x4f9dbe3f), 0x00000000, 10, 0x624d8cb2);
    Then(m, 62, State(0x4f9dbe3f, 0x624d8cb2, 0x310ade8f, 0x7327d604), 0x00000000, 15, 0xe484b9d8);
    Then(m, 63, State(0x7327d604, 0xe484b9d8, 0x624d8cb2, 0x310ade8f), 0x00000000, 21, 0xc08226b3);
  }

  /** The starting words, low byte first (section 3.3). */
  lemma StartingBytes()
    ensures StateBytes(Initial()) == [
              0x01, 0x23, 0x45, 0x67, 0x89, 0xab, 0xcd, 0xef,
              0xfe, 0xdc, 0xba, 0x98, 0x76, 0x54, 0x32, 0x10
            ]
  {
  }

  lemma AbcState(m: Octets)
    requires IsAbc(m)
    ensures After(m) == State(0x98500190, 0xb04fd23c, 0x7d3f96d6, 0x727fe128)
  {
    hide Rounds, IsAbc;
    Steps64(m);
    assert m[..BLOCK] == m && m[BLOCK..] == [];
    assert Fold(Compress, Initial(), m) == Fold(Compress, Compress(Initial(), m), []);
  }

  lemma AbcBytes()
    ensures StateBytes(State(0x98500190, 0xb04fd23c, 0x7d3f96d6, 0x727fe128)) ==
            [0x90, 0x01, 0x50, 0x98, 0x3c, 0xd2, 0x4f, 0xb0, 0xd6, 0x96, 0x3f, 0x7d, 0x28, 0xe1, 0x7f, 0x72]
  {
  }

  lemma AbcDigest()
    ensures Digest(Abc()) ==
            [0x90, 0x01, 0x50, 0x98, 0x3c, 0xd2, 0x4f, 0xb0, 0xd6, 0x96, 0x3f, 0x7d, 0x28, 0xe1, 0x7f, 0x72]
  {
    AbcState(Padded(Abc(), LittleEndian(LowBits(3)) + LittleEndian(HighBits(3))));
    AbcBytes();
    hide After, StateBytes, Padded, LittleEndian, HighBits, LowBits;
  }
}
