/** The digest of "abc", the first example of FIPS 180-1 (RFC 3174 section 7.3), worked out word by word and round by
    round. */
module Sha1Example {
  import opened Hashing
  import opened Sha1Block
  import opened Sha1

  /** The one block of the padded message. */
  predicate IsAbc(m: Octets) {
    m == Padded(Abc(), BigEndian(HighBits(3)) + BigEndian(LowBits(3)))
  }

  lemma LengthBytes()
    ensures BigEndian(HighBits(3)) == [0, 0, 0, 0] && BigEndian(LowBits(3)) == [0, 0, 0, 24]
  {
    assert HighBits(3) == 0 && LowBits(3) == 24;
    hide HighBits, LowBits;
  }

  lemma ByteAt(m: Octets, k: nat)
    requires IsAbc(m) && k < BLOCK
    ensures |m| == BLOCK
    ensures m[k] == if k < 3 then Abc()[k] else if k == 3 then 0x80 else if k == 63 then 24 else 0
  {
    LengthBytes();
    hide BigEndian, HighBits, LowBits;
    assert (55 - 3) % BLOCK == 52;
  }

  // ------------------------------------------------------------------ the words

  predicate Scheduled(m: Octets, t: nat, w: bv32) {
    IsAbc(m) && |m| == BLOCK && W(m, t) == w
  }

  lemma WordOf(m: Octets, t: nat, p: bv8, q: bv8, r: bv8, s: bv8)
    requires IsAbc(m) && t < 16
    requires p == (if t == 0 then 0x61 else 0) && q == (if t == 0 then 0x62 else 0)
    requires r == (if t == 0 then 0x63 else 0) && s == (if t == 0 then 0x80 else if t == 15 then 24 else 0)
    ensures Scheduled(m, t, (p as bv32 << 24) | (q as bv32 << 16) | (r as bv32 << 8) | s as bv32)
  {
    hide IsAbc;
    ByteAt(m, 4 * t);
    ByteAt(m, 4 * t + 1);
    ByteAt(m, 4 * t + 2);
    ByteAt(m, 4 * t + 3);
  }

  lemma FirstWords(m: Octets)
    requires IsAbc(m)
    ensures Scheduled(m, 0, 0x61626380) && Scheduled(m, 15, 24)
    ensures forall t {:trigger Scheduled(m, t, 0)} :: 0 < t < 15 ==> Scheduled(m, t, 0)
  {
    hide IsAbc, Scheduled;
    forall t | 0 < t < 15
      ensures Scheduled(m, t, 0)
    {
      WordOf(m, t, 0, 0, 0, 0);
    }
    WordOf(m, 0, 0x61, 0x62, 0x63, 0x80);
    WordOf(m, 15, 0, 0, 0, 24);
  }

  lemma Next(m: Octets, t: nat, x: bv32, y: bv32, z: bv32, v: bv32)
    requires t >= 16
    requires Scheduled(m, t - 3, x) && Scheduled(m, t - 8, y) && Scheduled(m, t - 14, z) && Scheduled(m, t - 16, v)
    ensures Scheduled(m, t, Mix(x, y, z, v))
  {
    hide Mix, W, IsAbc;
    WordStep(m, t);
  }

  lemma Words16(m: Octets)
    requires IsAbc(m)
    ensures Scheduled(m, 16, 0xc2c4c700) && Scheduled(m, 17, 0x00000000) && Scheduled(m, 18, 0x00000030) && Scheduled(m, 19, 0x85898e01)
    ensures Scheduled(m, 20, 0x00000000) && Scheduled(m, 21, 0x00000060) && Scheduled(m, 22, 0x0b131c03) && Scheduled(m, 23, 0x00000030)
    ensures Scheduled(m, 24, 0x85898ec1) && Scheduled(m, 25, 0x16263806) && Scheduled(m, 26, 0x00000000) && Scheduled(m, 27, 0x00000180)
    ensures Scheduled(m, 28, 0x2c4c700c) && Scheduled(m, 29, 0x000000f0) && Scheduled(m, 30, 0x93afb507) && Scheduled(m, 31, 0x5898e048)
  {
    hide Scheduled, IsAbc;
    FirstWords(m);
    Next(m, 16, 0x00000000, 0x00000000, 0x00000000, 0x61626380);
    Next(m, 17, 0x00000000, 0x00000000, 0x00000000, 0x00000000);
    Next(m, 18, 0x00000018, 0x00000000, 0x00000000, 0x00000000);
    Next(m, 19, 0xc2c4c700, 0x00000000, 0x00000000, 0x00000000);
    Next(m, 20, 0x00000000, 0x00000000, 0x00000000, 0x00000000);
    Next(m, 21, 0x00000030, 0x00000000, 0x00000000, 0x00000000);
    Next(m, 22, 0x85898e01, 0x00000000, 0x00000000, 0x00000000);
    Next(m, 23, 0x00000000, 0x00000018, 0x00000000, 0x00000000);
    Next(m, 24, 0x00000060, 0xc2c4c700, 0x00000000, 0x00000000);
    Next(m, 25, 0x0b131c03, 0x00000000, 0x00000000, 0x00000000);
    Next(m, 26, 0x00000030, 0x00000030, 0x00000000, 0x00000000);
    Next(m, 27, 0x85898ec1, 0x85898e01, 0x00000000, 0x00000000);
    Next(m, 28, 0x16263806, 0x00000000, 0x00000000, 0x00000000);
    Next(m, 29, 0x00000000, 0x00000060, 0x00000018, 0x00000000);
    Next(m, 30, 0x00000180, 0x0b131c03, 0xc2c4c700, 0x00000000);
    Next(m, 31, 0x2c4c700c, 0x00000030, 0x00000000, 0x00000018);
  }

  lemma Words32(m: Octets)
    requires IsAbc(m)
    ensures Scheduled(m, 32, 0x8e9a9202) && Scheduled(m, 33, 0x00000600) && Scheduled(m, 34, 0xb131c0f0) && Scheduled(m, 35, 0x16263bc6)
    ensures Scheduled(m, 36, 0x4ebed41e) && Scheduled(m, 37, 0x626380a1) && Scheduled(m, 38, 0x16263806) && Scheduled(m, 39, 0x000018c0)
    ensures Scheduled(m, 40, 0xd2e138c4) && Scheduled(m, 41, 0x00000f00) && Scheduled(m, 42, 0x3afb5079) && Scheduled(m, 43, 0x898e04e5)
    ensures Scheduled(m, 44, 0xe2ba3c2b) && Scheduled(m, 45, 0x000060c0) && Scheduled(m, 46, 0x053a37cd) && Scheduled(m, 47, 0x74458547)
  {
    hide Scheduled, IsAbc;
    Words16(m);
    Next(m, 32, 0x000000f0, 0x85898ec1, 0x00000030, 0xc2c4c700);
    Next(m, 33, 0x93afb507, 0x16263806, 0x85898e01, 0x00000000);
    Next(m, 34, 0x5898e048, 0x00000000, 0x00000000, 0x00000030);
    Next(m, 35, 0x8e9a9202, 0x00000180, 0x00000060, 0x85898e01);
    Next(m, 36, 0x00000600, 0x2c4c700c, 0x0b131c03, 0x00000000);
    Next(m, 37, 0xb131c0f0, 0x000000f0, 0x00000030, 0x00000060);
    Next(m, 38, 0x16263bc6, 0x93afb507, 0x85898ec1, 0x0b131c03);
    Next(m, 39, 0x4ebed41e, 0x5898e048, 0x16263806, 0x00000030);
    Next(m, 40, 0x626380a1, 0x8e9a9202, 0x00000000, 0x85898ec1);
    Next(m, 41, 0x16263806, 0x00000600, 0x00000180, 0x16263806);
    Next(m, 42, 0x000018c0, 0xb131c0f0, 0x2c4c700c, 0x00000000);
    Next(m, 43, 0xd2e138c4, 0x16263bc6, 0x000000f0, 0x00000180);
    Next(m, 44, 0x00000f00, 0x4ebed41e, 0x93afb507, 0x2c4c700c);
    Next(m, 45, 0x3afb5079, 0x626380a1, 0x5898e048, 0x000000f0);
    Next(m, 46, 0x898e04e5, 0x16263806, 0x8e9a9202, 0x93afb507);
    Next(m, 47, 0xe2ba3c2b, 0x000018c0, 0x00000600, 0x5898e048);
  }

  lemma Words48(m: Octets)
    requires IsAbc(m)
    ensures Scheduled(m, 48, 0xda9415ed) && Scheduled(m, 49, 0x26380a16) && Scheduled(m, 50, 0x626383a1) && Scheduled(m, 51, 0x4ebf54de)
    ensures Scheduled(m, 52, 0x3835b44b) && Scheduled(m, 53, 0x0000f600) && Scheduled(m, 54, 0x1e84c7a3) && Scheduled(m, 55, 0x98e04d98)
    ensures Scheduled(m, 56, 0x651d16a0) && Scheduled(m, 57, 0x62658ca1) && Scheduled(m, 58, 0x458544d6) && Scheduled(m, 59, 0x44584cb7)
    ensures Scheduled(m, 60, 0x7ba06619) && Scheduled(m, 61, 0x6380aea2) && Scheduled(m, 62, 0x0ae55269) && Scheduled(m, 63, 0x627b49a1)
  {
    hide Scheduled, IsAbc;
    Words32(m);
    Next(m, 48, 0x000060c0, 0xd2e138c4, 0xb131c0f0, 0x8e9a9202);
    Next(m, 49, 0x053a37cd, 0x00000f00, 0x16263bc6, 0x00000600);
    Next(m, 50, 0x74458547, 0x3afb5079, 0x4ebed41e, 0xb131c0f0);
    Next(m, 51, 0xda9415ed, 0x898e04e5, 0x626380a1, 0x16263bc6);
    Next(m, 52, 0x26380a16, 0xe2ba3c2b, 0x16263806, 0x4ebed41e);
    Next(m, 53, 0x626383a1, 0x000060c0, 0x000018c0, 0x626380a1);
    Next(m, 54, 0x4ebf54de, 0x053a37cd, 0xd2e138c4, 0x16263806);
    Next(m, 55, 0x3835b44b, 0x74458547, 0x00000f00, 0x000018c0);
    Next(m, 56, 0x0000f600, 0xda9415ed, 0x3afb5079, 0xd2e138c4);
    Next(m, 57, 0x1e84c7a3, 0x26380a16, 0x898e04e5, 0x00000f00);
    Next(m, 58, 0x98e04d98, 0x626383a1, 0xe2ba3c2b, 0x3afb5079);
    Next(m, 59, 0x651d16a0, 0x4ebf54de, 0x000060c0, 0x898e04e5);
    Next(m, 60, 0x62658ca1, 0x3835b44b, 0x053a37cd, 0xe2ba3c2b);
    Next(m, 61, 0x458544d6, 0x0000f600, 0x74458547, 0x000060c0);
    Next(m, 62, 0x44584cb7, 0x1e84c7a3, 0xda9415ed, 0x053a37cd);
    Next(m, 63, 0x7ba06619, 0x98e04d98, 0x26380a16, 0x74458547);
  }

  lemma Words64(m: Octets)
    requires IsAbc(m)
    ensures Scheduled(m, 64, 0x7cd45c9d) && Scheduled(m, 65, 0x000f0000) && Scheduled(m, 66, 0xfb50753a) && Scheduled(m, 67, 0xec6765e8)
    ensures Scheduled(m, 68, 0xba3c2be2) && Scheduled(m, 69, 0x0060c000) && Scheduled(m, 70, 0x3a37cd05) && Scheduled(m, 71, 0x458546f4)
    ensures Scheduled(m, 72, 0xb8599dd6) && Scheduled(m, 73, 0x380a1a26) && Scheduled(m, 74, 0x01e02203) && Scheduled(m, 75, 0xe7cc3456)
    ensures Scheduled(m, 76, 0xe6e60b69) && Scheduled(m, 77, 0x00f60a00) && Scheduled(m, 78, 0x5795ef4f) && Scheduled(m, 79, 0x822e0879)
  {
    hide Scheduled, IsAbc;
    Words48(m);
    Next(m, 64, 0x6380aea2, 0x651d16a0, 0x626383a1, 0xda9415ed);
    Next(m, 65, 0x0ae55269, 0x62658ca1, 0x4ebf54de, 0x26380a16);
    Next(m, 66, 0x627b49a1, 0x458544d6, 0x3835b44b, 0x626383a1);
    Next(m, 67, 0x7cd45c9d, 0x44584cb7, 0x0000f600, 0x4ebf54de);
    Next(m, 68, 0x000f0000, 0x7ba06619, 0x1e84c7a3, 0x3835b44b);
    Next(m, 69, 0xfb50753a, 0x6380aea2, 0x98e04d98, 0x0000f600);
    Next(m, 70, 0xec6765e8, 0x0ae55269, 0x651d16a0, 0x1e84c7a3);
    Next(m, 71, 0xba3c2be2, 0x627b49a1, 0x62658ca1, 0x98e04d98);
    Next(m, 72, 0x0060c000, 0x7cd45c9d, 0x458544d6, 0x651d16a0);
    Next(m, 73, 0x3a37cd05, 0x000f0000, 0x44584cb7, 0x62658ca1);
    Next(m, 74, 0x458546f4, 0xfb50753a, 0x7ba06619, 0x458544d6);
    Next(m, 75, 0xb8599dd6, 0xec6765e8, 0x6380aea2, 0x44584cb7);
    Next(m, 76, 0x380a1a26, 0xba3c2be2, 0x0ae55269, 0x7ba06619);
    Next(m, 77, 0x01e02203, 0x0060c000, 0x627b49a1, 0x6380aea2);
    Next(m, 78, 0xe7cc3456, 0x3a37cd05, 0x7cd45c9d, 0x0ae55269);
    Next(m, 79, 0xe6e60b69, 0x458546f4, 0x000f0000, 0x627b49a1);
  }

  // ------------------------------------------------------------------ the rounds

  predicate Reached(m: Octets, t: nat, s: State) {
    IsAbc(m) && |m| == BLOCK && Rounds(m, Initial(), t) == s
  }

  lemma Start(m: Octets)
    requires IsAbc(m)
    ensures Reached(m, 0, State(0x67452301, 0xefcdab89, 0x98badcfe, 0x10325476, 0xc3d2e1f0))
  {
    ByteAt(m, 0);
    hide IsAbc;
  }

  lemma Then(m: Octets, t: nat, s: State, w: bv32, next: State)
    requires Reached(m, t, s) && Scheduled(m, t, w) && Round(t, s, w) == next
    ensures Reached(m, t + 1, next)
  {
    hide IsAbc, W, Round;
  }

  lemma Rounds10(m: Octets)
    requires IsAbc(m)
    ensures Reached(m, 10, State(0x8351f929, 0x4b6ae328, 0x27a301f5, 0x664f8c30, 0x0ff1f290))
  {
    hide Scheduled, IsAbc, Reached, Rounds;
    FirstWords(m);
    Start(m);
    Then(m, 0, State(0x67452301, 0xefcdab89, 0x98badcfe, 0x10325476, 0xc3d2e1f0), 0x61626380,
         State(0x0116fc33, 0x67452301, 0x7bf36ae2, 0x98badcfe, 0x10325476));
    Then(m, 1, State(0x0116fc33, 0x67452301, 0x7bf36ae2, 0x98badcfe, 0x10325476), 0x00000000,
         State(0x8990536d, 0x0116fc33, 0x59d148c0, 0x7bf36ae2, 0x98badcfe));
    Then(m, 2, State(0x8990536d, 0x0116fc33, 0x59d148c0, 0x7bf36ae2, 0x98badcfe), 0x00000000,
         State(0xa1390f08, 0x8990536d, 0xc045bf0c, 0x59d148c0, 0x7bf36ae2));
    Then(m, 3, State(0xa1390f08, 0x8990536d, 0xc045bf0c, 0x59d148c0, 0x7bf36ae2), 0x00000000,
         State(0xcdd8e11b, 0xa1390f08, 0x626414db, 0xc045bf0c, 0x59d148c0));
    Then(m, 4, State(0xcdd8e11b, 0xa1390f08, 0x626414db, 0xc045bf0c, 0x59d148c0), 0x00000000,
         State(0xcfd499de, 0xcdd8e11b, 0x284e43c2, 0x626414db, 0xc045bf0c));
    Then(m, 5, State(0xcfd499de, 0xcdd8e11b, 0x284e43c2, 0x626414db, 0xc045bf0c), 0x00000000,
         State(0x3fc7ca40, 0xcfd499de, 0xf3763846, 0x284e43c2, 0x626414db));
    Then(m, 6, State(0x3fc7ca40, 0xcfd499de, 0xf3763846, 0x284e43c2, 0x626414db), 0x00000000,
         State(0x993e30c1, 0x3fc7ca40, 0xb3f52677, 0xf3763846, 0x284e43c2));
    Then(m, 7, State(0x993e30c1, 0x3fc7ca40, 0xb3f52677, 0xf3763846, 0x284e43c2), 0x00000000,
         State(0x9e8c07d4, 0x993e30c1, 0x0ff1f290, 0xb3f52677, 0xf3763846));
    Then(m, 8, State(0x9e8c07d4, 0x993e30c1, 0x0ff1f290, 0xb3f52677, 0xf3763846), 0x00000000,
         State(0x4b6ae328, 0x9e8c07d4, 0x664f8c30, 0x0ff1f290, 0xb3f52677));
    Then(m, 9, State(0x4b6ae328, 0x9e8c07d4, 0x664f8c30, 0x0ff1f290, 0xb3f52677), 0x00000000,
         State(0x8351f929, 0x4b6ae328, 0x27a301f5, 0x664f8c30, 0x0ff1f290));
  }

  lemma Rounds20(m: Octets)
    requires IsAbc(m)
    ensures Reached(m, 20, State(0xfd9e1d7d, 0xdc64901d, 0x20aa99ca, 0xd3a49608, 0xc82f758b))
  {
    hide Scheduled, IsAbc, Reached, Rounds;
    FirstWords(m);
    Words16(m);
    Rounds10(m);
    Then(m, 10, State(0x8351f929, 0x4b6ae328, 0x27a301f5, 0x664f8c30, 0x0ff1f290), 0x00000000,
         State(0xfbda9e89, 0x8351f929, 0x12dab8ca, 0x27a301f5, 0x664f8c30));
    Then(m, 11, State(0xfbda9e89, 0x8351f929, 0x12dab8ca, 0x27a301f5, 0x664f8c30), 0x00000000,
         State(0x63188fe4, 0xfbda9e89, 0x60d47e4a, 0x12dab8ca, 0x27a301f5));
    Then(m, 12, State(0x63188fe4, 0xfbda9e89, 0x60d47e4a, 0x12dab8ca, 0x27a301f5), 0x00000000,
         State(0x4607b664, 0x63188fe4, 0x7ef6a7a2, 0x60d47e4a, 0x12dab8ca));
    Then(m, 13, State(0x4607b664, 0x63188fe4, 0x7ef6a7a2, 0x60d47e4a, 0x12dab8ca), 0x00000000,
         State(0x9128f695, 0x4607b664, 0x18c623f9, 0x7ef6a7a2, 0x60d47e4a));
    Then(m, 14, State(0x9128f695, 0x4607b664, 0x18c623f9, 0x7ef6a7a2, 0x60d47e4a), 0x00000000,
         State(0x196bee77, 0x9128f695, 0x1181ed99, 0x18c623f9, 0x7ef6a7a2));
    Then(m, 15, State(0x196bee77, 0x9128f695, 0x1181ed99, 0x18c623f9, 0x7ef6a7a2), 0x00000018,
         State(0x20bdd62f, 0x196bee77, 0x644a3da5, 0x1181ed99, 0x18c623f9));
    Then(m, 16, State(0x20bdd62f, 0x196bee77, 0x644a3da5, 0x1181ed99, 0x18c623f9), 0xc2c4c700,
         State(0x4e925823, 0x20bdd62f, 0xc65afb9d, 0x644a3da5, 0x1181ed99));
    Then(m, 17, State(0x4e925823, 0x20bdd62f, 0xc65afb9d, 0x644a3da5, 0x1181ed99), 0x00000000,
         State(0x82aa6728, 0x4e925823, 0xc82f758b, 0xc65afb9d, 0x644a3da5));
    Then(m, 18, State(0x82aa6728, 0x4e925823, 0xc82f758b, 0xc65afb9d, 0x644a3da5), 0x00000030,
         State(0xdc64901d, 0x82aa6728, 0xd3a49608, 0xc82f758b, 0xc65afb9d));
    Then(m, 19, State(0xdc64901d, 0x82aa6728, 0xd3a49608, 0xc82f758b, 0xc65afb9d), 0x85898e01,
         State(0xfd9e1d7d, 0xdc64901d, 0x20aa99ca, 0xd3a49608, 0xc82f758b));
  }

  lemma Rounds30(m: Octets)
    requires IsAbc(m)
    ensures Reached(m, 30, State(0xc5fbaf5d, 0x8370b52e, 0xd2aa1365, 0x6f8d7ef5, 0x12104ee9))
  {
    hide Scheduled, IsAbc, Reached, Rounds;
    Words16(m);
    Rounds20(m);
    Then(m, 20, State(0xfd9e1d7d, 0xdc64901d, 0x20aa99ca, 0xd3a49608, 0xc82f758b), 0x00000000,
         State(0x1a37b0ca, 0xfd9e1d7d, 0x77192407, 0x20aa99ca, 0xd3a49608));
    Then(m, 21, State(0x1a37b0ca, 0xfd9e1d7d, 0x77192407, 0x20aa99ca, 0xd3a49608), 0x00000060,
         State(0x33a23bfc, 0x1a37b0ca, 0x7f67875f, 0x77192407, 0x20aa99ca));
    Then(m, 22, State(0x33a23bfc, 0x1a37b0ca, 0x7f67875f, 0x77192407, 0x20aa99ca), 0x0b131c03,
         State(0x21283486, 0x33a23bfc, 0x868dec32, 0x7f67875f, 0x77192407));
    Then(m, 23, State(0x21283486, 0x33a23bfc, 0x868dec32, 0x7f67875f, 0x77192407), 0x00000030,
         State(0xd541f12d, 0x21283486, 0x0ce88eff, 0x868dec32, 0x7f67875f));
    Then(m, 24, State(0xd541f12d, 0x21283486, 0x0ce88eff, 0x868dec32, 0x7f67875f), 0x85898ec1,
         State(0xc7567dc6, 0xd541f12d, 0x884a0d21, 0x0ce88eff, 0x868dec32));
    Then(m, 25, State(0xc7567dc6, 0xd541f12d, 0x884a0d21, 0x0ce88eff, 0x868dec32), 0x16263806,
         State(0x48413ba4, 0xc7567dc6, 0x75507c4b, 0x884a0d21, 0x0ce88eff));
    Then(m, 26, State(0x48413ba4, 0xc7567dc6, 0x75507c4b, 0x884a0d21, 0x0ce88eff), 0x00000000,
         State(0xbe35fbd5, 0x48413ba4, 0xb1d59f71, 0x75507c4b, 0x884a0d21));
    Then(m, 27, State(0xbe35fbd5, 0x48413ba4, 0xb1d59f71, 0x75507c4b, 0x884a0d21), 0x00000180,
         State(0x4aa84d97, 0xbe35fbd5, 0x12104ee9, 0xb1d59f71, 0x75507c4b));
    Then(m, 28, State(0x4aa84d97, 0xbe35fbd5, 0x12104ee9, 0xb1d59f71, 0x75507c4b), 0x2c4c700c,
         State(0x8370b52e, 0x4aa84d97, 0x6f8d7ef5, 0x12104ee9, 0xb1d59f71));
    Then(m, 29, State(0x8370b52e, 0x4aa84d97, 0x6f8d7ef5, 0x12104ee9, 0xb1d59f71), 0x000000f0,
         State(0xc5fbaf5d, 0x8370b52e, 0xd2aa1365, 0x6f8d7ef5, 0x12104ee9));
  }

  lemma Rounds40(m: Octets)
    requires IsAbc(m)
    ensures Reached(m, 40, State(0x32de1cba, 0x4c986405, 0xf718e5cf, 0x03d447f6, 0xf72eec32))
  {
    hide Scheduled, IsAbc, Reached, Rounds;
    Words16(m);
    Words32(m);
    Rounds30(m);
    Then(m, 30, State(0xc5fbaf5d, 0x8370b52e, 0xd2aa1365, 0x6f8d7ef5, 0x12104ee9), 0x93afb507,
         State(0x1267b407, 0xc5fbaf5d, 0xa0dc2d4b, 0xd2aa1365, 0x6f8d7ef5));
    Then(m, 31, State(0x1267b407, 0xc5fbaf5d, 0xa0dc2d4b, 0xd2aa1365, 0x6f8d7ef5), 0x5898e048,
         State(0x3b845d33, 0x1267b407, 0x717eebd7, 0xa0dc2d4b, 0xd2aa1365));
    Then(m, 32, State(0x3b845d33, 0x1267b407, 0x717eebd7, 0xa0dc2d4b, 0xd2aa1365), 0x8e9a9202,
         State(0x046faa0a, 0x3b845d33, 0xc499ed01, 0x717eebd7, 0xa0dc2d4b));
    Then(m, 33, State(0x046faa0a, 0x3b845d33, 0xc499ed01, 0x717eebd7, 0xa0dc2d4b), 0x00000600,
         State(0x2c0ebc11, 0x046faa0a, 0xcee1174c, 0xc499ed01, 0x717eebd7));
    Then(m, 34, State(0x2c0ebc11, 0x046faa0a, 0xcee1174c, 0xc499ed01, 0x717eebd7), 0xb131c0f0,
         State(0x21796ad4, 0x2c0ebc11, 0x811bea82, 0xcee1174c, 0xc499ed01));
    Then(m, 35, State(0x21796ad4, 0x2c0ebc11, 0x811bea82, 0xcee1174c, 0xc499ed01), 0x16263bc6,
         State(0xdcbbb0cb, 0x21796ad4, 0x4b03af04, 0x811bea82, 0xcee1174c));
    Then(m, 36, State(0xdcbbb0cb, 0x21796ad4, 0x4b03af04, 0x811bea82, 0xcee1174c), 0x4ebed41e,
         State(0x0f511fd8, 0xdcbbb0cb, 0x085e5ab5, 0x4b03af04, 0x811bea82));
    Then(m, 37, State(0x0f511fd8, 0xdcbbb0cb, 0x085e5ab5, 0x4b03af04, 0x811bea82), 0x626380a1,
         State(0xdc63973f, 0x0f511fd8, 0xf72eec32, 0x085e5ab5, 0x4b03af04));
    Then(m, 38, State(0xdc63973f, 0x0f511fd8, 0xf72eec32, 0x085e5ab5, 0x4b03af04), 0x16263806,
         State(0x4c986405, 0xdc63973f, 0x03d447f6, 0xf72eec32, 0x085e5ab5));
    Then(m, 39, State(0x4c986405, 0xdc63973f, 0x03d447f6, 0xf72eec32, 0x085e5ab5), 0x000018c0,
         State(0x32de1cba, 0x4c986405, 0xf718e5cf, 0x03d447f6, 0xf72eec32));
  }

  lemma Rounds50(m: Octets)
    requires IsAbc(m)
    ensures Reached(m, 50, State(0x120731c5, 0xbaf39337, 0xafab40b2, 0x2806e11b, 0x8714787c))
  {
    hide Scheduled, IsAbc, Reached, Rounds;
    Words32(m);
    Words48(m);
    Rounds40(m);
    Then(m, 40, State(0x32de1cba, 0x4c986405, 0xf718e5cf, 0x03d447f6, 0xf72eec32), 0xd2e138c4,
         State(0xfc87dedf, 0x32de1cba, 0x53261901, 0xf718e5cf, 0x03d447f6));
    Then(m, 41, State(0xfc87dedf, 0x32de1cba, 0x53261901, 0xf718e5cf, 0x03d447f6), 0x00000f00,
         State(0x970a0d5c, 0xfc87dedf, 0x8cb7872e, 0x53261901, 0xf718e5cf));
    Then(m, 42, State(0x970a0d5c, 0xfc87dedf, 0x8cb7872e, 0x53261901, 0xf718e5cf), 0x3afb5079,
         State(0x7f193dc5, 0x970a0d5c, 0xff21f7b7, 0x8cb7872e, 0x53261901));
    Then(m, 43, State(0x7f193dc5, 0x970a0d5c, 0xff21f7b7, 0x8cb7872e, 0x53261901), 0x898e04e5,
         State(0xee1b1aaf, 0x7f193dc5, 0x25c28357, 0xff21f7b7, 0x8cb7872e));
    Then(m, 44, State(0xee1b1aaf, 0x7f193dc5, 0x25c28357, 0xff21f7b7, 0x8cb7872e), 0xe2ba3c2b,
         State(0x40f28e09, 0xee1b1aaf, 0x5fc64f71, 0x25c28357, 0xff21f7b7));
    Then(m, 45, State(0x40f28e09, 0xee1b1aaf, 0x5fc64f71, 0x25c28357, 0xff21f7b7), 0x000060c0,
         State(0x1c51e1f2, 0x40f28e09, 0xfb86c6ab, 0x5fc64f71, 0x25c28357));
    Then(m, 46, State(0x1c51e1f2, 0x40f28e09, 0xfb86c6ab, 0x5fc64f71, 0x25c28357), 0x053a37cd,
         State(0xa01b846c, 0x1c51e1f2, 0x503ca382, 0xfb86c6ab, 0x5fc64f71));
    Then(m, 47, State(0xa01b846c, 0x1c51e1f2, 0x503ca382, 0xfb86c6ab, 0x5fc64f71), 0x74458547,
         State(0xbead02ca, 0xa01b846c, 0x8714787c, 0x503ca382, 0xfb86c6ab));
    Then(m, 48, State(0xbead02ca, 0xa01b846c, 0x8714787c, 0x503ca382, 0xfb86c6ab), 0xda9415ed,
         State(0xbaf39337, 0xbead02ca, 0x2806e11b, 0x8714787c, 0x503ca382));
    Then(m, 49, State(0xbaf39337, 0xbead02ca, 0x2806e11b, 0x8714787c, 0x503ca382), 0x26380a16,
         State(0x120731c5, 0xbaf39337, 0xafab40b2, 0x2806e11b, 0x8714787c));
  }

  lemma Rounds60(m: Octets)
    requires IsAbc(m)
    ensures Reached(m, 60, State(0x3f52de5a, 0x09d785fd, 0x3498bfd4, 0xf211824f, 0xd79915ab))
  {
    hide Scheduled, IsAbc, Reached, Rounds;
    Words48(m);
    Rounds50(m);
    Then(m, 50, State(0x120731c5, 0xbaf39337, 0xafab40b2, 0x2806e11b, 0x8714787c), 0x626383a1,
         State(0x641db2ce, 0x120731c5, 0xeebce4cd, 0xafab40b2, 0x2806e11b));
    Then(m, 51, State(0x641db2ce, 0x120731c5, 0xeebce4cd, 0xafab40b2, 0x2806e11b), 0x4ebf54de,
         State(0x3847ad66, 0x641db2ce, 0x4481cc71, 0xeebce4cd, 0xafab40b2));
    Then(m, 52, State(0x3847ad66, 0x641db2ce, 0x4481cc71, 0xeebce4cd, 0xafab40b2), 0x3835b44b,
         State(0xe490436d, 0x3847ad66, 0x99076cb3, 0x4481cc71, 0xeebce4cd));
    Then(m, 53, State(0xe490436d, 0x3847ad66, 0x99076cb3, 0x4481cc71, 0xeebce4cd), 0x0000f600,
         State(0x27e9f1d8, 0xe490436d, 0x8e11eb59, 0x99076cb3, 0x4481cc71));
    Then(m, 54, State(0x27e9f1d8, 0xe490436d, 0x8e11eb59, 0x99076cb3, 0x4481cc71), 0x1e84c7a3,
         State(0x7b71f76d, 0x27e9f1d8, 0x792410db, 0x8e11eb59, 0x99076cb3));
    Then(m, 55, State(0x7b71f76d, 0x27e9f1d8, 0x792410db, 0x8e11eb59, 0x99076cb3), 0x98e04d98,
         State(0x5e6456af, 0x7b71f76d, 0x09fa7c76, 0x792410db, 0x8e11eb59));
    Then(m, 56, State(0x5e6456af, 0x7b71f76d, 0x09fa7c76, 0x792410db, 0x8e11eb59), 0x651d16a0,
         State(0xc846093f, 0x5e6456af, 0x5edc7ddb, 0x09fa7c76, 0x792410db));
    Then(m, 57, State(0xc846093f, 0x5e6456af, 0x5edc7ddb, 0x09fa7c76, 0x792410db), 0x62658ca1,
         State(0xd262ff50, 0xc846093f, 0xd79915ab, 0x5edc7ddb, 0x09fa7c76));
    Then(m, 58, State(0xd262ff50, 0xc846093f, 0xd79915ab, 0x5edc7ddb, 0x09fa7c76), 0x458544d6,
         State(0x09d785fd, 0xd262ff50, 0xf211824f, 0xd79915ab, 0x5edc7ddb));
    Then(m, 59, State(0x09d785fd, 0xd262ff50, 0xf211824f, 0xd79915ab, 0x5edc7ddb), 0x44584cb7,
         State(0x3f52de5a, 0x09d785fd, 0x3498bfd4, 0xf211824f, 0xd79915ab));
  }

  lemma Rounds70(m: Octets)
    requires IsAbc(m)
    ensures Reached(m, 70, State(0x3f2588c2, 0x497093c0, 0xde37534a, 0x030f7cad, 0x4405957e))
  {
    hide Scheduled, IsAbc, Reached, Rounds;
    Words48(m);
    Words64(m);
    Rounds60(m);
    Then(m, 60, State(0x3f52de5a, 0x09d785fd, 0x3498bfd4, 0xf211824f, 0xd79915ab), 0x7ba06619,
         State(0xd756c147, 0x3f52de5a, 0x4275e17f, 0x3498bfd4, 0xf211824f));
    Then(m, 61, State(0xd756c147, 0x3f52de5a, 0x4275e17f, 0x3498bfd4, 0xf211824f), 0x6380aea2,
         State(0x548c9cb2, 0xd756c147, 0x8fd4b796, 0x4275e17f, 0x3498bfd4));
    Then(m, 62, State(0x548c9cb2, 0xd756c147, 0x8fd4b796, 0x4275e17f, 0x3498bfd4), 0x0ae55269,
         State(0xb66c020b, 0x548c9cb2, 0xf5d5b051, 0x8fd4b796, 0x4275e17f));
    Then(m, 63, State(0xb66c020b, 0x548c9cb2, 0xf5d5b051, 0x8fd4b796, 0x4275e17f), 0x627b49a1,
         State(0x6b61c9e1, 0xb66c020b, 0x9523272c, 0xf5d5b051, 0x8fd4b796));
    Then(m, 64, State(0x6b61c9e1, 0xb66c020b, 0x9523272c, 0xf5d5b051, 0x8fd4b796), 0x7cd45c9d,
         State(0x19dfa7ac, 0x6b61c9e1, 0xed9b0082, 0x9523272c, 0xf5d5b051));
    Then(m, 65, State(0x19dfa7ac, 0x6b61c9e1, 0xed9b0082, 0x9523272c, 0xf5d5b051), 0x000f0000,
         State(0x101655f9, 0x19dfa7ac, 0x5ad87278, 0xed9b0082, 0x9523272c));
    Then(m, 66, State(0x101655f9, 0x19dfa7ac, 0x5ad87278, 0xed9b0082, 0x9523272c), 0xfb50753a,
         State(0x0c3df2b4, 0x101655f9, 0x0677e9eb, 0x5ad87278, 0xed9b0082));
    Then(m, 67, State(0x0c3df2b4, 0x101655f9, 0x0677e9eb, 0x5ad87278, 0xed9b0082), 0xec6765e8,
         State(0x78dd4d2b, 0x0c3df2b4, 0x4405957e, 0x0677e9eb, 0x5ad87278));
    Then(m, 68, State(0x78dd4d2b, 0x0c3df2b4, 0x4405957e, 0x0677e9eb, 0x5ad87278), 0xba3c2be2,
         State(0x497093c0, 0x78dd4d2b, 0x030f7cad, 0x4405957e, 0x0677e9eb));
    Then(m, 69, State(0x497093c0, 0x78dd4d2b, 0x030f7cad, 0x4405957e, 0x0677e9eb), 0x0060c000,
         State(0x3f2588c2, 0x497093c0, 0xde37534a, 0x030f7cad, 0x4405957e));
  }

  lemma Rounds80(m: Octets)
    requires IsAbc(m)
    ensures Reached(m, 80, State(0x42541b35, 0x5738d5e1, 0x21834873, 0x681e6df6, 0xd8fdf6ad))
  {
    hide Scheduled, IsAbc, Reached, Rounds;
    Words64(m);
    Rounds70(m);
    Then(m, 70, State(0x3f2588c2, 0x497093c0, 0xde37534a, 0x030f7cad, 0x4405957e), 0x3a37cd05,
         State(0xc199f8c7, 0x3f2588c2, 0x125c24f0, 0xde37534a, 0x030f7cad));
    Then(m, 71, State(0xc199f8c7, 0x3f2588c2, 0x125c24f0, 0xde37534a, 0x030f7cad), 0x458546f4,
         State(0x39859de7, 0xc199f8c7, 0x8fc96230, 0x125c24f0, 0xde37534a));
    Then(m, 72, State(0x39859de7, 0xc199f8c7, 0x8fc96230, 0x125c24f0, 0xde37534a), 0xb8599dd6,
         State(0xedb42de4, 0x39859de7, 0xf0667e31, 0x8fc96230, 0x125c24f0));
    Then(m, 73, State(0xedb42de4, 0x39859de7, 0xf0667e31, 0x8fc96230, 0x125c24f0), 0x380a1a26,
         State(0x11793f6f, 0xedb42de4, 0xce616779, 0xf0667e31, 0x8fc96230));
    Then(m, 74, State(0x11793f6f, 0xedb42de4, 0xce616779, 0xf0667e31, 0x8fc96230), 0x01e02203,
         State(0x5ee76897, 0x11793f6f, 0x3b6d0b79, 0xce616779, 0xf0667e31));
    Then(m, 75, State(0x5ee76897, 0x11793f6f, 0x3b6d0b79, 0xce616779, 0xf0667e31), 0xe7cc3456,
         State(0x63f7dab7, 0x5ee76897, 0xc45e4fdb, 0x3b6d0b79, 0xce616779));
    Then(m, 76, State(0x63f7dab7, 0x5ee76897, 0xc45e4fdb, 0x3b6d0b79, 0xce616779), 0xe6e60b69,
         State(0xa079b7d9, 0x63f7dab7, 0xd7b9da25, 0xc45e4fdb, 0x3b6d0b79));
    Then(m, 77, State(0xa079b7d9, 0x63f7dab7, 0xd7b9da25, 0xc45e4fdb, 0x3b6d0b79), 0x00f60a00,
         State(0x860d21cc, 0xa079b7d9, 0xd8fdf6ad, 0xd7b9da25, 0xc45e4fdb));
    Then(m, 78, State(0x860d21cc, 0xa079b7d9, 0xd8fdf6ad, 0xd7b9da25, 0xc45e4fdb), 0x5795ef4f,
         State(0x5738d5e1, 0x860d21cc, 0x681e6df6, 0xd8fdf6ad, 0xd7b9da25));
    Then(m, 79, State(0x5738d5e1, 0x860d21cc, 0x681e6df6, 0xd8fdf6ad, 0xd7b9da25), 0x822e0879,
         State(0x42541b35, 0x5738d5e1, 0x21834873, 0x681e6df6, 0xd8fdf6ad));
  }

  /** The starting words, low byte first: those of MD5 and one more. */
  lemma StartingBytes()
    ensures var s := Initial();
            StateBytes(State(SwapBytes(s.a), SwapBytes(s.b), SwapBytes(s.c), SwapBytes(s.d), SwapBytes(s.e))) == [
              0x01, 0x23, 0x45, 0x67, 0x89, 0xab, 0xcd, 0xef,
              0xfe, 0xdc, 0xba, 0x98, 0x76, 0x54, 0x32, 0x10,
              0xf0, 0xe1, 0xd2, 0xc3
            ]
  {
  }

  lemma AbcState(m: Octets)
    requires IsAbc(m)
    ensures After(m) == State(0xa9993e36, 0x4706816a, 0xba3e2571, 0x7850c26c, 0x9cd0d89d)
  {
    hide Rounds, IsAbc;
    Rounds80(m);
    assert m[..BLOCK] == m && m[BLOCK..] == [];
    assert Fold(Compress, Initial(), m) == Fold(Compress, Compress(Initial(), m), []);
  }

  lemma AbcBytes()
    ensures StateBytes(State(0xa9993e36, 0x4706816a, 0xba3e2571, 0x7850c26c, 0x9cd0d89d)) ==
            [0xa9, 0x99, 0x3e, 0x36, 0x47, 0x06, 0x81, 0x6a, 0xba, 0x3e, 0x25, 0x71, 0x78, 0x50, 0xc2, 0x6c, 0x9c, 0xd0, 0xd8, 0x9d]
  {
  }

  lemma AbcDigest()
    ensures Digest(Abc()) ==
            [0xa9, 0x99, 0x3e, 0x36, 0x47, 0x06, 0x81, 0x6a, 0xba, 0x3e, 0x25, 0x71, 0x78, 0x50, 0xc2, 0x6c, 0x9c, 0xd0, 0xd8, 0x9d]
  {
    AbcState(Padded(Abc(), BigEndian(HighBits(3)) + BigEndian(LowBits(3))));
    AbcBytes();
    hide After, StateBytes, Padded, BigEndian, HighBits, LowBits;
  }
}
