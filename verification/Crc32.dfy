/** The two contexts of crc32.c: by table, a word at a time, for both byte orders, and bit by bit. */
module Crc32 {
  import opened CrcBits
  import opened CrcTables

  // ------------------------------------------------------------------ the macros

  /** How a machine of the byte order `big` holds the register. */
  function Host(big: bool, crc: bv32): bv32 {
    if big then Swap(crc) else crc
  }

  /** CRC32_INDEX */
  function Index(big: bool, c: bv32): bv8 {
    if big then (c >> 24) as bv8 else (c & 0xff) as bv8
  }

  /** CRC32_SHIFTED */
  function Shifted(big: bool, c: bv32): bv32 {
    if big then c << 8 else c >> 8
  }

  /** crc_tab */
  function Tab(big: bool, i: bv8): bv32 {
    if big then Big(i) else Little(i)
  }

  /** Four bytes as the machine loads them. */
  function Load(big: bool, p: bv8, q: bv8, r: bv8, s: bv8): bv32 {
    if big then Four(s, r, q, p) else Four(p, q, r, s)
  }

  function Four(p: bv8, q: bv8, r: bv8, s: bv8): bv32 {
    p as bv32 | (q as bv32 << 8) | (r as bv32 << 16) | (s as bv32 << 24)
  }

  // ------------------------------------------------------------------ one byte by table

  lemma IndexHost(big: bool, crc: bv32)
    ensures Index(big, Host(big, crc)) == Index(false, crc)
  {
    hide Swap;
    SwapToTop(crc);
  }

  lemma ShiftedHost(big: bool, crc: bv32)
    ensures Shifted(big, Host(big, crc)) == Host(big, Shifted(false, crc))
  {
    hide Swap;
    SwapOfShift(crc);
  }

  lemma HostOfXor(big: bool, x: bv32, y: bv32)
    ensures Host(big, Xor(x, y)) == Xor(Host(big, x), Host(big, y))
  {
    hide Swap, Xor;
    SwapOfXor(x, y);
  }

  lemma TabIsEight(big: bool, i: bv8)
    ensures Tab(big, i) == Host(big, Eight(i as bv32))
  {
    hide Eight, Swap, Little, Big;
    LittleIsEight(i);
    BigIsSwapped(i);
  }

  /** The table step of either machine is the bit-by-bit step. */
  lemma TableStep(big: bool, crc: bv32, b: Octet)
    ensures var c := Host(big, crc);
            Xor(Tab(big, Index(big, c) ^ b), Shifted(big, c)) == Host(big, Step(crc, b))
  {
    hide Eight, Host, Xor, Step, Tab, Index, Shifted;
    var i := Index(false, crc) ^ b;
    TabIsEight(big, i);
    StepByIndex(crc, b);
    IndexHost(big, crc);
    ShiftedHost(big, crc);
    HostOfXor(big, Eight(i as bv32), Shifted(false, crc));
  }

  lemma StepByIndex(crc: bv32, b: Octet)
    ensures Step(crc, b) == Xor(Eight((Index(false, crc) ^ b) as bv32), Shifted(false, crc))
  {
    hide Eight, Xor, Step;
    StepByLowByte(crc, b);
  }

  // ------------------------------------------------------------------ four bytes at once

  /** A byte at the low end in front of others. */
  function Before(b: Octet, more: bv32): bv32 {
    Xor(b as bv32, more << 8)
  }

  predicate TopClear(x: bv32) {
    x & 0xff00_0000 == 0
  }

  /** Adding bytes that reach the low end only later. */
  lemma StepAhead(crc: bv32, b: Octet, more: bv32)
    requires TopClear(more)
    ensures Eight(Xor(crc, Before(b, more))) == Xor(Step(crc, b), more)
  {
    hide Eight, Xor, EvenEight, DownEight;
    ShiftBack(more);
    LowByteClear(more << 8);
    XorMoves(crc, b as bv32, more << 8);
    EightShifts(Xor(crc, b as bv32), more << 8);
  }

  lemma ShiftBack(more: bv32)
    requires TopClear(more)
    ensures (more << 8) & 0xff == 0 && (more << 8) >> 8 == more
  {
  }

  lemma FourSplits(p: bv8, q: bv8, r: bv8, s: bv8)
    ensures Four(p, q, r, s) == Before(p, Four(q, r, s, 0))
    ensures TopClear(Four(q, r, s, 0))
  {
  }

  lemma LastByte(crc: bv32)
    ensures Xor(crc, Four(0, 0, 0, 0)) == crc
  {
  }

  lemma XorZero(x: bv32)
    ensures Xor(x, 0) == x
  {
  }

  /** Four steps of division after adding a whole word are four single-byte steps. */
  lemma WordStep(crc: bv32, p: bv8, q: bv8, r: bv8, s: bv8)
    ensures Eight(Eight(Eight(Eight(Xor(crc, Four(p, q, r, s)))))) == Step(Step(Step(Step(crc, p), q), r), s)
  {
    hide Eight, Xor, Step, Four, Before, TopClear;
    FourSplits(p, q, r, s);
    StepAhead(crc, p, Four(q, r, s, 0));
    FourSplits(q, r, s, 0);
    StepAhead(Step(crc, p), q, Four(r, s, 0, 0));
    FourSplits(r, s, 0, 0);
    StepAhead(Step(Step(crc, p), q), r, Four(s, 0, 0, 0));
    FourSplits(s, 0, 0, 0);
    StepAhead(Step(Step(Step(crc, p), q), r), s, Four(0, 0, 0, 0));
    LastByte(Step(Step(Step(Step(crc, p), q), r), s));
  }

  lemma SwapOfFour(p: bv8, q: bv8, r: bv8, s: bv8)
    ensures Four(s, r, q, p) == Swap(Four(p, q, r, s))
  {
  }

  /** Loading and adding a word on either machine. */
  lemma LoadIsHost(big: bool, crc: bv32, p: bv8, q: bv8, r: bv8, s: bv8)
    ensures Xor(Host(big, crc), Load(big, p, q, r, s)) == Host(big, Xor(crc, Four(p, q, r, s)))
  {
    hide Xor, Four, Swap;
    SwapOfFour(p, q, r, s);
    HostOfXor(big, crc, Four(p, q, r, s));
  }

  /** The step of the word loop: eight bits are divided out and nothing is added. */
  lemma TableEight(big: bool, crc: bv32)
    ensures var c := Host(big, crc);
            Xor(Tab(big, Index(big, c)), Shifted(big, c)) == Host(big, Eight(crc))
  {
    hide Eight, Swap, Xor, Tab, Index, Shifted, Host;
    TableStep(big, crc, 0);
    NoByte(Index(big, Host(big, crc)));
    XorZero(crc);
  }

  lemma NoByte(i: bv8)
    ensures i ^ 0 == i
  {
  }

  // ------------------------------------------------------------------ the context with tables

  lemma HostTwice(big: bool, x: bv32)
    ensures Host(big, Host(big, x)) == x
  {
    hide Swap;
    SwapTwice(x);
  }

  /** The state of one machine and the register of the bit-by-bit form. */
  lemma HostOfInverse(big: bool, x: bv32)
    ensures Xor(Host(big, Xor(x, NEGL)), NEGL) == Host(big, x)
  {
    hide Swap, Xor;
    InverseSwapped(x);
  }

  lemma InverseSwapped(x: bv32)
    ensures Xor(Swap(Xor(x, NEGL)), NEGL) == Swap(x) && Xor(Xor(x, NEGL), NEGL) == x
  {
  }

  class TableContext {
    const big: bool
    var crcState: bv32

    /** The register of the bit-by-bit form: inverted, and in the order of a little-endian machine. */
    ghost function Register(): bv32
      reads this
    {
      Host(big, Xor(crcState, NEGL))
    }

    /** pj_crc32_init */
    constructor (bigEndian: bool)
      ensures big == bigEndian && Register() == NEGL
    {
      big := bigEndian;
      crcState := 0;
    }

    /** One byte by table. */
    method Byte(c: bv32, b: Octet, ghost r: bv32) returns (crc: bv32)
      requires c == Host(big, r)
      ensures crc == Host(big, Step(r, b))
    {
      TableStep(big, r, b);
      crc := Xor(Tab(big, Index(big, c) ^ b), Shifted(big, c));
    }

    /** Four bytes as one word. */
    method Word(c: bv32, p: bv8, q: bv8, r: bv8, s: bv8, ghost reg: bv32) returns (crc: bv32)
      requires c == Host(big, reg)
      ensures crc == Host(big, Step(Step(Step(Step(reg, p), q), r), s))
    {
      hide Host, Load, Tab, Index, Shifted, Xor, Four, Eight, Step;
      crc := Xor(c, Load(big, p, q, r, s));
      LoadIsHost(big, reg, p, q, r, s);
      WordStep(reg, p, q, r, s);
      ghost var x := Xor(reg, Four(p, q, r, s));
      TableEight(big, x);
      crc := Xor(Tab(big, Index(big, crc)), Shifted(big, crc));
      TableEight(big, Eight(x));
      crc := Xor(Tab(big, Index(big, crc)), Shifted(big, crc));
      TableEight(big, Eight(Eight(x)));
      crc := Xor(Tab(big, Index(big, crc)), Shifted(big, crc));
      TableEight(big, Eight(Eight(Eight(x))));
      crc := Xor(Tab(big, Index(big, crc)), Shifted(big, crc));
    }

    /** pj_crc32_update: bytes up to a word boundary, then words, then the bytes that are left.  `address` is where
        the data lies. */
    method Update(data: seq<Octet>, address: nat) returns (r: bv32)
      modifies this
      ensures Register() == Crc(old(Register()), data) && r == crcState
    {
      hide Host, Crc, Step, Xor;
      ghost var reg := Register();
      var crc := Xor(crcState, NEGL);
      HostTwice(big, crc);
      var i := 0;
      NoBytes(reg, data[..0]);
      while (address + i) % 4 != 0 && i < |data|
        invariant i <= |data| && crc == Host(big, Crc(reg, data[..i]))
        decreases |data| - i
      {
        NextByte(reg, data, i);
        crc := Byte(crc, data[i], Crc(reg, data[..i]));
        i := i + 1;
      }
      while |data| - i >= 4
        invariant i <= |data| && crc == Host(big, Crc(reg, data[..i]))
      {
        NextFour(reg, data, i);
        crc := Word(crc, data[i], data[i + 1], data[i + 2], data[i + 3], Crc(reg, data[..i]));
        i := i + 4;
      }
      while i < |data|
        invariant i <= |data| && crc == Host(big, Crc(reg, data[..i]))
      {
        NextByte(reg, data, i);
        crc := Byte(crc, data[i], Crc(reg, data[..i]));
        i := i + 1;
      }
      assert data[..i] == data;
      HostTwice(big, Crc(reg, data));
      InverseSwapped(crc);
      crcState := Xor(crc, NEGL);
      r := crcState;
    }

    lemma NoBytes(crc: bv32, data: seq<Octet>)
      requires data == []
      ensures Crc(crc, data) == crc
    {
    }

    /** pj_crc32_final */
    method Final() returns (r: bv32)
      ensures r == Xor(Register(), NEGL)
    {
      hide Swap, Xor;
      HostOfInverse(big, crcState);
      r := if big then Swap(crcState) else crcState;
    }
  }

  /** After the same data, the state of a big-endian machine is the byte swap of the other's. */
  lemma StatesAreSwapped(l: TableContext, b: TableContext)
    requires !l.big && b.big && l.Register() == b.Register()
    ensures b.crcState == Swap(l.crcState)
  {
    InverseSwapped(b.crcState);
    InverseSwapped(l.crcState);
    SwapTwice(Xor(b.crcState, NEGL));
    SwapTwice(b.crcState);
    hide Swap, Xor;
  }

  // ------------------------------------------------------------------ the context without tables

  class BitContext {
    var crcState: bv32

    constructor ()
      ensures crcState == NEGL
    {
      crcState := NEGL;
    }

    /** The body of the outer loop. */
    method Byte(crc: bv32, octet: Octet) returns (next: bv32)
      ensures next == Step(crc, octet)
    {
      hide Step, Eight, Xor;
      var low := (crc & 0xFF) as bv8;
      var temp := EightBits((low ^ octet) as bv32);
      StepByLowByte(crc, octet);
      XorMoves(temp, crc >> 8, 0);
      next := Xor(crc >> 8, temp);
    }

    method Update(octets: seq<Octet>) returns (r: bv32)
      modifies this
      ensures crcState == Crc(old(crcState), octets) && r == Xor(crcState, NEGL)
    {
      hide Crc, Step, Xor;
      ghost var reg := crcState;
      var crc := crcState;
      assert Crc(reg, octets[..0]) == reg by {
        NoBytesYet(reg, octets[..0]);
      }
      for i := 0 to |octets|
        invariant crc == Crc(reg, octets[..i])
      {
        NextByte(reg, octets, i);
        crc := Byte(crc, octets[i]);
      }
      assert octets[..|octets|] == octets;
      crcState := crc;
      r := Xor(crc, NEGL);
    }

    lemma NoBytesYet(crc: bv32, data: seq<Octet>)
      requires data == []
      ensures Crc(crc, data) == crc
    {
    }

    /** The inner loop. */
    method EightBits(x: bv32) returns (temp: bv32)
      ensures temp == Eight(x)
    {
      hide Eight;
      EightTimes(x);
      temp := x;
      for j := 0 to 8
        invariant Times(8 - j, temp) == Eight(x)
      {
        temp := if temp & 1 == 1 then (temp >> 1) ^ 0xEDB88320 else temp >> 1;
      }
    }

    /** pj_crc32_final inverts the state. */
    method Final() returns (r: bv32)
      modifies this
      ensures r == Xor(old(crcState), NEGL) && crcState == r
    {
      crcState := Xor(crcState, NEGL);
      r := crcState;
    }
  }

  /** Main result: both forms, on both machines, at any alignment and however the data is cut in two, give the same
      checksum. */
  method Calculate(a: seq<Octet>, b: seq<Octet>, address: nat, bigEndian: bool) returns (byTable: bv32, byBits: bv32)
    ensures byTable == byBits == Checksum(a + b)
  {
    hide Crc, Xor, Host;
    CrcAppends(NEGL, a, b);
    var t := new TableContext(bigEndian);
    var r := t.Update(a, address);
    r := t.Update(b, address + |a|);
    byTable := t.Final();
    var c := new BitContext();
    r := c.Update(a);
    r := c.Update(b);
    byBits := c.Final();
  }
}
