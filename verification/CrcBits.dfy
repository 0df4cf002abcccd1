/** The polynomial division of CRC-32, one bit at a time, and how it acts on bytes. */
module CrcBits {
  type Octet = bv8

  const POLYNOMIAL: bv32 := 0xEDB88320
  const NEGL: bv32 := 0xffff_ffff

  function Xor(x: bv32, y: bv32): bv32 {
    x ^ y
  }

  function Down(x: bv32): bv32 {
    x >> 1
  }

  predicate Odd(x: bv32) {
    x & 1 == 1
  }

  /** One bit of the polynomial division, lowest bit first. */
  function Bit(x: bv32): bv32 {
    if Odd(x) then Xor(Down(x), POLYNOMIAL) else Down(x)
  }

  function Eight(x: bv32): bv32 {
    Bit(Bit(Bit(Bit(Bit(Bit(Bit(Bit(x))))))))
  }

  /** n bits of the division. */
  function Times(n: nat, x: bv32): bv32 {
    if n == 0 then x else Times(n - 1, Bit(x))
  }

  lemma EightTimes(x: bv32)
    ensures Times(8, x) == Eight(x)
  {
    hide Bit;
    var x1 := Bit(x);
    var x2 := Bit(x1);
    var x3 := Bit(x2);
    var x4 := Bit(x3);
    assert Times(8, x) == Times(7, x1) == Times(6, x2) == Times(5, x3) == Times(4, x4);
    var x5 := Bit(x4);
    var x6 := Bit(x5);
    var x7 := Bit(x6);
    assert Times(4, x4) == Times(3, x5) == Times(2, x6) == Times(1, x7) == Times(0, Bit(x7));
  }

  lemma DownOfXor(x: bv32, y: bv32)
    ensures Down(Xor(x, y)) == Xor(Down(x), Down(y))
  {
  }

  lemma OddOfXor(x: bv32, y: bv32)
    requires !Odd(y)
    ensures Odd(Xor(x, y)) == Odd(x)
  {
  }

  lemma XorMoves(a: bv32, b: bv32, c: bv32)
    ensures Xor(Xor(a, b), c) == Xor(Xor(a, c), b) && Xor(Xor(a, b), c) == Xor(a, Xor(b, c)) && Xor(a, b) == Xor(b, a)
  {
  }

  /** Bits that have not reached the low end are only shifted. */
  lemma BitShifts(x: bv32, y: bv32)
    requires !Odd(y)
    ensures Bit(Xor(x, y)) == Xor(Bit(x), Down(y))
  {
    hide Xor, Down, Odd;
    DownOfXor(x, y);
    OddOfXor(x, y);
    XorMoves(Down(x), Down(y), POLYNOMIAL);
  }

  function DownEight(y: bv32): bv32 {
    Down(Down(Down(Down(Down(Down(Down(Down(y))))))))
  }

  /** The eight low bits are zero. */
  predicate EvenEight(y: bv32) {
    && !Odd(y) && !Odd(Down(y)) && !Odd(Down(Down(y))) && !Odd(Down(Down(Down(y))))
    && !Odd(Down(Down(Down(Down(y))))) && !Odd(Down(Down(Down(Down(Down(y))))))
    && !Odd(Down(Down(Down(Down(Down(Down(y))))))) && !Odd(Down(Down(Down(Down(Down(Down(Down(y))))))))
  }

  lemma EightShifts(x: bv32, y: bv32)
    requires EvenEight(y)
    ensures Eight(Xor(x, y)) == Xor(Eight(x), DownEight(y))
  {
    hide Xor, Down, Odd, Bit;
    BitShifts(x, y);
    BitShifts(Bit(x), Down(y));
    BitShifts(Bit(Bit(x)), Down(Down(y)));
    BitShifts(Bit(Bit(Bit(x))), Down(Down(Down(y))));
    BitShifts(Bit(Bit(Bit(Bit(x)))), Down(Down(Down(Down(y)))));
    BitShifts(Bit(Bit(Bit(Bit(Bit(x))))), Down(Down(Down(Down(Down(y))))));
    BitShifts(Bit(Bit(Bit(Bit(Bit(Bit(x)))))), Down(Down(Down(Down(Down(Down(y)))))));
    BitShifts(Bit(Bit(Bit(Bit(Bit(Bit(Bit(x))))))), Down(Down(Down(Down(Down(Down(Down(y))))))));
  }

  lemma LowByteClear(y: bv32)
    requires y & 0xFF == 0
    ensures EvenEight(y) && DownEight(y) == y >> 8
  {
  }

  /** The register after one more byte: the byte is added at the low end and eight bits are divided out. */
  function Step(crc: bv32, b: Octet): bv32 {
    Eight(Xor(crc, b as bv32))
  }

  /** The register after some bytes. */
  function Crc(crc: bv32, data: seq<Octet>): bv32 {
    if data == [] then crc else Step(Crc(crc, data[..|data| - 1]), data[|data| - 1])
  }

  /** The checksum of some bytes. */
  function Checksum(data: seq<Octet>): bv32 {
    Xor(Crc(NEGL, data), NEGL)
  }

  /** Two updates are one update with both parts. */
  lemma {:induction false} CrcAppends(crc: bv32, a: seq<Octet>, b: seq<Octet>)
    ensures Crc(crc, a + b) == Crc(Crc(crc, a), b)
    decreases |b|
  {
    hide Step;
    if b == [] {
      assert a + b == a;
    } else {
      var n := |b| - 1;
      assert (a + b)[..|a + b| - 1] == a + b[..n];
      CrcAppends(crc, a, b[..n]);
    }
  }

  lemma SplitLow(x: bv32, b: bv8)
    ensures Xor(((x & 0xFF) as bv8 ^ b) as bv32, x & 0xFFFFFF00) == Xor(x, b as bv32)
    ensures (x & 0xFFFFFF00) & 0xFF == 0 && (x & 0xFFFFFF00) >> 8 == x >> 8
  {
  }

  /** The low byte is divided alone; the rest only moves down. */
  lemma StepByLowByte(crc: bv32, b: Octet)
    ensures Step(crc, b) == Xor(Eight(((crc & 0xFF) as bv8 ^ b) as bv32), crc >> 8)
  {
    hide Eight, Xor, EvenEight, DownEight;
    var low, high := ((crc & 0xFF) as bv8 ^ b) as bv32, crc & 0xFFFFFF00;
    SplitLow(crc, b);
    LowByteClear(high);
    EightShifts(low, high);
  }

  /** Division is linear. */
  lemma BitOfXor(x: bv32, y: bv32)
    ensures Bit(Xor(x, y)) == Xor(Bit(x), Bit(y))
  {
    DownOfXor(x, y);
    XorMoves(Down(x), Down(y), POLYNOMIAL);
    XorMoves(Down(x), POLYNOMIAL, Down(y));
    XorCancels(Down(x), Down(y), POLYNOMIAL);
    ParityOfXor(x, y);
    hide Xor, Down, Odd;
  }

  lemma XorCancels(x: bv32, y: bv32, p: bv32)
    ensures Xor(Xor(x, p), Xor(y, p)) == Xor(x, y)
  {
    hide Xor;
    XorMoves(x, p, Xor(y, p));
    XorMoves(y, p, p);
    XorMoves(p, y, p);
    XorWithItself(y, p);
  }

  lemma XorWithItself(y: bv32, p: bv32)
    ensures Xor(Xor(p, y), p) == y && Xor(p, Xor(y, p)) == y
  {
  }

  lemma ParityOfXor(x: bv32, y: bv32)
    ensures Odd(Xor(x, y)) == (Odd(x) != Odd(y))
  {
  }

  lemma EightOfXor(x: bv32, y: bv32)
    ensures Eight(Xor(x, y)) == Xor(Eight(x), Eight(y))
  {
    hide Xor, Bit;
    var x1, y1 := Bit(x), Bit(y);
    var x2, y2 := Bit(x1), Bit(y1);
    var x3, y3 := Bit(x2), Bit(y2);
    var x4, y4 := Bit(x3), Bit(y3);
    var x5, y5 := Bit(x4), Bit(y4);
    var x6, y6 := Bit(x5), Bit(y5);
    BitOfXor(x, y);
    BitOfXor(x1, y1);
    BitOfXor(x2, y2);
    BitOfXor(x3, y3);
    BitOfXor(x4, y4);
    BitOfXor(x5, y5);
    BitOfXor(x6, y6);
    BitOfXor(Bit(x6), Bit(y6));
  }

  // ------------------------------------------------------------------ byte order

  /** CRC32_SWAP of a big-endian machine. */
  function Swap(c: bv32): bv32 {
    ((c & 0xff000000) >> 24) | ((c & 0x00ff0000) >> 8) | ((c & 0x0000ff00) << 8) | ((c & 0x000000ff) << 24)
  }

  lemma SwapTwice(x: bv32)
    ensures Swap(Swap(x)) == x
  {
  }

  lemma SwapOfXor(x: bv32, y: bv32)
    ensures Swap(Xor(x, y)) == Xor(Swap(x), Swap(y))
  {
  }

  lemma SwapOfShift(c: bv32)
    ensures Swap(c) << 8 == Swap(c >> 8)
  {
  }

  lemma SwapToTop(c: bv32)
    ensures (Swap(c) >> 24) as bv8 == (c & 0xff) as bv8
  {
  }

  /** One more byte of some data. */
  lemma NextByte(crc: bv32, data: seq<Octet>, i: nat)
    requires i < |data|
    ensures Crc(crc, data[..i + 1]) == Step(Crc(crc, data[..i]), data[i])
  {
    hide Step;
    assert data[..i + 1][..i] == data[..i];
  }

  /** Four more bytes. */
  lemma NextFour(crc: bv32, data: seq<Octet>, i: nat)
    requires i + 4 <= |data|
    ensures Crc(crc, data[..i + 4]) ==
            Step(Step(Step(Step(Crc(crc, data[..i]), data[i]), data[i + 1]), data[i + 2]), data[i + 3])
  {
    hide Step, Crc;
    NextByte(crc, data, i);
    NextByte(crc, data, i + 1);
    NextByte(crc, data, i + 2);
    NextByte(crc, data, i + 3);
  }

  // ------------------------------------------------------------------ the check value

  lemma CheckSteps()
    ensures Step(0xffffffff, 0x31) == 0x7c231048
    ensures Step(0x7c231048, 0x32) == 0xb0acbb32
    ensures Step(0xb0acbb32, 0x33) == 0x77b79c2d
    ensures Step(0x77b79c2d, 0x34) == 0x641c1f5c
    ensures Step(0x641c1f5c, 0x35) == 0x340ac5e3
    ensures Step(0x340ac5e3, 0x36) == 0xf68d2c9e
    ensures Step(0xf68d2c9e, 0x37) == 0xaffc9660
    ensures Step(0xaffc9660, 0x38) == 0x651f2550
    ensures Step(0x651f2550, 0x39) == 0x340bc6d9
  {
  }

  /** The checksum of "123456789". */
  lemma CheckValue()
    ensures Checksum([0x31, 0x32, 0x33, 0x34, 0x35, 0x36, 0x37, 0x38, 0x39]) == 0xCBF43926
  {
    hide Step, Crc;
    var m: seq<Octet> := [0x31, 0x32, 0x33, 0x34, 0x35, 0x36, 0x37, 0x38, 0x39];
    CheckSteps();
    Nothing(NEGL);
    assert m[..0] == [] && m[..9] == m;
    NextFour(NEGL, m, 0);
    NextFour(NEGL, m, 4);
    NextByte(NEGL, m, 8);
  }

  lemma Nothing(crc: bv32)
    ensures Crc(crc, []) == crc
  {
  }
}
