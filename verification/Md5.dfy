/** The streaming MD5 of md5.c. */
module Md5 {
  import opened Hashing
  import opened Md5Block

  const DIGEST_SIZE := 16

  function Initial(): State {
    State(0x67452301, 0xefcdab89, 0x98badcfe, 0x10325476)
  }

  /** Where the message m leaves the state. */
  function After(m: Octets): State {
    Fold(Compress, Initial(), m)
  }

  function WordBytes(w: bv32): (b: Octets)
    ensures |b| == 4
  {
    [(w & 0xFF) as bv8, ((w >> 8) & 0xFF) as bv8, ((w >> 16) & 0xFF) as bv8, (w >> 24) as bv8]
  }

  function StateBytes(s: State): (b: Octets)
    ensures |b| == DIGEST_SIZE
  {
    WordBytes(s.a) + WordBytes(s.b) + WordBytes(s.c) + WordBytes(s.d)
  }

  /** The digest of RFC 1321: the length follows with the low word first. */
  function Digest(m: Octets): (d: Octets)
    ensures |d| == DIGEST_SIZE
  {
    StateBytes(After(Padded(m, LittleEndian(LowBits(|m|)) + LittleEndian(HighBits(|m|)))))
  }

  /** The carry test and the shift give the high word for every 32-bit length. */
  lemma HighIsRight(n: nat, len: U32)
    ensures var t := LowBits(n);
            var sum := (t + 8 * len % WORD) % WORD;
            sum == LowBits(n + len)
            && (HighBits(n) + (if sum < t then 1 else 0) + len / 0x2000_0000) % WORD == HighBits(n + len)
  {
    var t, r, a := LowBits(n), 8 * len % WORD, len / 0x2000_0000;
    BitsAdd(n, len);
    ByWord(8 * len, a, 8 * (len % 0x2000_0000));
    var carry := if t + r < WORD then 0 else 1;
    ByWord(t + r, carry, t + r - WORD * carry);
    ByWord(t + 8 * len, a + carry, t + r - WORD * carry);
  }

  // ------------------------------------------------------------------ padding

  /** The padded message when its last block has room for the length. */
  lemma PaddedInOne(m: Octets, length: Octets)
    requires |length| == 8 && |m| % BLOCK < 56
    ensures Padded(m, length) == m + ([0x80] + Zeros(55 - |m| % BLOCK) + length)
  {
    ZerosNeeded(|m|);
  }

  /** And when it needs one more block. */
  lemma PaddedInTwo(m: Octets, length: Octets)
    requires |length| == 8 && |m| % BLOCK >= 56
    ensures Padded(m, length) == m + ([0x80] + Zeros(63 - |m| % BLOCK)) + (Zeros(56) + length)
  {
    ZerosNeeded(|m|);
    assert Zeros(119 - |m| % BLOCK) == Zeros(63 - |m| % BLOCK) + Zeros(56);
  }

  lemma ZerosNeeded(n: nat)
    ensures (55 - n) % BLOCK == if n % BLOCK <= 55 then 55 - n % BLOCK else 119 - n % BLOCK
  {
    assert 55 - n == BLOCK * (-(n / BLOCK)) + (55 - n % BLOCK);
  }

  // ------------------------------------------------------------------ the context

  class Context {
    var state: State
    var bits0: U32
    var bits1: U32
    const input: array<Octet>
    ghost var msg: Octets

    ghost predicate Valid()
      reads this, input
    {
      && input.Length == BLOCK
      && bits0 == LowBits(|msg|) && bits1 == HighBits(|msg|)
      && state == After(msg)
      && input[..|msg| % BLOCK] == Tail(msg)
    }

    constructor ()
      ensures Valid() && msg == [] && fresh(input)
    {
      input := new Octet[BLOCK](_ => 0);
      state, bits0, bits1, msg := Initial(), 0, 0, [];
    }

    /** pj_md5_init on a context that may have been used. */
    method Reset()
      requires input.Length == BLOCK
      modifies this
      ensures Valid() && msg == []
    {
      state, bits0, bits1 := Initial(), 0, 0;
      msg := [];
    }

    method Count(len: U32)
      requires bits0 == LowBits(|msg|) && bits1 == HighBits(|msg|)
      modifies `bits0, `bits1
      ensures bits0 == LowBits(|msg| + len) && bits1 == HighBits(|msg| + len)
    {
      HighIsRight(|msg|, len);
      var t := bits0;
      bits0 := (t + 8 * len % WORD) % WORD;
      AddWords(bits1 + 1, len / 0x2000_0000);
      if bits0 < t {
        bits1 := (bits1 + 1) % WORD;
      }
      bits1 := (bits1 + len / 0x2000_0000) % WORD;
    }

    /** A leading chunk that completes the block. */
    method CompleteBlock(t: nat, chunk: Octets)
      requires input.Length == BLOCK && state == After(msg) && input[..|msg| % BLOCK] == Tail(msg)
      requires t == |msg| % BLOCK && |chunk| == BLOCK - t
      modifies input, `state
      ensures state == After(msg + chunk) && (|msg| + |chunk|) % BLOCK == 0
    {
      hide Fold, Compress;
      Copy(input, t, chunk);
      assert input[..] == Tail(msg) + chunk;
      FoldBlock(Compress, Initial(), msg, chunk, input[..]);
      state := Transform(state, input);
      ByBlock(|msg| + |chunk|, |msg| / BLOCK + 1, 0);
    }

    /** The loop over the whole blocks, each copied into the context. */
    method WholeBlocks(data: Octets, start: nat) returns (i: nat)
      requires input.Length == BLOCK && start <= |data| && (|msg| + start) % BLOCK == 0
      requires state == After(msg + data[..start])
      modifies input, `state
      ensures start <= i <= |data| && |data| - i < BLOCK && (|msg| + i) % BLOCK == 0
      ensures state == After(msg + data[..i])
    {
      hide Fold, Compress, Tail;
      i := start;
      while |data| - i >= BLOCK
        invariant start <= i <= |data| && (|msg| + i) % BLOCK == 0 && state == After(msg + data[..i])
      {
        ghost var block := data[i..i + BLOCK];
        Copy(input, 0, data[i..i + BLOCK]);
        assert input[..] == block;
        assert msg + data[..i] + block == msg + data[..i + BLOCK];
        assert Tail(msg + data[..i]) + block == block;
        FoldBlock(Compress, Initial(), msg + data[..i], block, block);
        state := Transform(state, input);
        ByBlock(|msg| + i + BLOCK, (|msg| + i) / BLOCK + 1, 0);
        i := i + BLOCK;
      }
    }

    /** The remaining bytes. */
    method StoreRest(ghost m: Octets, j: nat, rest: Octets)
      requires input.Length == BLOCK && j == |m| % BLOCK && j + |rest| < BLOCK && input[..j] == Tail(m)
      modifies input
      ensures input[..|m + rest| % BLOCK] == Tail(m + rest)
      ensures After(m + rest) == After(m)
    {
      Copy(input, j, rest);
      FoldRest(Compress, Initial(), m, rest);
      RestPosition(|m|, |rest|);
      assert input[..j + |rest|] == Tail(m) + rest;
    }

    /** pj_md5_update */
    method Update(data: Octets)
      requires Valid() && |data| < WORD
      modifies this, input
      ensures Valid() && msg == old(msg) + data
    {
      hide Tail, After, LowBits, HighBits;
      PositionFromLow(|msg|);
      ghost var m := msg;
      var t := bits0 / 8 % BLOCK;
      Count(|data|);
      var i := 0;
      assert m + data[..0] == m && data[0..] == data;
      if t != 0 {
        if |data| < BLOCK - t {
          StoreRest(m, t, data);
          msg := m + data;
          return;
        }
        i := BLOCK - t;
        CompleteBlock(t, data[..i]);
      }
      i := WholeBlocks(data, i);
      assert input[..0] == Tail(m + data[..i]);
      StoreRest(m + data[..i], 0, data[i..]);
      assert m + data[..i] + data[i..] == m + data;
      msg := m + data;
    }

    /** pj_md5_final.  The context is wiped. */
    method Final() returns (digest: Octets)
      requires Valid()
      modifies this, input
      ensures digest == Digest(old(msg))
    {
      hide After, Tail, LowBits, HighBits, StateBytes, LittleEndian;
      PositionFromLow(|msg|);
      ghost var length := LittleEndian(bits0) + LittleEndian(bits1);
      var count := bits0 / 8 % BLOCK;
      ghost var m := msg;
      if BLOCK - 1 - count < 8 {
        CompleteBlock(count, [0x80] + Zeros(BLOCK - 1 - count));
        msg := m + ([0x80] + Zeros(BLOCK - 1 - count));
        Copy(input, 0, Zeros(56));
        assert input[..0] == Tail(msg);
        CompleteBlock(0, Zeros(56) + (LittleEndian(bits0) + LittleEndian(bits1)));
        PaddedInTwo(m, length);
      } else {
        CompleteBlock(count, [0x80] + Zeros(BLOCK - 1 - count - 8) + (LittleEndian(bits0) + LittleEndian(bits1)));
        PaddedInOne(m, length);
      }
      digest := StateBytes(state);
      Copy(input, 0, Zeros(BLOCK));
      state, bits0, bits1 := State(0, 0, 0, 0), 0, 0;
    }
  }
}
