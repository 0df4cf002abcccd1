/** The streaming SHA-1 of sha1.c. */
module Sha1 {
  import opened Hashing
  import opened Sha1Block

  const DIGEST_SIZE := 20

  function Initial(): State {
    State(0x67452301, 0xEFCDAB89, 0x98BADCFE, 0x10325476, 0xC3D2E1F0)
  }

  /** Where the message m leaves the state. */
  function After(m: Octets): State {
    Fold(Compress, Initial(), m)
  }

  function WordBytes(w: bv32): (b: Octets)
    ensures |b| == 4
  {
    [(w >> 24) as bv8, ((w >> 16) & 0xFF) as bv8, ((w >> 8) & 0xFF) as bv8, (w & 0xFF) as bv8]
  }

  function StateBytes(s: State): (b: Octets)
    ensures |b| == DIGEST_SIZE
  {
    WordBytes(s.a) + WordBytes(s.b) + WordBytes(s.c) + WordBytes(s.d) + WordBytes(s.e)
  }

  /** The digest of m when its length is given as two words. */
  function DigestWith(m: Octets, high: U32, low: U32): (d: Octets)
    ensures |d| == DIGEST_SIZE
  {
    StateBytes(After(Padded(m, BigEndian(high) + BigEndian(low))))
  }

  /** The digest of RFC 3174. */
  function Digest(m: Octets): (d: Octets)
    ensures |d| == DIGEST_SIZE
  {
    DigestWith(m, HighBits(|m|), LowBits(|m|))
  }

  // ------------------------------------------------------------------ the bit count

  /** count[1] after an update by len bytes, as the code computes it with a size_t of 64 bits. */
  function NextHigh(high: U32, low: U32, len: nat): U32
    requires len < 0x2000_0000_0000_0000
  {
    var newLow := (low + 8 * len) % WORD;
    (high + (if newLow < 8 * len then 1 else 0) + len % WORD / 0x2000_0000) % WORD
  }

  lemma HighWhenSmall(high: U32, low: U32, len: nat)
    requires len < 0x2000_0000
    ensures NextHigh(high, low, len) == (high + (low + 8 * len) / WORD) % WORD
  {
    var sum := low + 8 * len;
    if sum < WORD {
      ByWord(sum, 0, sum);
    } else {
      ByWord(sum, 1, sum - WORD);
    }
    ByWord(len, 0, len);
  }

  /** The carry test is right exactly for updates of less than 2^29 bytes, and for those of less than 2^32 bytes
      where the low word does overflow in its own 32 bits. */
  lemma HighIsRightIff(n: nat, len: nat)
    requires len < 0x2000_0000_0000_0000
    ensures NextHigh(HighBits(n), LowBits(n), len) == HighBits(n + len) <==>
            len < 0x2000_0000 || (len < WORD && LowBits(n) + LowBits(len) >= WORD)
  {
    var high, low := HighBits(n), LowBits(n);
    BitsAdd(n, len);
    if len < 0x2000_0000 {
      HighWhenSmall(high, low, len);
    } else {
      var q, r := 8 * len / WORD, LowBits(len);
      var carry := if low + r >= WORD then 1 else 0;
      assert 8 * len == WORD * q + r;
      ByWord(low + 8 * len, q + carry, low + r - WORD * carry);
      var k := len / WORD;
      assert len == WORD * k + len % WORD;
      assert q == 8 * k + len % WORD / 0x2000_0000 by {
        LengthParts(len);
      }
      WordsDiffer(high, len % WORD / 0x2000_0000, carry, k);
    }
  }

  lemma LengthParts(len: nat)
    ensures 8 * len / WORD == 8 * (len / WORD) + len % WORD / 0x2000_0000
  {
    var k, r := len / WORD, len % WORD;
    var a, b := r / 0x2000_0000, r % 0x2000_0000;
    assert 8 * len == WORD * (8 * k + a) + 8 * b;
    ByWord(8 * len, 8 * k + a, 8 * b);
  }

  /** One carry too many, or multiples of eight lost, always shows in the high word. */
  lemma WordsDiffer(high: U32, a: nat, carry: nat, k: nat)
    requires a < 8 && carry <= 1 && k < 0x2000_0000
    ensures (high + 1 + a) % WORD == (high + (8 * k + a + carry)) % WORD <==> k == 0 && carry == 1
  {
    var x, y := high + 1 + a, high + (8 * k + a + carry);
    if x % WORD == y % WORD {
      assert y - x == WORD * (y / WORD - x / WORD);
    }
  }

  lemma LowWord(low: U32, len: nat)
    ensures (low + 8 * (len % WORD)) % WORD == (low + 8 * len) % WORD
  {
    var k, r := len / WORD, len % WORD;
    var q, s := (low + 8 * r) / WORD, (low + 8 * r) % WORD;
    ByWord(low + 8 * len, 8 * k + q, s);
  }

  lemma LowStep(n: nat, len: nat)
    ensures (LowBits(n) + 8 * (len % WORD)) % WORD == LowBits(n + len)
  {
    BitsAdd(n, len);
    LowWord(LowBits(n), len);
    hide LowBits, HighBits;
  }

  lemma HighStep(high: U32, low: U32, len: nat)
    requires len < 0x2000_0000_0000_0000
    ensures var newLow := (low + 8 * (len % WORD)) % WORD;
            ((if newLow < 8 * len then (high + 1) % WORD else high) + len % WORD / 0x2000_0000) % WORD == NextHigh(high, low, len)
  {
    LowWord(low, len);
    AddWords(high + 1, len % WORD / 0x2000_0000);
  }

  lemma SmallStep(n: nat, len: nat)
    requires len < 0x2000_0000
    ensures NextHigh(HighBits(n), LowBits(n), len) == HighBits(n + len)
  {
    BitsAdd(n, len);
    HighWhenSmall(HighBits(n), LowBits(n), len);
    hide LowBits, HighBits;
  }

  lemma CountByteAt(high: U32, low: U32, i: nat)
    requires i < 8
    ensures (BigEndian(high) + BigEndian(low))[i] == WordByte(if i >= 4 then low else high, 3 - i % 4)
  {
    hide WordByte;
  }

  // ------------------------------------------------------------------ the context

  class Context {
    var state: State
    var count0: U32
    var count1: U32
    const buffer: array<Octet>
    ghost var msg: Octets

    /** The state has taken in the whole blocks of the message, the buffer holds the rest. */
    ghost predicate Valid()
      reads this, buffer
    {
      && buffer.Length == BLOCK
      && count0 == LowBits(|msg|)
      && state == After(msg)
      && buffer[..|msg| % BLOCK] == Tail(msg)
    }

    /** Both words together are the length of the message in bits, modulo 2^64. */
    ghost predicate Counted()
      reads this
    {
      count0 == LowBits(|msg|) && count1 == HighBits(|msg|)
    }

    constructor ()
      ensures Valid() && Counted() && msg == [] && fresh(buffer)
    {
      buffer := new Octet[BLOCK](_ => 0);
      state, count0, count1, msg := Initial(), 0, 0, [];
    }

    /** pj_sha1_init on a context that may have been used. */
    method Reset()
      requires buffer.Length == BLOCK
      modifies this
      ensures Valid() && Counted() && msg == []
    {
      state := Initial();
      count0, count1 := 0, 0;
      msg := [];
    }

    /** The buffer is filled up by the start of the data and compressed; the transform overwrites it. */
    method FillBuffer(j: nat, data: Octets)
      requires buffer.Length == BLOCK && state == After(msg) && buffer[..|msg| % BLOCK] == Tail(msg)
      requires j == |msg| % BLOCK && |data| >= BLOCK - j
      modifies buffer, `state
      ensures state == After(msg + data[..BLOCK - j])
      ensures (|msg| + BLOCK - j) % BLOCK == 0
    {
      hide Fold, Compress;
      var start := data[..BLOCK - j];
      Copy(buffer, j, start);
      assert buffer[..] == Tail(msg) + start;
      FoldBlock(Compress, Initial(), msg, start, buffer[..]);
      state := Transform(state, buffer);
      ByBlock(|msg| + BLOCK - j, |msg| / BLOCK + 1, 0);
    }

    /** The loop over the whole blocks of the data, through a copy that the transform may overwrite. */
    method WholeBlocks(data: Octets, start: nat) returns (i: nat)
      requires start <= |data| && (|msg| + start) % BLOCK == 0 && state == After(msg + data[..start])
      modifies `state
      ensures start <= i <= |data| && |data| - i < BLOCK && (|msg| + i) % BLOCK == 0
      ensures state == After(msg + data[..i])
    {
      hide Fold, Compress, Tail;
      i := start;
      while i + 63 < |data|
        invariant start <= i <= |data| && (|msg| + i) % BLOCK == 0 && state == After(msg + data[..i])
      {
        var block := data[i..i + BLOCK];
        var tmp := new Octet[BLOCK](k requires 0 <= k < BLOCK => block[k]);
        assert tmp[..] == block;
        assert msg + data[..i] + block == msg + data[..i + BLOCK];
        assert Tail(msg + data[..i]) + block == block;
        FoldBlock(Compress, Initial(), msg + data[..i], block, block);
        state := Transform(state, tmp);
        ByBlock(|msg| + i + BLOCK, (|msg| + i) / BLOCK + 1, 0);
        i := i + BLOCK;
      }
    }

    /** The bytes after the last whole block go into the buffer. */
    method StoreRest(ghost m: Octets, j: nat, rest: Octets)
      requires buffer.Length == BLOCK && j == |m| % BLOCK && j + |rest| < BLOCK && buffer[..j] == Tail(m)
      modifies buffer
      ensures buffer[..|m + rest| % BLOCK] == Tail(m + rest)
      ensures After(m + rest) == After(m)
    {
      Copy(buffer, j, rest);
      FoldRest(Compress, Initial(), m, rest);
      RestPosition(|m|, |rest|);
      assert buffer[..j + |rest|] == Tail(m) + rest;
    }

    /** The two words of the bit count. */
    method Count(len: nat)
      requires len < 0x2000_0000_0000_0000 && count0 == LowBits(|msg|)
      modifies `count0, `count1
      ensures count0 == LowBits(|msg| + len) && count1 == NextHigh(old(count1), old(count0), len)
      ensures old(Counted()) && len < 0x2000_0000 ==> count1 == HighBits(|msg| + len)
    {
      hide LowBits, HighBits, NextHigh;
      LowStep(|msg|, len);
      HighStep(count1, count0, len);
      if len < 0x2000_0000 {
        SmallStep(|msg|, len);
      }
      count0 := (count0 + 8 * (len % WORD)) % WORD;
      if count0 < 8 * len {
        count1 := (count1 + 1) % WORD;
      }
      count1 := (count1 + len % WORD / 0x2000_0000) % WORD;
    }

    /** pj_sha1_update: any data, in any number of calls, only extends the message. */
    method Update(data: Octets)
      requires Valid() && |data| < 0x2000_0000_0000_0000
      modifies this, buffer
      ensures Valid() && msg == old(msg) + data
      ensures count1 == NextHigh(old(count1), old(count0), |data|)
      ensures old(Counted()) && |data| < 0x2000_0000 ==> Counted()
    {
      hide Tail, After, LowBits, HighBits, NextHigh;
      PositionFromLow(|msg|);
      var j := count0 / 8 % BLOCK;
      Count(|data|);
      var i := 0;
      ghost var m := msg;
      assert m + data[..0] == m;
      if j + |data| > 63 {
        FillBuffer(j, data);
        i := WholeBlocks(data, BLOCK - j);
        j := 0;
        assert buffer[..0] == Tail(m + data[..i]);
      }
      StoreRest(m + data[..i], j, data[i..]);
      assert m + data[..i] + data[i..] == m + data;
      msg := m + data;
    }
  
    /** The count as eight bytes, the most significant first. */
    method CountBytes() returns (b: Octets)
      ensures b == BigEndian(count1) + BigEndian(count0)
    {
      hide WordByte, BigEndian;
      b := [];
      ghost var all := BigEndian(count1) + BigEndian(count0);
      for i := 0 to 8
        invariant b == all[..i]
      {
        CountByteAt(count1, count0, i);
        assert all[..i + 1] == all[..i] + [all[i]];
        b := b + [WordByte(if i >= 4 then count0 else count1, 3 - i % 4)];
      }
    }

    /** One bit and the zeros, byte by byte. */
    method Pad()
      requires Valid()
      modifies this, buffer
      ensures Valid() && msg == old(msg) + [0x80] + Zeros((55 - |old(msg)|) % BLOCK)
    {
      hide After, Tail, LowBits, HighBits, NextHigh;
      ghost var m, k := msg, 0;
      Update([0x80]);
      assert msg == m + [0x80] + Zeros(0);
      PositionFromLow(|msg|);
      while count0 / 8 % BLOCK != 56
        invariant Valid() && k <= (55 - |m|) % BLOCK && msg == m + [0x80] + Zeros(k)
        invariant count0 / 8 % BLOCK == |msg| % BLOCK
        decreases (55 - |m|) % BLOCK - k
      {
        PaddingLength(|m|, k);
        Update([0]);
        k := k + 1;
        assert Zeros(k) == Zeros(k - 1) + [0];
        PositionFromLow(|msg|);
      }
      PaddingLength(|m|, k);
    }

    /** pj_sha1_final.  The context is wiped. */
    method Final() returns (digest: Octets)
      requires Valid()
      modifies this, buffer
      ensures digest == DigestWith(old(msg), old(count1), old(count0))
      ensures old(Counted()) ==> digest == Digest(old(msg))
      ensures state == State(0, 0, 0, 0, 0) && count0 == count1 == 0 && forall i :: 0 <= i < BLOCK ==> buffer[i] == 0
    {
      hide After, Tail, LowBits, HighBits, NextHigh, StateBytes;
      ghost var m := msg;
      var finalcount := CountBytes();
      Pad();
      Update(finalcount);
      assert msg == Padded(m, finalcount);
      digest := StateBytes(state);
      forall i | 0 <= i < BLOCK {
        buffer[i] := 0;
      }
      state, count0, count1 := State(0, 0, 0, 0, 0), 0, 0;
    }
  }

  /** Main result: however a message is cut into calls of less than 2^29 bytes, the digest is that of the message. */
  method HashParts(parts: seq<Octets>) returns (digest: Octets)
    requires forall part <- parts :: |part| < 0x2000_0000
    ensures digest == Digest(Concat(parts))
  {
    hide Digest, DigestWith, After, Tail, LowBits, HighBits, NextHigh;
    var c := new Context();
    assert parts[0..] == parts;
    for i := 0 to |parts|
      invariant c.Valid() && c.Counted() && fresh(c) && fresh(c.buffer)
      invariant c.msg + Concat(parts[i..]) == Concat(parts)
    {
      assert parts[i..][1..] == parts[i + 1..];
      assert c.msg + (parts[i] + Concat(parts[i + 1..])) == c.msg + parts[i] + Concat(parts[i + 1..]);
      c.Update(parts[i]);
    }
    assert c.msg + [] == c.msg;
    digest := c.Final();
  }
}
