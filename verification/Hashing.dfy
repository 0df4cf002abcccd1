/** What a block hash and HMAC compute, apart from how the message arrives (RFC 3174 section 4, RFC 1321
    sections 3.1-3.4, RFC 2104 section 2). */
module Hashing {
  type Octet = bv8
  type Octets = seq<Octet>

  const BLOCK := 64
  const WORD: nat := 0x1_0000_0000

  type U32 = n: nat | n < 0x1_0000_0000

  lemma ByBlock(x: nat, q: nat, r: nat)
    requires x == 64 * q + r && r < 64
    ensures x / BLOCK == q && x % BLOCK == r
  {
  }

  lemma ByWord(x: nat, q: nat, r: nat)
    requires x == 0x1_0000_0000 * q + r && r < 0x1_0000_0000
    ensures x / WORD == q && x % WORD == r
  {
  }

  /** The compression function folded over the whole blocks of m; a last incomplete block is not looked at. */
  function Fold<S>(compress: (S, Octets) -> S, s: S, m: Octets): S {
    if |m| < BLOCK then s else Fold(compress, compress(s, m[..BLOCK]), m[BLOCK..])
  }

  /** The bytes after the last whole block. */
  function Tail(m: Octets): (t: Octets)
    ensures |t| == |m| % BLOCK
  {
    m[|m| - |m| % BLOCK..]
  }

  lemma {:induction false} FoldAppends<S>(compress: (S, Octets) -> S, s: S, a: Octets, b: Octets)
    requires |a| % BLOCK == 0
    ensures Fold(compress, s, a + b) == Fold(compress, Fold(compress, s, a), b)
    decreases |a|
  {
    if a == [] {
      assert a + b == b;
    } else {
      assert (a + b)[..BLOCK] == a[..BLOCK] && (a + b)[BLOCK..] == a[BLOCK..] + b;
      FoldAppends(compress, compress(s, a[..BLOCK]), a[BLOCK..], b);
    }
  }

  /** The last incomplete block plays no part yet. */
  lemma {:induction false} FoldIgnoresTail<S>(compress: (S, Octets) -> S, s: S, m: Octets)
    ensures Fold(compress, s, m) == Fold(compress, s, m[..|m| - |m| % BLOCK])
  {
    var n := |m| - |m| % BLOCK;
    assert m == m[..n] + m[n..];
    FoldAppends(compress, s, m[..n], m[n..]);
  }

  /** One more block, made of the tail so far and the start of the data. */
  lemma FoldBlock<S>(compress: (S, Octets) -> S, s: S, m: Octets, more: Octets, block: Octets)
    requires |block| == BLOCK && block == Tail(m) + more
    ensures Fold(compress, s, m + more) == compress(Fold(compress, s, m), block)
    ensures Tail(m + more) == []
  {
    var n := |m| - |m| % BLOCK;
    ByBlock(n, |m| / BLOCK, 0);
    ByBlock(|m + more|, |m| / BLOCK + 1, 0);
    assert m + more == m[..n] + block;
    FoldAppends(compress, s, m[..n], block);
    FoldIgnoresTail(compress, s, m);
    assert block[..BLOCK] == block && block[BLOCK..] == [];
  }

  lemma RestPosition(n: nat, k: nat)
    requires n % BLOCK + k < BLOCK
    ensures (n + k) % BLOCK == n % BLOCK + k
  {
    ByBlock(n + k, n / BLOCK, n % BLOCK + k);
  }

  lemma TailGrows(m: Octets, more: Octets)
    requires |m| % BLOCK + |more| < BLOCK
    ensures Tail(m + more) == Tail(m) + more
  {
    RestPosition(|m|, |more|);
    var n := |m| - |m| % BLOCK;
    assert |m + more| - |m + more| % BLOCK == n;
  }

  /** Data that completes no block. */
  lemma FoldRest<S>(compress: (S, Octets) -> S, s: S, m: Octets, more: Octets)
    requires |m| % BLOCK + |more| < BLOCK
    ensures Fold(compress, s, m + more) == Fold(compress, s, m)
    ensures Tail(m + more) == Tail(m) + more
  {
    var n := |m| - |m| % BLOCK;
    TailGrows(m, more);
    assert (m + more)[..n] == m[..n];
    RestPosition(|m|, |more|);
    FoldIgnoresTail(compress, s, m);
    FoldIgnoresTail(compress, s, m + more);
  }

  /** The message that arrives in these parts. */
  function Concat(parts: seq<Octets>): Octets {
    if parts == [] then [] else parts[0] + Concat(parts[1..])
  }

  // ------------------------------------------------------------------ padding

  function Zeros(n: nat): (z: Octets)
    ensures |z| == n
  {
    seq(n, _ => 0)
  }

  /** The message, a one bit, zeros up to 56 bytes modulo 64, and the 8 bytes of its length. */
  function Padded(m: Octets, length: Octets): (p: Octets)
    requires |length| == 8
    ensures |p| % BLOCK == 0 && m + [0x80] <= p
  {
    m + [0x80] + Zeros((55 - |m|) % BLOCK) + length
  }

  /** How many zeros are needed, and that one more is needed as long as there are fewer. */
  lemma PaddingLength(n: nat, k: nat)
    requires k <= (55 - n) % BLOCK
    ensures (n + 1 + k) % BLOCK == 56 <==> k == (55 - n) % BLOCK
  {
    var r := n % BLOCK;
    var z := (55 - n) % BLOCK;
    assert z == if r <= 55 then 55 - r else 119 - r by {
      assert 55 - n == BLOCK * (-(n / BLOCK)) + (55 - r);
    }
    if r + 1 + k < BLOCK {
      ByBlock(n + 1 + k, n / BLOCK, r + 1 + k);
    } else if r + 1 + k < 2 * BLOCK {
      ByBlock(n + 1 + k, n / BLOCK + 1, r + 1 + k - BLOCK);
    }
  }

  /** The message of the examples in both standards. */
  function Abc(): (m: Octets)
    ensures |m| == 3
  {
    [0x61, 0x62, 0x63]
  }

  /** Byte k of a 32-bit word, from the least significant. */
  function WordPart(w: U32, k: nat): (x: nat)
    requires k < 4
    ensures x < 256
  {
    if k == 0 then w % 256 else if k == 1 then w / 0x100 % 256 else if k == 2 then w / 0x1_0000 % 256 else w / 0x100_0000
  }

  function WordByte(w: U32, k: nat): Octet
    requires k < 4
  {
    WordPart(w, k) as bv8
  }

  function BigEndian(w: U32): (b: Octets)
    ensures |b| == 4
  {
    [WordByte(w, 3), WordByte(w, 2), WordByte(w, 1), WordByte(w, 0)]
  }

  function LittleEndian(w: U32): (b: Octets)
    ensures |b| == 4
  {
    [WordByte(w, 0), WordByte(w, 1), WordByte(w, 2), WordByte(w, 3)]
  }

  /** The four parts, as bytes in either order, make up the word. */
  lemma PartsMakeTheWord(w: U32)
    ensures 0x100_0000 * WordPart(w, 3) + 0x1_0000 * WordPart(w, 2) + 0x100 * WordPart(w, 1) + WordPart(w, 0) == w
    ensures BigEndian(w) ==
            [WordPart(w, 3) as bv8, WordPart(w, 2) as bv8, WordPart(w, 1) as bv8, WordPart(w, 0) as bv8]
    ensures LittleEndian(w) ==
            [WordPart(w, 0) as bv8, WordPart(w, 1) as bv8, WordPart(w, 2) as bv8, WordPart(w, 3) as bv8]
  {
    SplitWord(w);
  }

  lemma SplitWord(w: U32)
    ensures 0x100_0000 * (w / 0x100_0000) + 0x1_0000 * (w / 0x1_0000 % 256) + 0x100 * (w / 0x100 % 256) + w % 256 == w
  {
    assert w / 0x1_0000 % 256 == w / 0x1_0000 - w / 0x100_0000 * 256;
    assert w / 0x100 % 256 == w / 0x100 - w / 0x1_0000 * 256;
  }

  /** The low and the high word of the length of n bytes in bits, modulo 2^64. */
  function LowBits(n: nat): U32 {
    8 * n % WORD
  }

  function HighBits(n: nat): U32 {
    8 * n / WORD % WORD
  }

  /** The position in the block, from the low word alone. */
  lemma PositionFromLow(n: nat)
    ensures LowBits(n) / 8 % BLOCK == n % BLOCK
  {
    var a, b := n / 0x2000_0000, n % 0x2000_0000;
    var c, e := b / 64, b % 64;
    ByWord(8 * n, a, 8 * b);
    ByBlock(b, c, e);
    ByBlock(n, 0x80_0000 * a + c, e);
  }

  /** Adding the bits of len more bytes to the two words. */
  lemma BitsAdd(n: nat, len: nat)
    ensures LowBits(n + len) == (LowBits(n) + 8 * len) % WORD
    ensures HighBits(n + len) == (HighBits(n) + (LowBits(n) + 8 * len) / WORD) % WORD
  {
    var q, low := 8 * n / WORD, LowBits(n);
    var q1, low1 := (low + 8 * len) / WORD, (low + 8 * len) % WORD;
    assert 8 * n == WORD * q + low && low + 8 * len == WORD * q1 + low1;
    ByWord(8 * (n + len), q + q1, low1);
    AddWords(q, q1);
  }

  lemma AddWords(x: nat, y: nat)
    ensures (x + y) % WORD == (x % WORD + y) % WORD
  {
    var a, b := x / WORD, x % WORD;
    var c, d := (b + y) / WORD, (b + y) % WORD;
    ByWord(x + y, a + c, d);
  }

  /** memcpy */
  method Copy(dst: array<Octet>, at: nat, src: Octets)
    requires at + |src| <= dst.Length
    modifies dst
    ensures dst[..] == old(dst[..at]) + src + old(dst[at + |src|..])
  {
    forall i | 0 <= i < |src| {
      dst[at + i] := src[i];
    }
  }

  // ------------------------------------------------------------------ HMAC

  /** The key as one block: hashed if it is longer, then filled up with zeros. */
  function KeyBlock(hash: Octets -> Octets, key: Octets): (k: Octets)
    requires |key| > BLOCK ==> |hash(key)| <= BLOCK
    ensures |k| == BLOCK
  {
    var k := if |key| > BLOCK then hash(key) else key;
    k + Zeros(BLOCK - |k|)
  }

  function XorAll(k: Octets, pad: Octet): (x: Octets)
    ensures |x| == |k| && forall i :: 0 <= i < |k| ==> x[i] == k[i] ^ pad
  {
    seq(|k|, i requires 0 <= i < |k| => k[i] ^ pad)
  }

  /** H(K XOR opad, H(K XOR ipad, text)). */
  function Hmac(hash: Octets -> Octets, key: Octets, text: Octets): Octets
    requires |key| > BLOCK ==> |hash(key)| <= BLOCK
  {
    var k := KeyBlock(hash, key);
    hash(XorAll(k, 0x5c) + hash(XorAll(k, 0x36) + text))
  }

  /** Each byte of a pad XORed with its constant. */
  method XorInPlace(block: array<Octet>, pad: Octet)
    modifies block
    ensures block[..] == XorAll(old(block[..]), pad)
  {
    ghost var k := block[..];
    for i := 0 to block.Length
      invariant forall h {:trigger block[h]} :: 0 <= h < i ==> block[h] == XorAll(k, pad)[h]
      invariant forall h {:trigger block[h]} :: i <= h < block.Length ==> block[h] == k[h]
    {
      block[i] := block[i] ^ pad;
      assert block[i] == XorAll(k, pad)[i];
      hide XorAll;
    }
  }

  /** The key written over zeros, then XORed with the pad. */
  method PadKey(key: Octets, pad: Octet) returns (block: array<Octet>)
    requires |key| <= BLOCK
    ensures fresh(block) && block[..] == XorAll(key + Zeros(BLOCK - |key|), pad)
  {
    hide XorAll;
    block := new Octet[BLOCK](_ => 0);
    Copy(block, 0, key);
    assert block[..] == key + Zeros(BLOCK - |key|);
    XorInPlace(block, pad);
  }
}
