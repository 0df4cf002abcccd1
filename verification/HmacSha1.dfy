/** The incremental HMAC of hmac_sha1.c. */
module HmacSha1 {
  import opened Hashing
  import Sha1

  /** HMAC-SHA1 of RFC 2104. */
  function Mac(key: Octets, text: Octets): Octets {
    Hmac(Sha1.Digest, key, text)
  }

  /** A key of more than 64 bytes is hashed. */
  method ShortKey(key: Octets) returns (used: Octets)
    requires |key| < WORD
    ensures |used| <= BLOCK
    ensures |key| < 0x2000_0000 ==> used + Zeros(BLOCK - |used|) == KeyBlock(Sha1.Digest, key)
  {
    hide Sha1.Digest, Sha1.After, Tail;
    used := key;
    if |key| > BLOCK {
      var tctx := new Sha1.Context();
      tctx.Update(key);
      assert tctx.msg == key;
      used := tctx.Final();
    }
  }

  class Context {
    const inner: Sha1.Context
    var kOpad: array<Octet>
    ghost var key: Octets
    ghost var text: Octets

    ghost predicate Valid()
      reads this, inner, inner.buffer
    {
      inner.Valid() && kOpad.Length == BLOCK && kOpad != inner.buffer
    }

    /** The context stands for the key and the text so far. */
    ghost predicate Keyed()
      reads this, inner, kOpad
    {
      && inner.Counted()
      && kOpad[..] == XorAll(KeyBlock(Sha1.Digest, key), 0x5c)
      && inner.msg == XorAll(KeyBlock(Sha1.Digest, key), 0x36) + text
    }

    constructor ()
      ensures Valid() && fresh(inner) && fresh(inner.buffer) && fresh(kOpad)
    {
      inner := new Sha1.Context();
      kOpad := new Octet[BLOCK](_ => 0);
      key, text := [], [];
    }

    /** pj_hmac_sha1_init */
    method Init(k: Octets)
      requires inner.buffer.Length == BLOCK && |k| < WORD
      modifies this, inner, inner.buffer
      ensures Valid() && fresh(kOpad) && key == k && text == []
      ensures |k| < 0x2000_0000 ==> Keyed()
    {
      hide Sha1.Digest, Sha1.After, Tail, XorAll, KeyBlock;
      key, text := k, [];
      var used := ShortKey(k);
      kOpad := PadKey(used, 0x5c);
      var kIpad := PadKey(used, 0x36);
      inner.Reset();
      inner.Update(kIpad[..]);
      assert inner.msg == kIpad[..] + text;
    }

    /** pj_hmac_sha1_update */
    method Update(input: Octets)
      requires Valid() && |input| < WORD
      modifies this, inner, inner.buffer
      ensures Valid() && kOpad == old(kOpad) && key == old(key) && text == old(text) + input
      ensures old(Keyed()) && |input| < 0x2000_0000 ==> Keyed()
    {
      hide Sha1.Digest, Sha1.After, Tail, XorAll, KeyBlock;
      inner.Update(input);
      ghost var k := XorAll(KeyBlock(Sha1.Digest, key), 0x36);
      assert k + text + input == k + (text + input);
      text := text + input;
    }

    /** pj_hmac_sha1_final */
    method Final() returns (digest: Octets)
      requires Valid()
      modifies this, inner, inner.buffer
      ensures old(Keyed()) ==> digest == Mac(old(key), old(text))
    {
      hide Sha1.Digest, Sha1.After, Tail, XorAll, KeyBlock, Sha1.DigestWith;
      digest := inner.Final();
      inner.Reset();
      inner.Update(kOpad[..]);
      assert inner.msg == kOpad[..];
      inner.Update(digest);
      digest := inner.Final();
    }
  }

  /** Main result: keyed once and fed in parts, each below 2^29 bytes, the result is the HMAC of the whole text. */
  method MacParts(key: Octets, parts: seq<Octets>) returns (digest: Octets)
    requires |key| < 0x2000_0000 && forall part <- parts :: |part| < 0x2000_0000
    ensures digest == Mac(key, Concat(parts))
  {
    hide Mac, Context.Keyed;
    var c := new Context();
    c.Init(key);
    assert parts[0..] == parts && [] + Concat(parts) == Concat(parts);
    for i := 0 to |parts|
      invariant c.Valid() && c.Keyed() && fresh(c) && fresh(c.inner) && fresh(c.inner.buffer) && fresh(c.kOpad)
      invariant c.key == key && c.text + Concat(parts[i..]) == Concat(parts)
    {
      assert parts[i..][1..] == parts[i + 1..];
      assert c.text + (parts[i] + Concat(parts[i + 1..])) == c.text + parts[i] + Concat(parts[i + 1..]);
      c.Update(parts[i]);
    }
    assert c.text + [] == c.text;
    digest := c.Final();
  }
}
