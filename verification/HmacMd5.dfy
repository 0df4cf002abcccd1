/** The incremental HMAC of hmac_md5.c. */
module HmacMd5 {
  import opened Hashing
  import Md5

  /** HMAC-MD5 of RFC 2104. */
  function Mac(key: Octets, text: Octets): Octets {
    Hmac(Md5.Digest, key, text)
  }

  /** The key block, whatever the key's length. */
  function KeyFor(key: Octets): (k: Octets)
    ensures |k| == BLOCK
  {
    KeyBlock(Md5.Digest, key)
  }

  /** A key of more than 64 bytes is hashed. */
  method ShortKey(key: Octets) returns (used: Octets)
    requires |key| < WORD
    ensures |used| <= BLOCK && used + Zeros(BLOCK - |used|) == KeyFor(key)
  {
    hide Md5.Digest, Md5.After, Tail;
    used := key;
    if |key| > BLOCK {
      var tctx := new Md5.Context();
      tctx.Update(key);
      assert tctx.msg == key;
      used := tctx.Final();
    }
  }

  class Context {
    const inner: Md5.Context
    var kOpad: array<Octet>
    ghost var key: Octets
    ghost var text: Octets

    /** The context stands for the key and the text so far. */
    ghost predicate Valid()
      reads this, inner, inner.input, kOpad
    {
      && inner.Valid() && kOpad != inner.input
      && kOpad[..] == XorAll(KeyFor(key), 0x5c)
      && inner.msg == XorAll(KeyFor(key), 0x36) + text
    }

    /** pj_hmac_md5_init */
    constructor (k: Octets)
      requires |k| < WORD
      ensures Valid() && fresh(inner) && fresh(inner.input) && fresh(kOpad)
      ensures key == k && text == []
    {
      hide Md5.Digest, Md5.After, Tail, XorAll, KeyFor;
      key, text := k, [];
      var used := ShortKey(k);
      var opad := PadKey(used, 0x5c);
      var kIpad := PadKey(used, 0x36);
      var context := new Md5.Context();
      context.Update(kIpad[..]);
      inner, kOpad := context, opad;
      new;
      assert inner.msg == kIpad[..] + text;
    }

    /** pj_hmac_md5_update */
    method Update(input: Octets)
      requires Valid() && |input| < WORD
      modifies this, inner, inner.input
      ensures Valid() && kOpad == old(kOpad) && key == old(key) && text == old(text) + input
    {
      hide Md5.Digest, Md5.After, Tail, XorAll, KeyFor;
      inner.Update(input);
      ghost var k := XorAll(KeyFor(key), 0x36);
      assert k + text + input == k + (text + input);
      text := text + input;
    }

    /** pj_hmac_md5_final */
    method Final() returns (digest: Octets)
      requires Valid()
      modifies this, inner, inner.input
      ensures digest == Mac(old(key), old(text))
    {
      hide Md5.Digest, Md5.After, Tail, XorAll, KeyBlock;
      digest := inner.Final();
      inner.Reset();
      inner.Update(kOpad[..]);
      assert inner.msg == kOpad[..];
      inner.Update(digest);
      digest := inner.Final();
    }
  }

  /** Main result: keyed once and fed in parts, the result is the HMAC of the whole text. */
  method MacParts(key: Octets, parts: seq<Octets>) returns (digest: Octets)
    requires |key| < WORD && forall part <- parts :: |part| < WORD
    ensures digest == Mac(key, Concat(parts))
  {
    hide Mac, KeyFor, XorAll, Md5.After, Tail;
    var c := new Context(key);
    assert parts[0..] == parts && [] + Concat(parts) == Concat(parts);
    for i := 0 to |parts|
      invariant c.Valid() && fresh(c) && fresh(c.inner) && fresh(c.inner.input) && fresh(c.kOpad)
      invariant c.key == key && c.text + Concat(parts[i..]) == Concat(parts)
    {
      assert parts[i..][1..] == parts[i + 1..];
      assert c.text + (parts[i] + Concat(parts[i + 1..])) == c.text + parts[i] + Concat(parts[i + 1..]);
      c.Update(parts[i]);
    }
    assert c.text + [] == c.text;
    digest := c.Final();
  }
}
