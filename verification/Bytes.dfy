/** Octets, 16- and 32-bit network-order fields, and the packet memory a parser reads. */
module Bytes {

  type Byte = x: int | 0 <= x < 0x100
  type U16 = x: int | 0 <= x < 0x1_0000
  type U32 = x: int | 0 <= x < 0x1_0000_0000

  /** The memory a packet lives in.  The packet starts at address 0; addresses at or past the
      end of the packet hold arbitrary bytes, since the parsers read some of them. */
  type Memory = nat -> Byte

  /** The two bytes that write16 stores, most significant first. */
  function Put16(v: U16): (s: seq<Byte>)
    ensures |s| == 2 && (s[0] as int) * 0x100 + (s[1] as int) == v
  {
    [v / 0x100, v % 0x100]
  }

  lemma Split32(v: U32)
    ensures ((v / 0x100_0000 * 0x100 + v / 0x1_0000 % 0x100) * 0x100 + v / 0x100 % 0x100) * 0x100 + v % 0x100 == v
  {
    assert v / 0x1_0000 % 0x100 == v / 0x1_0000 - v / 0x100_0000 * 0x100;
    assert v / 0x100 % 0x100 == v / 0x100 - v / 0x1_0000 * 0x100;
  }

  /** Four bytes, most significant first. */
  function Put32(v: U32): (s: seq<Byte>)
    ensures |s| == 4
    ensures (((s[0] as int) * 0x100 + s[1] as int) * 0x100 + s[2] as int) * 0x100 + s[3] as int == v
  {
    Split32(v);
    [v / 0x100_0000, v / 0x1_0000 % 0x100, v / 0x100 % 0x100, v % 0x100]
  }

  function Get16(m: Memory, p: nat): U16 {
    m(p) * 0x100 + m(p + 1)
  }

  function Get32(m: Memory, p: nat): U32 {
    m(p) * 0x100_0000 + m(p + 1) * 0x1_0000 + m(p + 2) * 0x100 + m(p + 3)
  }

  function Slice(m: Memory, p: nat, n: nat): (s: seq<Byte>)
    ensures |s| == n && forall i {:trigger s[i]} :: 0 <= i < n ==> s[i] == m(p + i)
  {
    seq(n, i requires 0 <= i => m(p + i))
  }

  /** m holds the bytes s from address p on. */
  ghost predicate Holds(m: Memory, p: nat, s: seq<Byte>) {
    forall i: nat {:trigger s[i]} :: i < |s| ==> m(p + i) == s[i]
  }

  lemma HoldsPart(m: Memory, p: nat, s: seq<Byte>, a: nat, b: nat)
    requires Holds(m, p, s) && a <= b <= |s|
    ensures Holds(m, p + a, s[a..b])
  {
    forall i: nat | i < b - a
      ensures m(p + a + i) == s[a..b][i]
    {
      assert m(p + (a + i)) == s[a + i];
    }
  }

  lemma Read16(m: Memory, p: nat, v: U16)
    requires Holds(m, p, Put16(v))
    ensures Get16(m, p) == v
  {
    assert m(p + 0) == Put16(v)[0] && m(p + 1) == Put16(v)[1];
  }

  lemma Read32(m: Memory, p: nat, v: U32)
    requires Holds(m, p, Put32(v))
    ensures Get32(m, p) == v
  {
    var s := Put32(v);
    assert m(p + 0) == s[0] && m(p + 1) == s[1] && m(p + 2) == s[2] && m(p + 3) == s[3];
    assert v / 0x1_0000 % 0x100 == v / 0x1_0000 - v / 0x100_0000 * 0x100;
    assert v / 0x100 % 0x100 == v / 0x100 - v / 0x1_0000 * 0x100;
  }

  lemma ReadSlice(m: Memory, p: nat, s: seq<Byte>)
    requires Holds(m, p, s)
    ensures Slice(m, p, |s|) == s
  {
  }
}
