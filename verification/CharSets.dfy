/** Character sets of the scanner: up to 32 sets sliced into the bits of one buffer (scanner_cis_bitwise.c), and one
    array for each set (scanner_cis_uint.c).  Both are described by the same membership tables. */
module CharSets {
  const CODES := 256

  /** For each code, whether it belongs to a set. */
  type Table = t: seq<bool> | |t| == 256 witness seq(256, _ => false)

  function Empty(): Table {
    seq(CODES, _ => false)
  }

  function WithRange(t: Table, start: nat, end: nat): Table {
    seq(CODES, c requires 0 <= c < CODES => t[c] || start <= c < end)
  }

  function WithAll(t: Table, codes: seq<nat>): Table {
    seq(CODES, c requires 0 <= c < CODES => t[c] || c in codes)
  }

  function Union(t: Table, u: Table): Table {
    seq(CODES, c requires 0 <= c < CODES => t[c] || u[c])
  }

  function WithoutRange(t: Table, start: nat, end: nat): Table {
    seq(CODES, c requires 0 <= c < CODES => t[c] && !(start <= c < end))
  }

  function WithoutAll(t: Table, codes: seq<nat>): Table {
    seq(CODES, c requires 0 <= c < CODES => t[c] && c !in codes)
  }

  /** Every code but zero is turned over. */
  function Inverted(t: Table): Table {
    seq(CODES, c requires 0 <= c < CODES => if c == 0 then t[0] else !t[c])
  }

  lemma NextCode(t: Table, start: nat, c: nat)
    requires start <= c < CODES
    ensures WithRange(t, start, c)[c := true] == WithRange(t, start, c + 1)
    ensures WithoutRange(t, start, c)[c := false] == WithoutRange(t, start, c + 1)
  {
  }

  lemma NoCodes(t: Table, start: nat)
    ensures WithRange(t, start, start) == t && WithoutRange(t, start, start) == t
    ensures WithAll(t, []) == t && WithoutAll(t, []) == t
  {
  }

  lemma NextElement(t: Table, codes: seq<nat>, i: nat)
    requires i < |codes| && codes[i] < CODES
    ensures WithAll(t, codes[..i])[codes[i] := true] == WithAll(t, codes[..i + 1])
    ensures WithoutAll(t, codes[..i])[codes[i] := false] == WithoutAll(t, codes[..i + 1])
  {
    assert codes[..i + 1] == codes[..i] + [codes[i]];
  }

  /** The part of t below n, and the part of u from n on. */
  function Upto(t: Table, u: Table, n: nat): Table {
    seq(CODES, c requires 0 <= c < CODES => if c < n then t[c] else u[c])
  }

  lemma NextUpto(t: Table, u: Table, n: nat)
    requires n < CODES
    ensures Upto(t, u, n)[n := t[n]] == Upto(t, u, n + 1) && Upto(t, u, n)[n] == u[n]
  {
  }

  lemma UptoEnds(t: Table, u: Table)
    ensures Upto(t, u, 0) == u && Upto(t, u, CODES) == t
  {
  }

  // ------------------------------------------------------------------ bits

  /** The number of a set within its buffer. */
  predicate IsId(i: bv32) {
    i < 32
  }

  function Mask(i: bv32): bv32 {
    if i < 32 then 1 << i else 0
  }

  function And(x: bv32, y: bv32): bv32 {
    x & y
  }

  function Or(x: bv32, y: bv32): bv32 {
    x | y
  }

  function Not(x: bv32): bv32 {
    !x
  }

  /** PJ_CIS_ISSET */
  predicate Has(cell: bv32, i: bv32) {
    And(cell, Mask(i)) != 0
  }

  lemma MasksDiffer(i: bv32, j: bv32)
    requires IsId(i) && IsId(j)
    ensures Mask(i) != 0 && (i != j ==> And(Mask(i), Mask(j)) == 0)
  {
  }

  lemma SetBits(x: bv32, m: bv32, n: bv32)
    ensures And(Or(x, m), m) == m && (And(m, n) == 0 ==> And(Or(x, m), n) == And(x, n))
  {
  }

  lemma ClearBits(x: bv32, m: bv32, n: bv32)
    ensures And(And(x, Not(m)), m) == 0 && (And(m, n) == 0 ==> And(And(x, Not(m)), n) == And(x, n))
  {
  }

  /** PJ_CIS_SET */
  function SetBit(x: bv32, i: bv32): bv32 {
    Or(x, Mask(i))
  }

  /** PJ_CIS_CLR */
  function ClearBit(x: bv32, i: bv32): bv32 {
    And(x, Not(Mask(i)))
  }

  lemma BitAfterSet(x: bv32, i: bv32, j: bv32)
    requires IsId(i) && IsId(j)
    ensures Has(SetBit(x, i), j) == (i == j || Has(x, j))
  {
    hide Mask, And, Or, Not;
    MasksDiffer(i, j);
    SetBits(x, Mask(i), Mask(j));
  }

  lemma BitAfterClear(x: bv32, i: bv32, j: bv32)
    requires IsId(i) && IsId(j)
    ensures Has(ClearBit(x, i), j) == (i != j && Has(x, j))
  {
    hide Mask, And, Or, Not;
    MasksDiffer(i, j);
    ClearBits(x, Mask(i), Mask(j));
  }

  lemma NoBits(i: bv32)
    ensures !Has(0, i)
  {
  }

  // ------------------------------------------------------------------ the simple form

  /** One array for each set. */
  class ArraySet {
    const cells: array<int>

    ghost predicate Valid()
    {
      cells.Length == CODES
    }

    ghost function Members(): Table
      requires Valid()
      reads cells
    {
      seq(CODES, c requires 0 <= c < CODES reads cells => c < cells.Length && cells[c] != 0)
    }

    /** pj_cis_init */
    constructor ()
      ensures Valid() && fresh(cells) && Members() == Empty()
    {
      cells := new int[CODES](_ => 0);
    }

    /** pj_cis_dup */
    constructor Dup(existing: ArraySet)
      requires existing.Valid()
      ensures Valid() && fresh(cells) && Members() == existing.Members()
    {
      var a := existing.cells;
      cells := new int[CODES](c requires 0 <= c < CODES && a.Length == CODES reads a => a[c]);
    }

    method Set(c: nat)
      requires Valid() && c < CODES
      modifies cells
      ensures Members() == old(Members())[c := true]
    {
      cells[c] := 1;
    }

    method Clear(c: nat)
      requires Valid() && c < CODES
      modifies cells
      ensures Members() == old(Members())[c := false]
    {
      cells[c] := 0;
    }

    predicate IsSet(c: nat)
      requires Valid() && c < CODES
      reads cells
      ensures IsSet(c) == Members()[c]
    {
      cells[c] != 0
    }

    method AddRange(cstart: nat, cend: nat)
      requires Valid() && 0 < cstart <= cend <= CODES
      modifies cells
      ensures Members() == WithRange(old(Members()), cstart, cend)
    {
      hide WithRange, WithoutRange;
      ghost var t := Members();
      var c := cstart;
      NoCodes(t, c);
      while c != cend
        invariant cstart <= c <= cend && Members() == WithRange(t, cstart, c)
      {
        NextCode(t, cstart, c);
        Set(c);
        c := c + 1;
      }
    }

    method AddStr(str: seq<nat>)
      requires Valid() && forall i :: 0 <= i < |str| ==> str[i] < 128
      modifies cells
      ensures Members() == WithAll(old(Members()), str)
    {
      hide WithAll, WithoutAll;
      ghost var t := Members();
      NoCodes(t, 0);
      assert str[..0] == [];
      for i := 0 to |str|
        invariant Members() == WithAll(t, str[..i])
      {
        NextElement(t, str, i);
        Set(str[i]);
      }
      assert str[..|str|] == str;
    }

    method AddCis(rhs: ArraySet)
      requires Valid() && rhs.Valid()
      modifies cells
      ensures Members() == Union(old(Members()), old(rhs.Members()))
    {
      hide Upto;
      ghost var t, u, v := Members(), rhs.Members(), Union(Members(), rhs.Members());
      UptoEnds(v, t);
      for i := 0 to CODES
        invariant Members() == Upto(v, t, i)
        invariant rhs.Members() == if rhs.cells == cells then Members() else u
      {
        NextUpto(v, t, i);
        if rhs.IsSet(i) {
          Set(i);
        }
        assert Members() == Upto(v, t, i)[i := v[i]];
      }
    }

    method DelRange(cstart: nat, cend: nat)
      requires Valid() && cstart <= cend <= CODES
      modifies cells
      ensures Members() == WithoutRange(old(Members()), cstart, cend)
    {
      hide WithRange, WithoutRange;
      ghost var t := Members();
      var c := cstart;
      NoCodes(t, c);
      while c != cend
        invariant cstart <= c <= cend && Members() == WithoutRange(t, cstart, c)
      {
        NextCode(t, cstart, c);
        Clear(c);
        c := c + 1;
      }
    }

    method DelStr(str: seq<nat>)
      requires Valid() && forall i :: 0 <= i < |str| ==> str[i] < 128
      modifies cells
      ensures Members() == WithoutAll(old(Members()), str)
    {
      hide WithAll, WithoutAll;
      ghost var t := Members();
      NoCodes(t, 0);
      assert str[..0] == [];
      for i := 0 to |str|
        invariant Members() == WithoutAll(t, str[..i])
      {
        NextElement(t, str, i);
        Clear(str[i]);
      }
      assert str[..|str|] == str;
    }

    method Invert()
      requires Valid()
      modifies cells
      ensures Members() == Inverted(old(Members()))
    {
      hide Upto;
      ghost var t, v := Members(), Inverted(Members());
      UptoEnds(v, t);
      NextUpto(v, t, 0);
      assert Members() == Upto(v, t, 0)[0 := v[0]];
      for i := 1 to CODES
        invariant Members() == Upto(v, t, i)
      {
        NextUpto(v, t, i);
        if IsSet(i) {
          Clear(i);
        } else {
          Set(i);
        }
      }
    }
  }

  // ------------------------------------------------------------------ the sliced form

  /** pj_cis_buf_t.  A set is a bit position of every cell. */
  class Buffer {
    const cells: array<bv32>
    var useMask: bv32

    /** Positions that are not in use hold empty sets, as a new set is not cleared. */
    ghost predicate Valid()
      reads this, cells
    {
      cells.Length == CODES && forall i: bv32 {:trigger Members(i)} :: IsId(i) && !InUse(i) ==> Members(i) == Empty()
    }

    predicate InUse(i: bv32)
      reads this
    {
      Has(useMask, i)
    }

    ghost function Members(i: bv32): Table
      requires cells.Length == CODES
      reads cells
    {
      seq(CODES, c requires 0 <= c < CODES reads cells => c < cells.Length && Has(cells[c], i))
    }

    /** Set i has become t, and no other set has changed. */
    twostate predicate Became(i: bv32, t: Table)
      requires cells.Length == CODES
      reads this, cells
    {
      && useMask == old(useMask)
      && Members(i) == t
      && forall j: bv32 {:trigger Members(j)} :: IsId(j) && j != i ==> Members(j) == old(Members(j))
    }

    /** pj_cis_buf_init */
    constructor ()
      ensures Valid() && fresh(cells) && forall i: bv32 :: IsId(i) ==> !InUse(i)
    {
      cells := new bv32[CODES](_ => 0);
      useMask := 0;
      new;
      forall i: bv32 | IsId(i)
        ensures !InUse(i) && Members(i) == Empty()
      {
        NoBits(i);
      }
    }

    method SetCode(i: bv32, c: nat)
      requires cells.Length == CODES && IsId(i) && c < CODES
      modifies cells
      ensures Became(i, old(Members(i))[c := true])
    {
      hide Has, SetBit;
      ghost var x := cells[c];
      cells[c] := SetBit(cells[c], i);
      forall j: bv32 | IsId(j)
        ensures Members(j) == if j == i then old(Members(j))[c := true] else old(Members(j))
      {
        BitAfterSet(x, i, j);
      }
    }

    method ClearCode(i: bv32, c: nat)
      requires cells.Length == CODES && IsId(i) && c < CODES
      modifies cells
      ensures Became(i, old(Members(i))[c := false])
    {
      hide Has, ClearBit;
      ghost var x := cells[c];
      cells[c] := ClearBit(cells[c], i);
      forall j: bv32 | IsId(j)
        ensures Members(j) == if j == i then old(Members(j))[c := false] else old(Members(j))
      {
        BitAfterClear(x, i, j);
      }
    }

    predicate IsSet(i: bv32, c: nat)
      requires cells.Length == CODES && c < CODES
      reads cells
      ensures IsSet(i, c) == Members(i)[c]
    {
      Has(cells[c], i)
    }

    /** pj_cis_init: the lowest position that is free, if there is one. */
    method Init() returns (ok: bool, i: bv32)
      requires Valid()
      modifies `useMask
      ensures Valid() && (ok <==> exists j: bv32 :: IsId(j) && !old(InUse(j)))
      ensures ok ==> IsId(i) && !old(InUse(i)) && Members(i) == Empty()
      ensures forall j: bv32 {:trigger InUse(j)} :: IsId(j) ==> InUse(j) == (old(InUse(j)) || (ok && j == i))
      ensures forall j: bv32 {:trigger Members(j)} :: IsId(j) ==> Members(j) == old(Members(j))
    {
      hide Has, SetBit;
      i := 0;
      while i < 32
        invariant i <= 32 && forall j: bv32 :: j < i ==> InUse(j)
        decreases 32 - i
      {
        if !InUse(i) {
          ghost var m := useMask;
          useMask := SetBit(useMask, i);
          forall j: bv32 | IsId(j)
            ensures InUse(j) == (Has(m, j) || j == i)
          {
            BitAfterSet(m, i, j);
          }
          return true, i;
        }
        i := i + 1;
      }
      ok := false;
    }

    /** pj_cis_dup: a new set with the codes of an existing one of the same buffer. */
    method Dup(existing: bv32) returns (ok: bool, i: bv32)
      requires Valid() && IsId(existing) && InUse(existing)
      modifies `useMask, cells
      ensures Valid() && (ok <==> exists j: bv32 :: IsId(j) && !old(InUse(j)))
      ensures ok ==> IsId(i) && !old(InUse(i)) && Members(i) == old(Members(existing))
      ensures forall j: bv32 {:trigger InUse(j)} :: IsId(j) ==> InUse(j) == (old(InUse(j)) || (ok && j == i))
      ensures forall j: bv32 {:trigger Members(j)} :: IsId(j) && (ok ==> j != i) ==> Members(j) == old(Members(j))
    {
      ok, i := Init();
      if ok {
        CopyCodes(i, existing);
      }
    }

    /** The loop of pj_cis_dup. */
    method CopyCodes(i: bv32, existing: bv32)
      requires cells.Length == CODES && IsId(i) && IsId(existing) && i != existing
      modifies cells
      ensures Became(i, old(Members(existing)))
    {
      hide Upto;
      ghost var t, u := Members(i), Members(existing);
      UptoEnds(u, t);
      for c := 0 to CODES
        invariant Became(i, Upto(u, t, c))
      {
        NextUpto(u, t, c);
        if IsSet(existing, c) {
          SetCode(i, c);
        } else {
          ClearCode(i, c);
        }
      }
    }

    /** pj_cis_add_range */
    method AddRange(i: bv32, cstart: nat, cend: nat)
      requires Valid() && IsId(i) && InUse(i) && 0 < cstart <= cend <= CODES
      modifies cells
      ensures Valid() && Became(i, WithRange(old(Members(i)), cstart, cend))
    {
      hide WithRange, WithoutRange;
      ghost var t := Members(i);
      var c := cstart;
      NoCodes(t, c);
      while c != cend
        invariant cstart <= c <= cend && Became(i, WithRange(t, cstart, c))
      {
        NextCode(t, cstart, c);
        SetCode(i, c);
        c := c + 1;
      }
    }

    /** pj_cis_add_str */
    method AddStr(i: bv32, str: seq<nat>)
      requires Valid() && IsId(i) && InUse(i) && forall k :: 0 <= k < |str| ==> str[k] < 128
      modifies cells
      ensures Valid() && Became(i, WithAll(old(Members(i)), str))
    {
      hide WithAll, WithoutAll;
      ghost var t := Members(i);
      NoCodes(t, 0);
      assert str[..0] == [];
      for k := 0 to |str|
        invariant Became(i, WithAll(t, str[..k]))
      {
        NextElement(t, str, k);
        SetCode(i, str[k]);
      }
      assert str[..|str|] == str;
    }

    /** pj_cis_add_cis, from a set of this buffer. */
    method AddCis(i: bv32, rhs: bv32)
      requires Valid() && IsId(i) && InUse(i) && IsId(rhs) && InUse(rhs)
      modifies cells
      ensures Valid() && Became(i, Union(old(Members(i)), old(Members(rhs))))
    {
      hide Upto;
      ghost var t, u, v := Members(i), Members(rhs), Union(Members(i), Members(rhs));
      UptoEnds(v, t);
      for c := 0 to CODES
        invariant Became(i, Upto(v, t, c))
      {
        NextUpto(v, t, c);
        if IsSet(rhs, c) {
          SetCode(i, c);
        }
        assert Members(i) == Upto(v, t, c)[c := v[c]];
      }
    }

    /** pj_cis_del_range */
    method DelRange(i: bv32, cstart: nat, cend: nat)
      requires Valid() && IsId(i) && InUse(i) && cstart <= cend <= CODES
      modifies cells
      ensures Valid() && Became(i, WithoutRange(old(Members(i)), cstart, cend))
    {
      hide WithRange, WithoutRange;
      ghost var t := Members(i);
      var c := cstart;
      NoCodes(t, c);
      while c != cend
        invariant cstart <= c <= cend && Became(i, WithoutRange(t, cstart, c))
      {
        NextCode(t, cstart, c);
        ClearCode(i, c);
        c := c + 1;
      }
    }

    /** pj_cis_del_str */
    method DelStr(i: bv32, str: seq<nat>)
      requires Valid() && IsId(i) && InUse(i) && forall k :: 0 <= k < |str| ==> str[k] < 128
      modifies cells
      ensures Valid() && Became(i, WithoutAll(old(Members(i)), str))
    {
      hide WithAll, WithoutAll;
      ghost var t := Members(i);
      NoCodes(t, 0);
      assert str[..0] == [];
      for k := 0 to |str|
        invariant Became(i, WithoutAll(t, str[..k]))
      {
        NextElement(t, str, k);
        ClearCode(i, str[k]);
      }
      assert str[..|str|] == str;
    }

    /** pj_cis_invert */
    method Invert(i: bv32)
      requires Valid() && IsId(i) && InUse(i)
      modifies cells
      ensures Valid() && Became(i, Inverted(old(Members(i))))
    {
      hide Upto;
      ghost var t, v := Members(i), Inverted(Members(i));
      UptoEnds(v, t);
      NextUpto(v, t, 0);
      assert Members(i) == Upto(v, t, 0)[0 := v[0]];
      for c := 1 to CODES
        invariant Became(i, Upto(v, t, c))
      {
        NextUpto(v, t, c);
        if IsSet(i, c) {
          ClearCode(i, c);
        } else {
          SetCode(i, c);
        }
      }
    }
  }
}
