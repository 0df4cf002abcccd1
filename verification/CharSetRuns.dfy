/** The two forms of character sets side by side: whatever is done to sets of one buffer, the
    sliced form and one array for each set answer every question alike. */
module CharSetRuns {
  import opened CharSets

  const MAX_SETS := 32

  /** What can be done with a set. */
  datatype Change =
    | AddRange(start: nat, end: nat)
    | AddStr(codes: seq<nat>)
    | AddCis(rhs: nat)
    | DelRange(start: nat, end: nat)
    | DelStr(codes: seq<nat>)
    | Invert

  /** Sets are numbered in the order they are made. */
  datatype Op = New | Copy(existing: nat) | Edits(id: nat, change: Change)

  predicate Plain(codes: seq<nat>) {
    forall i :: 0 <= i < |codes| ==> codes[i] < 128
  }

  /** What the code asks of its callers when there are n sets. */
  predicate Legal(n: nat, op: Op) {
    match op
    case New => true
    case Copy(existing) => existing < n
    case Edits(id, change) =>
      id < n &&
      match change
      case AddRange(start, end) => 0 < start <= end <= CODES
      case AddStr(codes) => Plain(codes)
      case AddCis(rhs) => rhs < n
      case DelRange(start, end) => start <= end <= CODES
      case DelStr(codes) => Plain(codes)
      case Invert => true
  }

  function OneMore(sets: seq<Table>, t: Table): seq<Table> {
    if |sets| < MAX_SETS then sets + [t] else sets
  }

  function Edited(sets: seq<Table>, op: Op): Table
    requires op.Edits? && Legal(|sets|, op)
  {
    var t := sets[op.id];
    match op.change
    case AddRange(start, end) => WithRange(t, start, end)
    case AddStr(codes) => WithAll(t, codes)
    case AddCis(rhs) => Union(t, sets[rhs])
    case DelRange(start, end) => WithoutRange(t, start, end)
    case DelStr(codes) => WithoutAll(t, codes)
    case Invert => Inverted(t)
  }

  /** The sets after an operation; the 33rd set is refused. */
  function After(sets: seq<Table>, op: Op): seq<Table>
    requires Legal(|sets|, op)
  {
    match op
    case New => OneMore(sets, Empty())
    case Copy(existing) => OneMore(sets, sets[existing])
    case Edits(id, change) => sets[id := Edited(sets, op)]
  }

  predicate AllLegal(sets: seq<Table>, ops: seq<Op>)
    decreases |ops|
  {
    ops == [] || (Legal(|sets|, ops[0]) && AllLegal(After(sets, ops[0]), ops[1..]))
  }

  function AfterAll(sets: seq<Table>, ops: seq<Op>): seq<Table>
    requires AllLegal(sets, ops)
    decreases |ops|
  {
    if ops == [] then sets else AfterAll(After(sets, ops[0]), ops[1..])
  }

  // ------------------------------------------------------------------ positions

  ghost predicate Distinct(ids: seq<bv32>) {
    forall j, k :: 0 <= j < k < |ids| ==> ids[j] != ids[k]
  }

  function Quarter(base: bv32): set<bv32>
    requires base < 32
  {
    {base, base + 1, base + 2, base + 3, base + 4, base + 5, base + 6, base + 7}
  }

  lemma Eight(base: bv32)
    requires base < 32
    ensures |Quarter(base)| == 8
  {
  }

  lemma PositionIs(base: bv32, i: bv32)
    requires base <= 24
    ensures i in Quarter(base) <==> base <= i <= base + 7
  {
  }

  lemma PositionsAre() returns (all: set<bv32>)
    ensures |all| == MAX_SETS && forall i: bv32 :: i in all <==> IsId(i)
  {
    hide Quarter;
    Eight(0);
    Eight(8);
    Eight(16);
    Eight(24);
    var a, b, c, d := Quarter(0), Quarter(8), Quarter(16), Quarter(24);
    forall i: bv32
      ensures (i in a <==> i < 8) && (i in b <==> 8 <= i < 16) && (i in c <==> 16 <= i < 24) && (i in d <==> 24 <= i < 32)
    {
      PositionIs(0, i);
      PositionIs(8, i);
      PositionIs(16, i);
      PositionIs(24, i);
    }
    all := (a + b) + (c + d);
    assert a * b == {} && c * d == {} && (a + b) * (c + d) == {};
  }

  lemma {:induction false} DistinctCount(ids: seq<bv32>)
    requires Distinct(ids)
    ensures |set i | i in ids| == |ids|
    decreases |ids|
  {
    if ids != [] {
      var last, front := ids[|ids| - 1], ids[..|ids| - 1];
      DistinctCount(front);
      assert (set i | i in ids) == (set i | i in front) + {last};
    }
  }

  lemma SmallerCount<T>(a: set<T>, b: set<T>)
    requires a <= b
    ensures |a| <= |b|
    decreases |a|
  {
    if a != {} {
      var x :| x in a;
      SmallerCount(a - {x}, b - {x});
      assert |b - {x}| == |b| - 1;
    }
  }

  /** Positions are used up exactly when 32 different ones are in use. */
  lemma UsedUp(ids: seq<bv32>)
    requires Distinct(ids) && forall k :: 0 <= k < |ids| ==> IsId(ids[k])
    ensures |ids| <= MAX_SETS
    ensures |ids| < MAX_SETS <==> exists i: bv32 :: IsId(i) && i !in ids
  {
    var all := PositionsAre();
    DistinctCount(ids);
    hide Distinct, IsId;
    var used := set i | i in ids;
    SmallerCount(used, all);
    if |ids| < MAX_SETS {
      if forall i :: i in all ==> i in used {
        SmallerCount(all, used);
      }
      var i :| i in all && i !in used;
    } else if i: bv32 :| IsId(i) && i !in ids {
      SmallerCount(used + {i}, all);
    }
  }

  // ------------------------------------------------------------------ both forms

  /** Sets of one buffer, and an array for each: `ids` and `arrays` are what the caller got for
      each set it made. */
  class BothForms {
    const buffer: Buffer
    var ids: seq<bv32>
    var arrays: seq<ArraySet>

    /** Each set has its own position, and no other position is in use. */
    ghost predicate Positioned()
      reads this, buffer
    {
      && Distinct(ids) && (forall k :: 0 <= k < |ids| ==> IsId(ids[k]))
      && (forall i: bv32 {:trigger buffer.InUse(i)} :: IsId(i) ==> (buffer.InUse(i) <==> i in ids))
    }

    ghost predicate BufferHolds(sets: seq<Table>)
      reads this, buffer, buffer.cells
    {
      && buffer.Valid() && Positioned() && |ids| == |sets|
      && forall k {:trigger ids[k]} {:trigger sets[k]} :: 0 <= k < |sets| ==> buffer.Members(ids[k]) == sets[k]
    }

    ghost function Cells(): set<object>
      reads this
    {
      set a: ArraySet | a in arrays :: a.cells
    }

    /** No two arrays share cells, so that changing one leaves the others alone. */
    ghost predicate ArraysHold(sets: seq<Table>)
      reads this, Cells()
    {
      && |arrays| == |sets|
      && (forall k {:trigger arrays[k]} {:trigger sets[k]} :: 0 <= k < |sets| ==>
            arrays[k].Valid() && arrays[k].Members() == sets[k])
      && (forall j, k {:trigger arrays[j], arrays[k]} :: 0 <= j < k < |arrays| ==> arrays[j].cells != arrays[k].cells)
    }

    /** Both forms hold these sets. */
    ghost predicate Holds(sets: seq<Table>)
      reads this, buffer, buffer.cells, Cells()
    {
      BufferHolds(sets) && ArraysHold(sets) && buffer.cells !in Cells()
    }

    constructor ()
      ensures fresh(buffer) && fresh(buffer.cells) && Holds([]) && arrays == []
    {
      buffer := new Buffer();
      ids, arrays := [], [];
    }

    /** The sliced form of an operation on one set. */
    method EditSlice(ghost sets: seq<Table>, op: Op)
      requires BufferHolds(sets) && op.Edits? && Legal(|sets|, op)
      modifies buffer.cells
      ensures buffer.Valid() && buffer.Became(ids[op.id], Edited(sets, op))
    {
      hide WithRange, WithAll, Union, WithoutRange, WithoutAll, Inverted, Distinct;
      var i := ids[op.id];
      match op.change
      case AddRange(start, end) => buffer.AddRange(i, start, end);
      case AddStr(codes) => buffer.AddStr(i, codes);
      case AddCis(rhs) => buffer.AddCis(i, ids[rhs]);
      case DelRange(start, end) => buffer.DelRange(i, start, end);
      case DelStr(codes) => buffer.DelStr(i, codes);
      case Invert => buffer.Invert(i);
    }

    method EditBuffer(ghost sets: seq<Table>, op: Op)
      requires BufferHolds(sets) && op.Edits? && Legal(|sets|, op)
      modifies buffer.cells
      ensures BufferHolds(After(sets, op))
    {
      hide Edited;
      ghost var after := After(sets, op);
      EditSlice(sets, op);
      forall j | 0 <= j < |sets|
        ensures buffer.Members(ids[j]) == after[j]
      {
        assert old(buffer.Members(ids[j])) == sets[j];
        assert IsId(ids[j]) && (j != op.id ==> ids[j] != ids[op.id]);
      }
      forall i: bv32 | IsId(i)
        ensures buffer.InUse(i) <==> i in ids
      {
        assert old(buffer.InUse(i)) <==> i in ids;
      }
    }

    /** The other form: the array of the set alone changes. */
    method EditOne(ghost sets: seq<Table>, op: Op)
      requires ArraysHold(sets) && op.Edits? && Legal(|sets|, op)
      modifies arrays[op.id].cells
      ensures arrays[op.id].Members() == Edited(sets, op)
    {
      hide WithRange, WithAll, Union, WithoutRange, WithoutAll, Inverted;
      var a := arrays[op.id];
      match op.change
      case AddRange(start, end) => a.AddRange(start, end);
      case AddStr(codes) => a.AddStr(codes);
      case AddCis(rhs) => a.AddCis(arrays[rhs]);
      case DelRange(start, end) => a.DelRange(start, end);
      case DelStr(codes) => a.DelStr(codes);
      case Invert => a.Invert();
    }

    method EditArrays(ghost sets: seq<Table>, op: Op)
      requires ArraysHold(sets) && op.Edits? && Legal(|sets|, op)
      modifies arrays[op.id].cells
      ensures ArraysHold(After(sets, op))
    {
      hide Edited;
      ghost var after := After(sets, op);
      EditOne(sets, op);
      forall j | 0 <= j < |sets|
        ensures arrays[j].Valid() && arrays[j].Members() == after[j]
      {
        assert old(arrays[j].Members()) == sets[j];
        if j != op.id {
          assert arrays[j].cells != arrays[op.id].cells;
          assert unchanged(arrays[j].cells);
        }
      }
    }

    /** A new set with the codes t in both forms. */
    method Enter(ghost sets: seq<Table>, i: bv32, a: ArraySet, ghost t: Table)
      requires buffer.Valid() && Distinct(ids + [i]) && (forall k :: 0 <= k < |ids| ==> IsId(ids[k])) && IsId(i)
      requires forall j: bv32 {:trigger buffer.InUse(j)} :: IsId(j) ==> (buffer.InUse(j) <==> j in ids || j == i)
      requires |ids| == |sets| && buffer.Members(i) == t
      requires forall k {:trigger ids[k]} {:trigger sets[k]} :: 0 <= k < |sets| ==> buffer.Members(ids[k]) == sets[k]
      requires ArraysHold(sets) && a.Valid() && a.Members() == t
      requires a.cells !in Cells() && buffer.cells !in Cells() && a.cells as object != buffer.cells
      modifies this
      ensures Holds(sets + [t])
      ensures ids == old(ids) + [i] && arrays == old(arrays) + [a]
    {
      ids := ids + [i];
      arrays := arrays + [a];
      assert forall b :: b in arrays ==> b in old(arrays) || b == a;
    }

    /** A position was given out to a set with the codes t, or none was left. */
    method Made(ghost sets: seq<Table>, ok: bool, i: bv32, a: ArraySet, ghost t: Table)
      requires buffer.Valid() && Distinct(ids) && (forall k :: 0 <= k < |ids| ==> IsId(ids[k])) && |ids| == |sets|
      requires ok ==> IsId(i) && i !in ids && buffer.Members(i) == t
      requires ok == (|sets| < MAX_SETS)
      requires forall j: bv32 {:trigger buffer.InUse(j)} :: IsId(j) ==> (buffer.InUse(j) <==> j in ids || (ok && j == i))
      requires forall k {:trigger ids[k]} {:trigger sets[k]} :: 0 <= k < |sets| ==> buffer.Members(ids[k]) == sets[k]
      requires ArraysHold(sets) && a.Valid() && a.Members() == t
      requires a.cells !in Cells() && buffer.cells !in Cells() && a.cells as object != buffer.cells
      modifies this
      ensures Holds(OneMore(sets, t)) && Cells() <= old(Cells()) + {a.cells}
    {
      if ok {
        Enter(sets, i, a, t);
      }
    }

    /** pj_cis_init */
    method MakeNew(ghost sets: seq<Table>)
      requires Holds(sets)
      modifies this, buffer
      ensures Holds(After(sets, New)) && fresh(Cells() - old(Cells()))
    {
      UsedUp(ids);
      hide Distinct, IsId;
      var ok, i := buffer.Init();
      var a := new ArraySet();
      Made(sets, ok, i, a, Empty());
    }

    /** pj_cis_dup; a caller who is refused a position has no set in either form. */
    method MakeCopy(ghost sets: seq<Table>, existing: nat)
      requires Holds(sets) && existing < |sets|
      modifies this, buffer, buffer.cells
      ensures Holds(After(sets, Copy(existing))) && fresh(Cells() - old(Cells()))
    {
      UsedUp(ids);
      hide Distinct, IsId;
      var ok, i := buffer.Dup(ids[existing]);
      var a := new ArraySet.Dup(arrays[existing]);
      Made(sets, ok, i, a, sets[existing]);
    }

    method Do(ghost sets: seq<Table>, op: Op)
      requires Holds(sets) && Legal(|sets|, op)
      modifies this, buffer, buffer.cells, Cells()
      ensures Holds(After(sets, op)) && fresh(Cells() - old(Cells()))
    {
      hide After;
      match op
      case New => MakeNew(sets);
      case Copy(existing) => MakeCopy(sets, existing);
      case Edits(id, change) =>
        assert arrays[id].cells in Cells();
        EditBuffer(sets, op);
        EditArrays(sets, op);
    }
  }

  /** Main result.  After any sequence of operations on up to 32 sets of one buffer, every
      question about every set gets the same answer from both forms: the one that the operations
      on that set alone account for. */
  method Run(ops: seq<Op>) returns (forms: BothForms)
    requires AllLegal([], ops)
    ensures forms.Holds(AfterAll([], ops)) && |forms.ids| == |forms.arrays| == |AfterAll([], ops)|
    ensures forall k, c {:trigger forms.arrays[k].IsSet(c)} {:trigger AfterAll([], ops)[k][c]} ::
      0 <= k < |forms.arrays| && 0 <= c < CODES ==>
        forms.buffer.IsSet(forms.ids[k], c) == forms.arrays[k].IsSet(c) == AfterAll([], ops)[k][c]
  {
    hide After, Legal;
    forms := new BothForms();
    ghost var sets := [];
    assert ops[0..] == ops;
    for i := 0 to |ops|
      invariant fresh(forms) && fresh(forms.buffer) && fresh(forms.buffer.cells) && fresh(forms.Cells())
      invariant forms.Holds(sets) && AllLegal(sets, ops[i..])
      invariant AfterAll(sets, ops[i..]) == AfterAll([], ops)
    {
      assert ops[i..][0] == ops[i] && ops[i..][1..] == ops[i + 1..];
      forms.Do(sets, ops[i]);
      sets := After(sets, ops[i]);
    }
    assert sets == AfterAll([], ops);
  }
}
