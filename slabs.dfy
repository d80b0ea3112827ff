/**
 * The parts of the engine's heap that the intrinsics registry touches:
 * typed handles into per-family slabs, the slabs themselves, the work
 * queues of the marking phase and the index shift of the compacting sweep.
 *
 * A handle is a slab family plus a zero-based index (the engine stores it
 * one-based so that the niche value zero is free; only the index matters
 * here).  The contents of a heap entity are not part of this model.
 */
module Slabs {

  datatype Option<T> = None | Some(value: T)

  /** Stand-in for the data of one heap entity. */
  datatype HeapData = HeapData(tag: nat)

  /** A typed handle: which slab it indexes, and where. */
  datatype Handle =
    | ObjectHandle(index: nat)
    | PrimitiveObjectHandle(index: nat)
    | BuiltinFunctionHandle(index: nat)
    | ArrayHandle(index: nat)

  /** `n` empty placeholder slots, as `(0..n).map(|_| None)` yields them. */
  function Nones(n: nat): (s: seq<Option<HeapData>>)
    ensures |s| == n
    ensures forall i | 0 <= i < n :: s[i] == None
  {
    if n == 0 then [] else Nones(n - 1) + [None]
  }

  /**
   * `Vec::extend` with `n` placeholders: the slab keeps every existing slot
   * and grows by exactly `n` empty ones.
   */
  function Reserve(slab: seq<Option<HeapData>>, n: nat): (r: seq<Option<HeapData>>)
    ensures |r| == |slab| + n
    ensures r[..|slab|] == slab
    ensures forall i | |slab| <= i < |r| :: r[i] == None
  {
    slab + Nones(n)
  }

  /** The four slabs of the heap that intrinsics live in. */
  class Heap {
    var objects: seq<Option<HeapData>>
    var primitiveObjects: seq<Option<HeapData>>
    var builtinFunctions: seq<Option<HeapData>>
    var arrays: seq<Option<HeapData>>

    /** A fresh heap with nothing allocated. */
    constructor ()
      ensures objects == [] && primitiveObjects == []
      ensures builtinFunctions == [] && arrays == []
    {
      objects := [];
      primitiveObjects := [];
      builtinFunctions := [];
      arrays := [];
    }

    /** The slab that `h` indexes has a slot at its index. */
    predicate Holds(h: Handle)
      reads this
    {
      match h
      case ObjectHandle(i) => i < |objects|
      case PrimitiveObjectHandle(i) => i < |primitiveObjects|
      case BuiltinFunctionHandle(i) => i < |builtinFunctions|
      case ArrayHandle(i) => i < |arrays|
    }

    /** The slot `h` refers to. */
    function At(h: Handle): Option<HeapData>
      reads this
      requires Holds(h)
    {
      match h
      case ObjectHandle(i) => objects[i]
      case PrimitiveObjectHandle(i) => primitiveObjects[i]
      case BuiltinFunctionHandle(i) => builtinFunctions[i]
      case ArrayHandle(i) => arrays[i]
    }
  }

  /** The marking phase's queues of handles still to be traced. */
  class WorkQueues {
    var pending: seq<Handle>

    constructor ()
      ensures pending == []
    {
      pending := [];
    }

    /** `HeapMarkAndSweep::mark_values`: enqueue one handle. */
    method Push(h: Handle)
      modifies this
      ensures pending == old(pending) + [h]
    {
      pending := pending + [h];
    }
  }

  /** The compaction list of one slab: the slots the sweep reclaims. */
  datatype CompactionList = CompactionList(reclaimed: set<nat>)

  /** How many reclaimed slots lie strictly below `i`. */
  function ReclaimedBefore(c: CompactionList, i: nat): (n: nat)
    ensures n <= i
  {
    if i == 0 then 0
    else ReclaimedBefore(c, i - 1) + (if i - 1 in c.reclaimed then 1 else 0)
  }

  /**
   * `CompactionList::shift_index`: a live slot moves down by the number of
   * reclaimed slots beneath it.
   */
  function ShiftIndex(c: CompactionList, i: nat): (j: nat)
    ensures j <= i
  {
    i - ReclaimedBefore(c, i)
  }

  /** One compaction list per slab. */
  datatype CompactionLists = CompactionLists(
    objects: CompactionList,
    primitiveObjects: CompactionList,
    builtinFunctions: CompactionList,
    arrays: CompactionList)

  /** `HeapMarkAndSweep::sweep_values` of a single handle: its index is shifted within its own slab. */
  function ShiftHandle(c: CompactionLists, h: Handle): (r: Handle)
    ensures r.index <= h.index
    ensures r.ObjectHandle? == h.ObjectHandle?
    ensures r.PrimitiveObjectHandle? == h.PrimitiveObjectHandle?
    ensures r.BuiltinFunctionHandle? == h.BuiltinFunctionHandle?
    ensures r.ArrayHandle? == h.ArrayHandle?
  {
    match h
    case ObjectHandle(i) => ObjectHandle(ShiftIndex(c.objects, i))
    case PrimitiveObjectHandle(i) => PrimitiveObjectHandle(ShiftIndex(c.primitiveObjects, i))
    case BuiltinFunctionHandle(i) => BuiltinFunctionHandle(ShiftIndex(c.builtinFunctions, i))
    case ArrayHandle(i) => ArrayHandle(ShiftIndex(c.arrays, i))
  }

  /** A run of live slots moves down as one block: its offsets are kept. */
  lemma {:induction false} ShiftContiguous(c: CompactionList, base: nat, k: nat)
    requires forall j | base <= j < base + k :: j !in c.reclaimed
    ensures ShiftIndex(c, base + k) == ShiftIndex(c, base) + k
  {
    if k > 0 {
      ShiftContiguous(c, base, k - 1);
      assert base + k - 1 !in c.reclaimed;
    }
  }

  /** Reclaimed slots below `base` always move it. */
  lemma {:induction false} ShiftBelowReclaimed(c: CompactionList, j: nat, i: nat)
    requires j < i && j in c.reclaimed
    ensures ShiftIndex(c, i) < i
  {
    if j < i - 1 {
      ShiftBelowReclaimed(c, j, i - 1);
    }
  }

  /** With nothing reclaimed below `i`, the slot stays where it is. */
  lemma {:induction false} ShiftIdentityBelow(c: CompactionList, i: nat)
    requires forall j | j < i :: j !in c.reclaimed
    ensures ShiftIndex(c, i) == i
  {
    if i > 0 {
      ShiftIdentityBelow(c, i - 1);
      assert i - 1 !in c.reclaimed;
    }
  }

  /** Live slots keep their relative order, and distinct live slots stay distinct. */
  lemma {:induction false} ShiftStrictlyMonotone(c: CompactionList, i: nat, j: nat)
    requires i < j && i !in c.reclaimed
    ensures ShiftIndex(c, i) < ShiftIndex(c, j)
  {
    if j == i + 1 {
    } else {
      ShiftStrictlyMonotone(c, i, j - 1);
    }
  }
}
