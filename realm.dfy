/**
 * The per-realm intrinsics registry.
 *
 * A realm does not store a handle per intrinsic.  When it is created it
 * records where each heap slab currently ends and reserves a fixed block of
 * empty slots after that point; every accessor then computes its handle as
 * `base + offset + ordinal`.  The registry takes part in garbage collection
 * by enqueuing its intrinsics for marking and by adjusting its bases when a
 * compacting sweep moves them.
 */
module Realm {
  import opened Ordinals
  import opened Slabs
  import opened Accessors
  import opened DefaultProto
  import opened Marking

  /** The four values a realm's registry stores. */
  datatype Bases = Bases(
    objectBase: nat,
    primitiveObjectBase: nat,
    arrayPrototype: nat,
    builtinFunctionBase: nat)

  /** `h` lies in the block of its slab that the realm with bases `b` reserved. */
  predicate InReservedRange(b: Bases, h: Handle)
  {
    match h
    case ObjectHandle(i) => b.objectBase <= i < b.objectBase + IntrinsicObjectCount
    case PrimitiveObjectHandle(i) => b.primitiveObjectBase <= i < b.primitiveObjectBase + IntrinsicPrimitiveObjectCount
    case BuiltinFunctionHandle(i) => b.builtinFunctionBase <= i < b.builtinFunctionBase + IntrinsicFunctionCount
    case ArrayHandle(i) => i == b.arrayPrototype
  }

  /**
   * The handle of slot `s` for the realm with bases `b`: the family getter of
   * the slot's enumeration applied to the family's base.
   */
  function SlotHandle(b: Bases, s: IntrinsicSlot): (h: Handle)
    ensures InReservedRange(b, h)
    ensures h.ObjectHandle? <==> s.ObjectSlot? || s.ConstructorObjectSlot? || s.PrimitiveBaseObjectSlot?
    ensures h.BuiltinFunctionHandle? <==> s.ConstructorFunctionSlot? || s.FunctionSlot?
    ensures h.PrimitiveObjectHandle? <==> s.PrimitiveObjectSlot?
    ensures h.ArrayHandle? <==> s.ArrayPrototypeSlot?
  {
    match s
    case ObjectSlot(o) => ObjectHandle(ObjectIndexOf(o, b.objectBase))
    case ConstructorFunctionSlot(c) => BuiltinFunctionHandle(ConstructorFunctionIndex(c, b.builtinFunctionBase))
    case ConstructorObjectSlot(c) => ObjectHandle(ConstructorObjectIndex(c, b.objectBase))
    case FunctionSlot(f) => BuiltinFunctionHandle(FunctionIndexOf(f, b.builtinFunctionBase))
    case PrimitiveObjectSlot(p) => PrimitiveObjectHandle(PrimitiveObjectIndexOf(p, b.primitiveObjectBase))
    case PrimitiveBaseObjectSlot(p) => ObjectHandle(PrimitiveBaseObjectIndex(p, b.objectBase))
    case ArrayPrototypeSlot => ArrayHandle(b.arrayPrototype)
  }

  /** Distinct slots of one realm never share a handle. */
  lemma SlotHandleInjective(b: Bases, s: IntrinsicSlot, t: IntrinsicSlot)
    ensures SlotHandle(b, s) == SlotHandle(b, t) <==> s == t
  {
    if SlotHandle(b, s) == SlotHandle(b, t) {
      match s
      case ObjectSlot(o) =>
        if t.ObjectSlot? { ObjectOrdinalInjective(o, t.intrinsicObject); }
      case ConstructorFunctionSlot(c) =>
        if t.ConstructorFunctionSlot? { ConstructorOrdinalInjective(c, t.constructorFunction); }
      case ConstructorObjectSlot(c) =>
        if t.ConstructorObjectSlot? { ConstructorOrdinalInjective(c, t.constructorObject); }
      case FunctionSlot(f) =>
        if t.FunctionSlot? { FunctionOrdinalInjective(f, t.builtinFunction); }
      case PrimitiveObjectSlot(p) =>
        if t.PrimitiveObjectSlot? { PrimitiveObjectOrdinalInjective(p, t.primitiveObject); }
      case PrimitiveBaseObjectSlot(p) =>
        if t.PrimitiveBaseObjectSlot? { PrimitiveObjectOrdinalInjective(p, t.primitiveBaseObject); }
      case ArrayPrototypeSlot =>
    }
  }

  /**
   * A constructor's builtin function and its property-bag object, and a
   * primitive-wrapper prototype's primitive object and its property-bag
   * object, sit at the same ordinal of their sub-ranges.
   */
  lemma DualNatureAligned(b: Bases, c: IntrinsicConstructorIndexes, p: IntrinsicPrimitiveObjectIndexes)
    ensures SlotHandle(b, ConstructorFunctionSlot(c)).index - b.builtinFunctionBase
         == SlotHandle(b, ConstructorObjectSlot(c)).index - b.objectBase - IntrinsicObjectIndexesCount
    ensures SlotHandle(b, PrimitiveObjectSlot(p)).index - b.primitiveObjectBase
         == SlotHandle(b, PrimitiveBaseObjectSlot(p)).index - b.objectBase - IntrinsicObjectIndexesCount - IntrinsicConstructorIndexesCount
  {
  }

  /**
   * Realms whose reserved blocks follow one another share no intrinsic:
   * every handle of one differs from every handle of the other.
   */
  lemma RealmsDisjoint(b1: Bases, b2: Bases, s1: IntrinsicSlot, s2: IntrinsicSlot)
    requires b1.objectBase + IntrinsicObjectCount <= b2.objectBase
    requires b1.primitiveObjectBase + IntrinsicPrimitiveObjectCount <= b2.primitiveObjectBase
    requires b1.builtinFunctionBase + IntrinsicFunctionCount <= b2.builtinFunctionBase
    requires b1.arrayPrototype < b2.arrayPrototype
    ensures SlotHandle(b1, s1) != SlotHandle(b2, s2)
  {
  }

  // ---------------------------------------------------------------------------
  // Sweeping

  /** No slot of the block `[base, base + n)` is reclaimed by `c`. */
  predicate BlockLive(c: CompactionList, base: nat, n: nat)
  {
    forall j | base <= j < base + n :: j !in c.reclaimed
  }

  /** None of the slots a realm reserved is reclaimed by the compaction `c`. */
  predicate ReservedLive(b: Bases, c: CompactionLists)
  {
    && BlockLive(c.objects, b.objectBase, IntrinsicObjectCount)
    && BlockLive(c.primitiveObjects, b.primitiveObjectBase, IntrinsicPrimitiveObjectCount)
    && BlockLive(c.builtinFunctions, b.builtinFunctionBase, IntrinsicFunctionCount)
    && b.arrayPrototype !in c.arrays.reclaimed
  }

  /**
   * The bases after `sweep_values` as written: the object and builtin-function
   * bases are swept through temporary handles, so they keep their values;
   * the primitive-object base and the array prototype are shifted.
   */
  function SweptBases(b: Bases, c: CompactionLists): (r: Bases)
    ensures r.objectBase == b.objectBase && r.builtinFunctionBase == b.builtinFunctionBase
    ensures r.primitiveObjectBase <= b.primitiveObjectBase && r.arrayPrototype <= b.arrayPrototype
  {
    Bases(b.objectBase, ShiftIndex(c.primitiveObjects, b.primitiveObjectBase), ShiftIndex(c.arrays, b.arrayPrototype), b.builtinFunctionBase)
  }

  /** The bases after a sweep that shifts all four of them, as the compaction requires. */
  function SweptBasesShifted(b: Bases, c: CompactionLists): (r: Bases)
    ensures r.objectBase <= b.objectBase && r.primitiveObjectBase <= b.primitiveObjectBase
    ensures r.builtinFunctionBase <= b.builtinFunctionBase && r.arrayPrototype <= b.arrayPrototype
  {
    Bases(
      ShiftIndex(c.objects, b.objectBase),
      ShiftIndex(c.primitiveObjects, b.primitiveObjectBase),
      ShiftIndex(c.arrays, b.arrayPrototype),
      ShiftIndex(c.builtinFunctions, b.builtinFunctionBase))
  }

  /** A reserved block with no reclaimed slot moves as one piece. */
  lemma BlockShift(c: CompactionList, base: nat, n: nat, k: nat)
    requires k < n
    requires BlockLive(c, base, n)
    ensures ShiftIndex(c, base + k) == ShiftIndex(c, base) + k
  {
    ShiftContiguous(c, base, k);
  }

  /** The shifting sweep keeps every handle into the object slab in step with its intrinsic. */
  lemma SweptShiftedTracksObjects(b: Bases, c: CompactionLists, s: IntrinsicSlot)
    requires BlockLive(c.objects, b.objectBase, IntrinsicObjectCount)
    requires s.ObjectSlot? || s.ConstructorObjectSlot? || s.PrimitiveBaseObjectSlot?
    ensures SlotHandle(SweptBasesShifted(b, c), s) == ShiftHandle(c, SlotHandle(b, s))
  {
    var k := SlotHandle(b, s).index - b.objectBase;
    BlockShift(c.objects, b.objectBase, IntrinsicObjectCount, k);
  }

  /** The shifting sweep keeps every handle into the builtin-function slab in step with its intrinsic. */
  lemma SweptShiftedTracksFunctions(b: Bases, c: CompactionLists, s: IntrinsicSlot)
    requires BlockLive(c.builtinFunctions, b.builtinFunctionBase, IntrinsicFunctionCount)
    requires s.ConstructorFunctionSlot? || s.FunctionSlot?
    ensures SlotHandle(SweptBasesShifted(b, c), s) == ShiftHandle(c, SlotHandle(b, s))
  {
    var k := SlotHandle(b, s).index - b.builtinFunctionBase;
    BlockShift(c.builtinFunctions, b.builtinFunctionBase, IntrinsicFunctionCount, k);
  }

  /**
   * After the shifting sweep, every intrinsic handle the realm computes is
   * exactly where the compaction moved that intrinsic.
   */
  lemma SweptShiftedTracksIntrinsics(b: Bases, c: CompactionLists, s: IntrinsicSlot)
    requires ReservedLive(b, c)
    ensures SlotHandle(SweptBasesShifted(b, c), s) == ShiftHandle(c, SlotHandle(b, s))
  {
    if s.ObjectSlot? || s.ConstructorObjectSlot? || s.PrimitiveBaseObjectSlot? {
      SweptShiftedTracksObjects(b, c, s);
    } else if s.ConstructorFunctionSlot? || s.FunctionSlot? {
      SweptShiftedTracksFunctions(b, c, s);
    } else if s.PrimitiveObjectSlot? {
      BlockShift(c.primitiveObjects, b.primitiveObjectBase, IntrinsicPrimitiveObjectCount,
        PrimitiveObjectOrdinal(s.primitiveObject));
    }
  }

  /**
   * The sweep as written agrees with the shifting sweep exactly when no
   * object slot below the object base and no builtin-function slot below
   * the builtin-function base is reclaimed.
   */
  lemma SweptBasesCorrectIff(b: Bases, c: CompactionLists)
    ensures SweptBases(b, c) == SweptBasesShifted(b, c) <==>
      (forall j | j < b.objectBase :: j !in c.objects.reclaimed) &&
      (forall j | j < b.builtinFunctionBase :: j !in c.builtinFunctions.reclaimed)
  {
    if forall j | j < b.objectBase :: j !in c.objects.reclaimed {
      ShiftIdentityBelow(c.objects, b.objectBase);
    } else {
      var j :| j < b.objectBase && j in c.objects.reclaimed;
      ShiftBelowReclaimed(c.objects, j, b.objectBase);
    }
    if forall j | j < b.builtinFunctionBase :: j !in c.builtinFunctions.reclaimed {
      ShiftIdentityBelow(c.builtinFunctions, b.builtinFunctionBase);
    } else {
      var j :| j < b.builtinFunctionBase && j in c.builtinFunctions.reclaimed;
      ShiftBelowReclaimed(c.builtinFunctions, j, b.builtinFunctionBase);
    }
  }

  /**
   * A realm created after one ordinary object that the next collection
   * reclaims: as written, `%AggregateError.prototype%` still resolves to
   * its old slot, where the compaction has moved a different object.
   */
  lemma SweptBasesLeavesStaleHandle()
    ensures var b := Bases(1, 0, 0, 0);
            var c := CompactionLists(CompactionList({0}), CompactionList({}), CompactionList({}), CompactionList({}));
            var s := ObjectSlot(IntrinsicObjectIndexes.AggregateErrorPrototype);
            ReservedLive(b, c) &&
            SlotHandle(SweptBases(b, c), s) == ObjectHandle(1) &&
            ShiftHandle(c, SlotHandle(b, s)) == ObjectHandle(0)
  {
    var c := CompactionLists(CompactionList({0}), CompactionList({}), CompactionList({}), CompactionList({}));
    assert ReclaimedBefore(c.objects, 1) == 1 by {
      assert ReclaimedBefore(c.objects, 0) == 0;
    }
    assert ReclaimedBefore(c.primitiveObjects, 0) == 0;
    assert ReclaimedBefore(c.arrays, 0) == 0;
  }

  // ---------------------------------------------------------------------------
  // The registry

  /** `Intrinsics`: the bases of one realm's reserved blocks. */
  class Intrinsics {
    var objectIndexBase: nat
    var primitiveObjectIndexBase: nat
    /** `%Array.prototype%` is the only intrinsic array, so its handle is stored instead of a base. */
    var arrayPrototype: nat
    var builtinFunctionIndexBase: nat

    /** The stored values, as one value. */
    function CurrentBases(): Bases
      reads this
    {
      Bases(objectIndexBase, primitiveObjectIndexBase, arrayPrototype, builtinFunctionIndexBase)
    }

    /** The handle an accessor returns. */
    function Resolve(a: Accessor): (h: Handle)
      reads this
      ensures InReservedRange(CurrentBases(), h)
      ensures IsBaseObjectAccessor(a) ==> h.ObjectHandle?
      ensures a.GeneratorFunctionPrototypePrototype? || a.AsyncGeneratorFunctionPrototypePrototype? ==> h.ObjectHandle?
    {
      SlotHandle(CurrentBases(), AccessorSlot(a))
    }

    /**
     * `Intrinsics::new`: take the current end of each slab as the realm's
     * base and reserve the realm's block of empty slots there.
     */
    constructor (heap: Heap)
      modifies heap
      ensures objectIndexBase == old(|heap.objects|)
      ensures primitiveObjectIndexBase == old(|heap.primitiveObjects|)
      ensures builtinFunctionIndexBase == old(|heap.builtinFunctions|)
      ensures arrayPrototype == old(|heap.arrays|)
      ensures heap.objects == Reserve(old(heap.objects), IntrinsicObjectCount)
      ensures heap.primitiveObjects == Reserve(old(heap.primitiveObjects), IntrinsicPrimitiveObjectCount)
      ensures heap.builtinFunctions == Reserve(old(heap.builtinFunctions), IntrinsicFunctionCount)
      ensures heap.arrays == old(heap.arrays) + [None]
      ensures forall a :: heap.Holds(Resolve(a)) && heap.At(Resolve(a)) == None
    {
      objectIndexBase := |heap.objects|;
      primitiveObjectIndexBase := |heap.primitiveObjects|;
      builtinFunctionIndexBase := |heap.builtinFunctions|;
      arrayPrototype := |heap.arrays|;
      new;
      heap.objects := Reserve(heap.objects, IntrinsicObjectCount);
      heap.primitiveObjects := Reserve(heap.primitiveObjects, IntrinsicPrimitiveObjectCount);
      heap.builtinFunctions := Reserve(heap.builtinFunctions, IntrinsicFunctionCount);
      heap.arrays := heap.arrays + [None];
    }

    /** `intrinsic_function_index_to_builtin_function`: the handle of a plain builtin function. */
    function IntrinsicFunctionIndexToBuiltinFunction(f: IntrinsicFunctionIndexes): (h: Handle)
      reads this
      ensures h == Resolve(Slot(FunctionSlot(f)))
    {
      BuiltinFunctionHandle(FunctionIndexOf(f, builtinFunctionIndexBase))
    }

    /** `intrinsic_constructor_index_to_builtin_function`: the function half of a constructor. */
    function IntrinsicConstructorIndexToBuiltinFunction(c: IntrinsicConstructorIndexes): (h: Handle)
      reads this
      ensures h == Resolve(Slot(ConstructorFunctionSlot(c)))
    {
      BuiltinFunctionHandle(ConstructorFunctionIndex(c, builtinFunctionIndexBase))
    }

    /** `intrinsic_constructor_index_to_object_index`: the property-bag half of a constructor. */
    function IntrinsicConstructorIndexToObjectIndex(c: IntrinsicConstructorIndexes): (h: Handle)
      reads this
      ensures h == Resolve(Slot(ConstructorObjectSlot(c)))
    {
      ObjectHandle(ConstructorObjectIndex(c, objectIndexBase))
    }

    /**
     * `get_intrinsic_default_proto`: the prototype an object of the given
     * kind is created with.
     */
    function GetIntrinsicDefaultProto(t: ProtoIntrinsics): (h: Handle)
      reads this
      ensures InReservedRange(CurrentBases(), h)
      ensures t.Array? <==> h == ArrayHandle(arrayPrototype)
      ensures h.BuiltinFunctionHandle? <==> t.Function?
      ensures h.PrimitiveObjectHandle? <==> t.Boolean? || t.Number? || t.String?
      ensures h.ObjectHandle? <==> !(t.Array? || t.Function? || t.Boolean? || t.Number? || t.String?)
    {
      Resolve(ProtoAccessor(t))
    }

    /** The default prototype with `BigUint64Array` sent to its own prototype. */
    function GetIntrinsicDefaultProtoPerSpec(t: ProtoIntrinsics): (h: Handle)
      reads this
      ensures InReservedRange(CurrentBases(), h)
      ensures t != ProtoIntrinsics.BigUint64Array ==> h == GetIntrinsicDefaultProto(t)
      ensures t == ProtoIntrinsics.BigUint64Array ==>
        h == Resolve(Slot(ObjectSlot(IntrinsicObjectIndexes.BigUint64ArrayPrototype)))
    {
      Resolve(SpecProtoAccessor(t))
    }

    /** The handles the accessors in `list` return, in order. */
    function MarkedHandles(list: seq<Accessor>): (hs: seq<Handle>)
      reads this
      ensures |hs| == |list|
      ensures forall i | 0 <= i < |list| :: hs[i] == Resolve(list[i])
    {
      if list == [] then [] else MarkedHandles(list[..|list| - 1]) + [Resolve(list[|list| - 1])]
    }

    /** Marking one more accessor of a list appends its handle. */
    lemma MarkedHandlesExtend(list: seq<Accessor>, i: nat)
      requires i < |list|
      ensures MarkedHandles(list[..i + 1]) == MarkedHandles(list[..i]) + [Resolve(list[i])]
    {
      assert list[..i + 1][..i] == list[..i];
    }

    /**
     * `mark_values`: enqueue the handle of every accessor the statement list
     * names, in statement order.
     */
    method MarkValues(queues: WorkQueues)
      modifies queues
      ensures queues.pending == old(queues.pending) + MarkedHandles(MarkOrder)
    {
      var i := 0;
      while i < |MarkOrder|
        invariant 0 <= i <= |MarkOrder|
        invariant queues.pending == old(queues.pending) + MarkedHandles(MarkOrder[..i])
      {
        MarkedHandlesExtend(MarkOrder, i);
        queues.Push(Resolve(MarkOrder[i]));
        i := i + 1;
      }
      assert MarkOrder[..i] == MarkOrder;
    }

    /**
     * `sweep_values` as written: the object and builtin-function bases are
     * wrapped in temporary handles and those temporaries are swept, so only
     * the primitive-object base and the array prototype move.
     */
    method SweepValues(c: CompactionLists)
      modifies this
      ensures CurrentBases() == SweptBases(old(CurrentBases()), c)
    {
      var objectBase := objectIndexBase;
      objectBase := ShiftIndex(c.objects, objectBase);
      var functionBase := builtinFunctionIndexBase;
      functionBase := ShiftIndex(c.builtinFunctions, functionBase);
      primitiveObjectIndexBase := ShiftIndex(c.primitiveObjects, primitiveObjectIndexBase);
      arrayPrototype := ShiftIndex(c.arrays, arrayPrototype);
    }

    /** `sweep_values` with all four stored values shifted in place. */
    method SweepValuesShifted(c: CompactionLists)
      modifies this
      ensures CurrentBases() == SweptBasesShifted(old(CurrentBases()), c)
      ensures ReservedLive(old(CurrentBases()), c) ==> forall a :: Resolve(a) == ShiftHandle(c, old(Resolve(a)))
    {
      ghost var before := CurrentBases();
      objectIndexBase := ShiftIndex(c.objects, objectIndexBase);
      builtinFunctionIndexBase := ShiftIndex(c.builtinFunctions, builtinFunctionIndexBase);
      primitiveObjectIndexBase := ShiftIndex(c.primitiveObjects, primitiveObjectIndexBase);
      arrayPrototype := ShiftIndex(c.arrays, arrayPrototype);
      if ReservedLive(before, c) {
        forall a: Accessor
          ensures SlotHandle(CurrentBases(), AccessorSlot(a)) == ShiftHandle(c, SlotHandle(before, AccessorSlot(a)))
        {
          SweptShiftedTracksIntrinsics(before, c, AccessorSlot(a));
        }
      }
    }
  }

  /**
   * Two accessors of one realm return the same handle exactly when they are
   * the same accessor or one of the two deliberate alias pairs.
   */
  lemma ResolveIff(r: Intrinsics, a: Accessor, b: Accessor)
    ensures r.Resolve(a) == r.Resolve(b) <==> a == b || Aliased(a, b)
  {
    SlotHandleInjective(r.CurrentBases(), AccessorSlot(a), AccessorSlot(b));
    SameSlotIff(a, b);
  }

  /**
   * Two kinds of object get the same default prototype exactly when they
   * are the same kind or the pair `BigInt64Array`, `BigUint64Array`.
   */
  lemma DefaultProtoIff(r: Intrinsics, t: ProtoIntrinsics, u: ProtoIntrinsics)
    ensures r.GetIntrinsicDefaultProto(t) == r.GetIntrinsicDefaultProto(u) <==>
      t == u || {t, u} == {ProtoIntrinsics.BigInt64Array, ProtoIntrinsics.BigUint64Array}
  {
    var a, b := ProtoAccessor(t), ProtoAccessor(u);
    assert !Aliased(a, b);
    ResolveIff(r, a, b);
    ProtoAccessorIff(t, u);
  }

  /** With the intended mapping every kind of object has a default prototype of its own. */
  lemma DefaultProtoPerSpecInjective(r: Intrinsics, t: ProtoIntrinsics, u: ProtoIntrinsics)
    ensures r.GetIntrinsicDefaultProtoPerSpec(t) == r.GetIntrinsicDefaultProtoPerSpec(u) <==> t == u
  {
    var a, b := SpecProtoAccessor(t), SpecProtoAccessor(u);
    assert !Aliased(a, b);
    ResolveIff(r, a, b);
    SpecProtoAccessorInjective(t, u);
  }

  /**
   * `mark_values` enqueues exactly the handles of the accessors other than
   * the `*_base_object` ones.
   */
  lemma MarkValuesCoverage(r: Intrinsics, h: Handle)
    ensures h in r.MarkedHandles(MarkOrder) <==> exists a :: !IsBaseObjectAccessor(a) && r.Resolve(a) == h
  {
    var hs := r.MarkedHandles(MarkOrder);
    if h in hs {
      var i :| 0 <= i < |hs| && hs[i] == h;
      MarkOrderSkipsBaseObjects(i);
      assert !IsBaseObjectAccessor(MarkOrder[i]) && r.Resolve(MarkOrder[i]) == h;
    }
    if a :| !IsBaseObjectAccessor(a) && r.Resolve(a) == h {
      MarkOrderCovers(a);
      var i :| 0 <= i < |MarkOrder| && MarkOrder[i] == Slot(AccessorSlot(a));
      assert hs[i] == h;
    }
  }

  /** The property-bag halves handed out by the `*_base_object` accessors are not enqueued. */
  lemma BaseObjectsNotMarked(r: Intrinsics, a: Accessor)
    requires IsBaseObjectAccessor(a)
    ensures r.Resolve(a) !in r.MarkedHandles(MarkOrder)
  {
    MarkValuesCoverage(r, r.Resolve(a));
    if b :| !IsBaseObjectAccessor(b) && r.Resolve(b) == r.Resolve(a) {
      ResolveIff(r, a, b);
    }
  }

  /**
   * Two realms created one after the other on the same heap get disjoint
   * blocks: no accessor of the first returns a handle of the second.
   */
  method TwoRealmsAreDisjoint(heap: Heap) returns (r1: Intrinsics, r2: Intrinsics)
    modifies heap
    ensures forall a, b :: r1.Resolve(a) != r2.Resolve(b)
  {
    r1 := new Intrinsics(heap);
    r2 := new Intrinsics(heap);
    forall a: Accessor, b: Accessor
      ensures r1.Resolve(a) != r2.Resolve(b)
    {
      RealmsDisjoint(r1.CurrentBases(), r2.CurrentBases(), AccessorSlot(a), AccessorSlot(b));
    }
  }
}
