/**
 * The accessors of the intrinsics registry.
 *
 * Every accessor of the registry reads `base + offset + ordinal` for one
 * variant of one intrinsic enumeration through one family getter.  The
 * accessor `foo` of an `IntrinsicObjectIndexes` variant `Foo` is therefore
 * identified here with the slot `ObjectSlot(Foo)`; `foo_base_object` of a
 * constructor `Foo` with `ConstructorObjectSlot(Foo)`; and so on.  Two
 * accessors do not follow that pattern: the `prototype` of
 * `%GeneratorFunction.prototype%` is `%GeneratorPrototype%`, and likewise for
 * the async variants, so those two accessors read a slot that another
 * accessor also reads.
 */
module Accessors {
  import opened Ordinals

  /** The slot an accessor reads, named by family getter and variant. */
  datatype IntrinsicSlot =
    | ObjectSlot(intrinsicObject: IntrinsicObjectIndexes)
    | ConstructorFunctionSlot(constructorFunction: IntrinsicConstructorIndexes)
    | ConstructorObjectSlot(constructorObject: IntrinsicConstructorIndexes)
    | FunctionSlot(builtinFunction: IntrinsicFunctionIndexes)
    | PrimitiveObjectSlot(primitiveObject: IntrinsicPrimitiveObjectIndexes)
    | PrimitiveBaseObjectSlot(primitiveBaseObject: IntrinsicPrimitiveObjectIndexes)
    | ArrayPrototypeSlot

  /**
   * The property-bag slots handed out by the `*_base_object` accessors: the
   * ordinary-object half of a constructor or of a primitive-wrapper
   * prototype, and the ordinary object that `%Array.prototype%` owns beside
   * its array-slab slot.
   */
  predicate IsBaseObjectSlot(s: IntrinsicSlot)
  {
    s.ConstructorObjectSlot? || s.PrimitiveBaseObjectSlot? || s == ObjectSlot(IntrinsicObjectIndexes.ArrayPrototype)
  }

  /** An accessor of the registry. */
  datatype Accessor =
    | Slot(slot: IntrinsicSlot)
    | GeneratorFunctionPrototypePrototype
    | AsyncGeneratorFunctionPrototypePrototype

  /** The slot an accessor reads. */
  function AccessorSlot(a: Accessor): IntrinsicSlot
  {
    match a
    case Slot(s) => s
    case GeneratorFunctionPrototypePrototype => ObjectSlot(IntrinsicObjectIndexes.GeneratorPrototype)
    case AsyncGeneratorFunctionPrototypePrototype => ObjectSlot(IntrinsicObjectIndexes.AsyncGeneratorPrototype)
  }

  /** The `*_base_object` accessors. */
  predicate IsBaseObjectAccessor(a: Accessor)
  {
    a.Slot? && IsBaseObjectSlot(a.slot)
  }

  /** The two pairs of distinct accessors that the registry defines to read the same slot. */
  predicate Aliased(a: Accessor, b: Accessor)
  {
    || (a == GeneratorFunctionPrototypePrototype && b == Slot(ObjectSlot(IntrinsicObjectIndexes.GeneratorPrototype)))
    || (b == GeneratorFunctionPrototypePrototype && a == Slot(ObjectSlot(IntrinsicObjectIndexes.GeneratorPrototype)))
    || (a == AsyncGeneratorFunctionPrototypePrototype && b == Slot(ObjectSlot(IntrinsicObjectIndexes.AsyncGeneratorPrototype)))
    || (b == AsyncGeneratorFunctionPrototypePrototype && a == Slot(ObjectSlot(IntrinsicObjectIndexes.AsyncGeneratorPrototype)))
  }

  /** Two accessors read the same slot exactly when they are the same accessor or one of the two alias pairs. */
  lemma SameSlotIff(a: Accessor, b: Accessor)
    ensures AccessorSlot(a) == AccessorSlot(b) <==> a == b || Aliased(a, b)
  {
    match a
    case Slot(s) =>
    case GeneratorFunctionPrototypePrototype =>
    case AsyncGeneratorFunctionPrototypePrototype =>
  }
}

