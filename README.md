# Nova intrinsics registry, in Dafny

This project models the per-realm intrinsics registry of the Nova ECMAScript
engine (`nova_vm/src/ecmascript/execution/realm/intrinsics.rs`) and proves
properties about it.

A realm never stores one handle per well-known built-in. When it is created,
`Intrinsics::new` records the current length of four heap slabs:

- objects;
- primitive objects;
- builtin functions;
- arrays.

It then reserves a fixed block of empty slots at the end of each. From then on:

- Every accessor computes its handle as `base + offset + ordinal`. The
  ordinal is the intrinsic's position in its ordinal enumeration.
- `get_intrinsic_default_proto` maps a `ProtoIntrinsics` tag to one of these
  accessors.
- `mark_values` enqueues the intrinsics for the marking phase of the
  collector.
- `sweep_values` adjusts the stored bases after a compacting sweep.

Modules:

- `Ordinals` (`ordinals.dfy`): the four ordinal enumerations,
  `IntrinsicObjectIndexes`, `IntrinsicConstructorIndexes`,
  `IntrinsicFunctionIndexes` and `IntrinsicPrimitiveObjectIndexes`.
  - Each has its ordinal function and inverse, with density, round-trip
    and injectivity lemmas.
  - The module also holds the family sizes and the `get_*_index` layout of
    each slab:
    - the object slab holds the plain objects, then one property-bag object
      per constructor, then one per primitive-wrapper prototype;
    - the builtin-function slab holds the constructors, then the plain
      functions.
  - `nova_vm/src/heap` is not part of this model. The variants are the ones
    the registry names, and their order and this layout are reconstructed
    from the way the registry uses them.
- `Slabs` (`slabs.dfy`):
  - typed handles and the heap slabs;
  - `Vec::extend` with empty placeholders;
  - the marking work queue;
  - the compaction list's `shift_index`, with the lemmas that a live block
    moves as one piece and that live slots keep their order.
- `Accessors` (`accessors.dfy`): the 176 accessors of the registry. Each
  reads one slot, named by its family getter and variant:
  - `foo` of `IntrinsicObjectIndexes::Foo` is `ObjectSlot(Foo)`;
  - `foo` of a constructor is `ConstructorFunctionSlot(Foo)`, and
    `foo_base_object` is `ConstructorObjectSlot(Foo)`;
  - a plain builtin function is `FunctionSlot(Foo)`;
  - a primitive-wrapper prototype is `PrimitiveObjectSlot(Foo)`, and
    `foo_base_object` is `PrimitiveBaseObjectSlot(Foo)`;
  - `array_prototype` is `ArrayPrototypeSlot`, and
    `array_prototype_base_object` is `ObjectSlot(ArrayPrototype)`;
  - two aliases (`generator_function_prototype_prototype` and
    `async_generator_function_prototype_prototype`) read the slots of
    `%GeneratorPrototype%` and `%AsyncGeneratorPrototype%`.
- `DefaultProto` (`default_proto.dfy`):
  - the `ProtoIntrinsics` tag set;
  - the tag-to-accessor mapping of `get_intrinsic_default_proto`, with its
    `BigUint64Array` arm as written;
  - a corrected mapping.
- `Marking` (`marking.dfy`): the 127 statements of `mark_values` as the
  table `MarkOrder`, with what it covers and what it omits.
- `Realm` (`realm.dfy`):
  - the `Intrinsics` class and its constructor;
  - the accessors as `Resolve`, and the three `intrinsic_*_index_to_*`
    helpers;
  - `get_intrinsic_default_proto`;
  - `mark_values` as a loop that pushes onto the work queue;
  - `sweep_values` as written, and a corrected sweep;
  - disjointness of realms that share one heap.

## Model

All source paths are relative to the repository root.

| member | source | states |
|---|---|---|
| Ordinals.ObjectOrdinalRoundTrip | nova_vm/src/ecmascript/execution/realm/intrinsics.rs:136-141 | decoding the ordinal of an `IntrinsicObjectIndexes` variant gives back that variant |
| Ordinals.ObjectOrdinalDense | nova_vm/src/ecmascript/execution/realm/intrinsics.rs:136-141 | every ordinal below the count decodes to a variant whose ordinal is that same number, so the ordinals fill the family without gaps |
| Ordinals.ObjectOrdinalInjective | nova_vm/src/ecmascript/execution/realm/intrinsics.rs:136-141 | distinct object intrinsics have distinct ordinals |
| Ordinals.ConstructorOrdinalRoundTrip | nova_vm/src/ecmascript/execution/realm/intrinsics.rs:136-141 | the constructor ordinal decodes back to its variant |
| Ordinals.ConstructorOrdinalDense | nova_vm/src/ecmascript/execution/realm/intrinsics.rs:136-141 | constructor ordinals are dense below their count |
| Ordinals.ConstructorOrdinalInjective | nova_vm/src/ecmascript/execution/realm/intrinsics.rs:136-141 | distinct constructors have distinct ordinals |
| Ordinals.FunctionOrdinalRoundTrip | nova_vm/src/ecmascript/execution/realm/intrinsics.rs:136-141 | the plain-function ordinal decodes back to its variant |
| Ordinals.FunctionOrdinalDense | nova_vm/src/ecmascript/execution/realm/intrinsics.rs:136-141 | plain-function ordinals are dense below their count |
| Ordinals.FunctionOrdinalInjective | nova_vm/src/ecmascript/execution/realm/intrinsics.rs:136-141 | distinct plain functions have distinct ordinals |
| Ordinals.PrimitiveObjectOrdinalRoundTrip | nova_vm/src/ecmascript/execution/realm/intrinsics.rs:136-141 | the primitive-object ordinal decodes back to its variant |
| Ordinals.PrimitiveObjectOrdinalDense | nova_vm/src/ecmascript/execution/realm/intrinsics.rs:136-141 | primitive-object ordinals are dense below their count |
| Ordinals.PrimitiveObjectOrdinalInjective | nova_vm/src/ecmascript/execution/realm/intrinsics.rs:136-141 | distinct primitive objects have distinct ordinals |
| Ordinals.ObjectIndexOf | nova_vm/src/ecmascript/execution/realm/intrinsics.rs:389-394 | `get_object_index` of an object intrinsic lands in the first sub-range of the realm's object block |
| Ordinals.ConstructorObjectIndex | nova_vm/src/ecmascript/execution/realm/intrinsics.rs:403-405 | a constructor's property-bag object lands in the second sub-range of the object block |
| Ordinals.PrimitiveBaseObjectIndex | nova_vm/src/ecmascript/execution/realm/intrinsics.rs:608-610 | a primitive-wrapper prototype's property-bag object lands in the last sub-range, which ends at the reserved count |
| Ordinals.ConstructorFunctionIndex | nova_vm/src/ecmascript/execution/realm/intrinsics.rs:396-401 | a constructor's builtin function lands in the first sub-range of the function block |
| Ordinals.FunctionIndexOf | nova_vm/src/ecmascript/execution/realm/intrinsics.rs:407-412 | a plain builtin function lands after the constructors and inside the reserved count |
| Ordinals.PrimitiveObjectIndexOf | nova_vm/src/ecmascript/execution/realm/intrinsics.rs:601-606 | a primitive object lands inside the realm's primitive-object block |
| Slabs.Nones | nova_vm/src/ecmascript/execution/realm/intrinsics.rs:211-214 | `(0..n).map(\|_\| None)` yields exactly `n` empty slots |
| Slabs.Reserve | nova_vm/src/ecmascript/execution/realm/intrinsics.rs:211-222 | extending a slab keeps every existing slot and appends exactly `n` empty ones |
| Slabs.WorkQueues.Push | nova_vm/src/ecmascript/execution/realm/intrinsics.rs:1470 | enqueuing a handle appends it to the pending work |
| Slabs.ReclaimedBefore | nova_vm/src/ecmascript/execution/realm/intrinsics.rs:1605-1607 | the number of reclaimed slots below an index never exceeds the index |
| Slabs.ShiftIndex | nova_vm/src/ecmascript/execution/realm/intrinsics.rs:1605-1607 | `shift_index` never moves a slot upwards |
| Slabs.ShiftHandle | nova_vm/src/ecmascript/execution/realm/intrinsics.rs:1608 | sweeping a handle keeps its slab and never raises its index |
| Slabs.ShiftContiguous | nova_vm/src/ecmascript/execution/realm/intrinsics.rs:1602-1609 | a run of live slots moves down as one block, keeping every offset from its start |
| Slabs.ShiftBelowReclaimed | nova_vm/src/ecmascript/execution/realm/intrinsics.rs:1602-1609 | a reclaimed slot below an index always moves that index down |
| Slabs.ShiftIdentityBelow | nova_vm/src/ecmascript/execution/realm/intrinsics.rs:1602-1609 | with nothing reclaimed below it, an index stays put |
| Slabs.ShiftStrictlyMonotone | nova_vm/src/ecmascript/execution/realm/intrinsics.rs:1602-1609 | live slots keep their order and stay distinct after compaction |
| Accessors.SameSlotIff | nova_vm/src/ecmascript/execution/realm/intrinsics.rs:501-533 | two accessors read the same slot exactly when they are the same accessor or one of the two documented alias pairs (this row also covers lines 824-856) |
| DefaultProto.ProtoAccessor | nova_vm/src/ecmascript/execution/realm/intrinsics.rs:313-362 | every tag maps to a non-property-bag accessor; `Array` exactly to the array-slab prototype, `Function` exactly to a builtin function, `Boolean`/`Number`/`String` exactly to primitive objects, every other tag to an ordinary object |
| DefaultProto.ProtoAccessorRoundTrip | nova_vm/src/ecmascript/execution/realm/intrinsics.rs:318-360 | the prototype chosen for each tag is the one named after that tag, except that `BigUint64Array` gets `BigInt64Array`'s |
| DefaultProto.ProtoAccessorIff | nova_vm/src/ecmascript/execution/realm/intrinsics.rs:313-362 | two tags get the same accessor exactly when they are equal or are the pair `BigInt64Array`/`BigUint64Array` |
| DefaultProto.BigUint64ArrayQuirk | nova_vm/src/ecmascript/execution/realm/intrinsics.rs:340-341 | as written, `BigUint64Array` and `BigInt64Array` get the same prototype, which is not `%BigUint64Array.prototype%` |
| DefaultProto.SpecProtoAccessor | nova_vm/src/ecmascript/execution/realm/intrinsics.rs:341 | the corrected mapping agrees with the source on every tag but `BigUint64Array` and stays off the property-bag slots |
| DefaultProto.SpecProtoAccessorInjective | nova_vm/src/ecmascript/execution/realm/intrinsics.rs:313-362 | under the corrected mapping, distinct tags get distinct accessors |
| Marking.ObjectSlotMarked | nova_vm/src/ecmascript/execution/realm/intrinsics.rs:1469-1600 | every object intrinsic except the property bag of `%Array.prototype%` is among the marked accessors |
| Marking.ConstructorFunctionSlotMarked | nova_vm/src/ecmascript/execution/realm/intrinsics.rs:1469-1600 | the function of every constructor is marked |
| Marking.FunctionSlotMarked | nova_vm/src/ecmascript/execution/realm/intrinsics.rs:1469-1600 | every plain builtin function is marked |
| Marking.PrimitiveObjectSlotMarked | nova_vm/src/ecmascript/execution/realm/intrinsics.rs:1469-1600 | every primitive-wrapper prototype is marked |
| Marking.MarkOrderCovers | nova_vm/src/ecmascript/execution/realm/intrinsics.rs:1469-1600 | the slot of every accessor other than the `*_base_object` ones is marked |
| Marking.MarkOrderSkipsBaseObjects | nova_vm/src/ecmascript/execution/realm/intrinsics.rs:1469-1600 | no statement of `mark_values` names an alias or a `*_base_object` accessor |
| Marking.MarkOrderNoOtherRepeats | nova_vm/src/ecmascript/execution/realm/intrinsics.rs:1470-1599 | two statements of `mark_values` enqueue the same accessor only for the position pairs 104/106 and 107/109 (lines 1577/1579 and 1580/1582); every other statement names a different intrinsic |
| Marking.MarkOrderRepeats | nova_vm/src/ecmascript/execution/realm/intrinsics.rs:1577-1582 | there are 127 statements; `%TypedArray.prototype%` is enqueued by exactly the statements at positions 104 and 106 (lines 1577 and 1579), `%TypeError.prototype%` by exactly those at 107 and 109 (lines 1580 and 1582), and no other statement repeats an earlier one |
| Realm.SlotHandle | nova_vm/src/ecmascript/execution/realm/intrinsics.rs:389-1465 | every slot's handle lies inside the realm's reserved block of the right slab, and the slab is fixed by the slot's family |
| Realm.SlotHandleInjective | nova_vm/src/ecmascript/execution/realm/intrinsics.rs:389-1465 | distinct slots of one realm have distinct handles |
| Realm.DualNatureAligned | nova_vm/src/ecmascript/execution/realm/intrinsics.rs:396-405 | a constructor's function and its property-bag object, and a primitive-wrapper prototype and its property-bag object, share one ordinal in their sub-ranges |
| Realm.RealmsDisjoint | nova_vm/src/ecmascript/execution/realm/intrinsics.rs:204-233 | realms whose blocks follow one another never share a handle |
| Realm.Intrinsics.Resolve | nova_vm/src/ecmascript/execution/realm/intrinsics.rs:389-1465 | every accessor result lies in the realm's reserved range; `*_base_object` accessors and the two aliases return ordinary objects |
| Realm.ResolveIff | nova_vm/src/ecmascript/execution/realm/intrinsics.rs:389-1465 | two accessors of one realm return the same handle exactly when they are equal or an alias pair |
| Realm.Intrinsics.constructor | nova_vm/src/ecmascript/execution/realm/intrinsics.rs:204-233 | the bases are the old slab lengths; each slab grows by its family's count of empty slots (the array slab by one), nothing else in it changes, and every accessor then resolves to one of those empty slots |
| Realm.TwoRealmsAreDisjoint | nova_vm/src/ecmascript/execution/realm/intrinsics.rs:204-233 | two realms created one after the other on one heap share no handle |
| Realm.Intrinsics.IntrinsicFunctionIndexToBuiltinFunction | nova_vm/src/ecmascript/execution/realm/intrinsics.rs:364-371 | the helper returns the same handle as the accessor of that plain function |
| Realm.Intrinsics.IntrinsicConstructorIndexToBuiltinFunction | nova_vm/src/ecmascript/execution/realm/intrinsics.rs:373-380 | the helper returns the same handle as the constructor's accessor |
| Realm.Intrinsics.IntrinsicConstructorIndexToObjectIndex | nova_vm/src/ecmascript/execution/realm/intrinsics.rs:382-387 | the helper returns the same handle as the constructor's `*_base_object` accessor |
| Realm.Intrinsics.GetIntrinsicDefaultProto | nova_vm/src/ecmascript/execution/realm/intrinsics.rs:313-362 | the default prototype lies in the realm's block; it is the stored array prototype exactly for `Array`, a builtin function exactly for `Function`, a primitive object exactly for `Boolean`/`Number`/`String`, and an ordinary object otherwise |
| Realm.DefaultProtoIff | nova_vm/src/ecmascript/execution/realm/intrinsics.rs:313-362 | two tags get the same default prototype exactly when they are equal or are `BigInt64Array`/`BigUint64Array` |
| Realm.Intrinsics.GetIntrinsicDefaultProtoPerSpec | nova_vm/src/ecmascript/execution/realm/intrinsics.rs:341 | the corrected default prototype differs from the source only for `BigUint64Array`, which gets `%BigUint64Array.prototype%` |
| Realm.DefaultProtoPerSpecInjective | nova_vm/src/ecmascript/execution/realm/intrinsics.rs:313-362 | with the correction, distinct tags get distinct default prototypes |
| Realm.Intrinsics.MarkedHandles | nova_vm/src/ecmascript/execution/realm/intrinsics.rs:1469-1600 | the handles enqueued are, position by position, the results of the listed accessors |
| Realm.Intrinsics.MarkValues | nova_vm/src/ecmascript/execution/realm/intrinsics.rs:1469-1600 | `mark_values` appends the handles of the statement list, in order, to the queue's existing work |
| Realm.MarkValuesCoverage | nova_vm/src/ecmascript/execution/realm/intrinsics.rs:1469-1600 | a handle is enqueued exactly when some accessor other than a `*_base_object` one returns it |
| Realm.BaseObjectsNotMarked | nova_vm/src/ecmascript/execution/realm/intrinsics.rs:1469-1600 | the property-bag objects returned by the `*_base_object` accessors are not enqueued directly |
| Realm.SweptBases | nova_vm/src/ecmascript/execution/realm/intrinsics.rs:1602-1609 | as written, the object and builtin-function bases keep their values and the other two never increase |
| Realm.Intrinsics.SweepValues | nova_vm/src/ecmascript/execution/realm/intrinsics.rs:1602-1609 | the stored bases become `SweptBases` of the old ones |
| Realm.SweptBasesShifted | nova_vm/src/ecmascript/execution/realm/intrinsics.rs:1602-1609 | the corrected sweep shifts all four stored values, and none of them increases |
| Realm.BlockShift | nova_vm/src/ecmascript/execution/realm/intrinsics.rs:1602-1609 | a reserved block with no reclaimed slot keeps every ordinal's offset from its base |
| Realm.SweptShiftedTracksObjects | nova_vm/src/ecmascript/execution/realm/intrinsics.rs:1603 | after the corrected sweep, every object-slab intrinsic resolves to where compaction moved it |
| Realm.SweptShiftedTracksFunctions | nova_vm/src/ecmascript/execution/realm/intrinsics.rs:1604 | after the corrected sweep, every builtin function resolves to where compaction moved it |
| Realm.SweptShiftedTracksIntrinsics | nova_vm/src/ecmascript/execution/realm/intrinsics.rs:1602-1609 | when none of the realm's slots is reclaimed, the corrected sweep relocates every intrinsic handle exactly as compaction does |
| Realm.Intrinsics.SweepValuesShifted | nova_vm/src/ecmascript/execution/realm/intrinsics.rs:1602-1609 | the stored bases become the shifted ones, and every accessor then returns the swept version of its old handle |
| Realm.SweptBasesCorrectIff | nova_vm/src/ecmascript/execution/realm/intrinsics.rs:1602-1604 | the sweep as written agrees with the corrected one exactly when nothing is reclaimed below the object base or the builtin-function base |
| Realm.SweptBasesLeavesStaleHandle | nova_vm/src/ecmascript/execution/realm/intrinsics.rs:1603 | a concrete realm whose object base is 1, with object slot 0 reclaimed: as written, `%AggregateError.prototype%` still resolves to slot 1, but compaction moved it to slot 0 |

## Left out

- `create_intrinsics` (lines 235-308) is left out. It calls each built-in's
  `create_intrinsic`, whose bodies live in other files that are not part of
  this model. The model only records that every reserved slot starts empty.
- The `Agent`, `RealmIdentifier` and `Object`/`OrdinaryObject`/`ObjectIndex`
  conversions (`.into()`) are left out. An ordinary object and an object
  index are both `ObjectHandle`.
- The one-based index niche of the handle types is left out. Handles carry
  zero-based indices.
- Index widths are left out. Bases, ordinals and slab indices are unbounded
  `nat`. The fixed width of the engine's index types is not modelled, and
  neither are the failure of `from_index` on a slab length past that width
  (in `Intrinsics::new`) or an overflow of `base + offset + ordinal` in an
  accessor.
- The internals of `WorkQueues` are left out. This includes the transitive
  marking through which the `*_base_object` property bags stay alive. The
  model records only the handles the registry enqueues.
- The `sweep_values` bodies of `OrdinaryObject`, `BuiltinFunction` and
  `Array` (`nova_vm/src/heap`) are not part of this model. Each is modelled
  as `shift_index` on the handle's slab, and a compaction list as the set of
  reclaimed slots.
- The variants and order of the four ordinal enumerations, and the
  sub-range layout of the object and builtin-function slabs, are
  reconstructed from the registry's accessors. `nova_vm/src/heap` is not
  part of this model.
- The 176 accessors are not 176 separate functions. Each is one value of
  `Accessor`, and `Realm.Intrinsics.Resolve` computes them all. The
  accessor-to-slot correspondence is given at the top of this file.
- The 127 straight-line statements of `mark_values` are the table
  `MarkOrder`, walked by a loop.
- `ProtoIntrinsics` has no `Uint8ClampedArray` tag. That follows the
  source, where the enum has none either.
- The heap data of an intrinsic is left out. Only whether a slot is
  empty is modelled.

## Findings

| source | as written | input that shows it | evidently intended | confidence | as-written member | corrected member |
|---|---|---|---|---|---|---|
| nova_vm/src/ecmascript/execution/realm/intrinsics.rs:1602-1604 | `sweep_values` wraps the object base and the builtin-function base in temporary handles and sweeps those temporaries, so the stored bases never change | a realm whose object base is 1, swept when object slot 0 is reclaimed | all four stored bases are shifted by the number of reclaimed slots below them, so every accessor follows its intrinsic after compaction | not executed | Realm.SweptBasesLeavesStaleHandle | Realm.Intrinsics.SweepValuesShifted |
| nova_vm/src/ecmascript/execution/realm/intrinsics.rs:341 | `ProtoIntrinsics::BigUint64Array` maps to `big_int64_array_prototype` | `ProtoIntrinsics::BigUint64Array` | `%BigUint64Array.prototype%`, as ECMA-262 section 23.2.5.1 gives each typed array constructor its own prototype | not executed | DefaultProto.BigUint64ArrayQuirk | Realm.DefaultProtoPerSpecInjective |
