/**
 * `get_intrinsic_default_proto`: which intrinsic prototype an object of each
 * kind is created with.
 */
module DefaultProto {
  import opened Ordinals
  import opened Slabs
  import opened Accessors

  /** `ProtoIntrinsics`: the intrinsic prototypes an object can be created with. */
  datatype ProtoIntrinsics =
    | AggregateError
    | Array
    | ArrayBuffer
    | AsyncFunction
    | AsyncGeneratorFunction
    | BigInt
    | BigInt64Array
    | BigUint64Array
    | Boolean
    | DataView
    | Date
    | Error
    | EvalError
    | FinalizationRegistry
    | Float32Array
    | Float64Array
    | Function
    | GeneratorFunction
    | Int16Array
    | Int32Array
    | Int8Array
    | Map
    | Number
    | Object
    | Promise
    | RangeError
    | ReferenceError
    | RegExp
    | Set
    | SharedArrayBuffer
    | String
    | Symbol
    | SyntaxError
    | TypeError
    | Uint16Array
    | Uint32Array
    | Uint8Array
    | UriError
    | WeakMap
    | WeakRef
    | WeakSet

  /**
   * The accessor `get_intrinsic_default_proto` calls for each tag, as
   * written: `BigUint64Array` reads `%BigInt64Array.prototype%`.
   */
  function ProtoAccessor(t: ProtoIntrinsics): (a: Accessor)
    ensures a.Slot? && !IsBaseObjectSlot(a.slot)
    ensures a.slot.ArrayPrototypeSlot? <==> t.Array?
    ensures a.slot.ConstructorFunctionSlot? <==> t.Function?
    ensures a.slot.PrimitiveObjectSlot? <==> t.Boolean? || t.Number? || t.String?
    ensures a.slot.ObjectSlot? <==> !(t.Array? || t.Function? || t.Boolean? || t.Number? || t.String?)
  {
    match t
    case Array => Slot(ArrayPrototypeSlot)
    case ArrayBuffer => Slot(ObjectSlot(IntrinsicObjectIndexes.ArrayBufferPrototype))
    case BigInt => Slot(ObjectSlot(IntrinsicObjectIndexes.BigIntPrototype))
    case Boolean => Slot(PrimitiveObjectSlot(IntrinsicPrimitiveObjectIndexes.BooleanPrototype))
    case Error => Slot(ObjectSlot(IntrinsicObjectIndexes.ErrorPrototype))
    case Date => Slot(ObjectSlot(IntrinsicObjectIndexes.DatePrototype))
    case EvalError => Slot(ObjectSlot(IntrinsicObjectIndexes.EvalErrorPrototype))
    case Function => Slot(ConstructorFunctionSlot(IntrinsicConstructorIndexes.FunctionPrototype))
    case Number => Slot(PrimitiveObjectSlot(IntrinsicPrimitiveObjectIndexes.NumberPrototype))
    case Object => Slot(ObjectSlot(IntrinsicObjectIndexes.ObjectPrototype))
    case RangeError => Slot(ObjectSlot(IntrinsicObjectIndexes.RangeErrorPrototype))
    case ReferenceError => Slot(ObjectSlot(IntrinsicObjectIndexes.ReferenceErrorPrototype))
    case String => Slot(PrimitiveObjectSlot(IntrinsicPrimitiveObjectIndexes.StringPrototype))
    case Symbol => Slot(ObjectSlot(IntrinsicObjectIndexes.SymbolPrototype))
    case SyntaxError => Slot(ObjectSlot(IntrinsicObjectIndexes.SyntaxErrorPrototype))
    case TypeError => Slot(ObjectSlot(IntrinsicObjectIndexes.TypeErrorPrototype))
    case UriError => Slot(ObjectSlot(IntrinsicObjectIndexes.URIErrorPrototype))
    case AggregateError => Slot(ObjectSlot(IntrinsicObjectIndexes.AggregateErrorPrototype))
    case AsyncFunction => Slot(ObjectSlot(IntrinsicObjectIndexes.AsyncFunctionPrototype))
    case AsyncGeneratorFunction => Slot(ObjectSlot(IntrinsicObjectIndexes.AsyncGeneratorFunctionPrototype))
    case BigInt64Array => Slot(ObjectSlot(IntrinsicObjectIndexes.BigInt64ArrayPrototype))
    case BigUint64Array => Slot(ObjectSlot(IntrinsicObjectIndexes.BigInt64ArrayPrototype))
    case DataView => Slot(ObjectSlot(IntrinsicObjectIndexes.DataViewPrototype))
    case FinalizationRegistry => Slot(ObjectSlot(IntrinsicObjectIndexes.FinalizationRegistryPrototype))
    case Float32Array => Slot(ObjectSlot(IntrinsicObjectIndexes.Float32ArrayPrototype))
    case Float64Array => Slot(ObjectSlot(IntrinsicObjectIndexes.Float64ArrayPrototype))
    case GeneratorFunction => Slot(ObjectSlot(IntrinsicObjectIndexes.GeneratorFunctionPrototype))
    case Int16Array => Slot(ObjectSlot(IntrinsicObjectIndexes.Int16ArrayPrototype))
    case Int32Array => Slot(ObjectSlot(IntrinsicObjectIndexes.Int32ArrayPrototype))
    case Int8Array => Slot(ObjectSlot(IntrinsicObjectIndexes.Int8ArrayPrototype))
    case Map => Slot(ObjectSlot(IntrinsicObjectIndexes.MapPrototype))
    case Promise => Slot(ObjectSlot(IntrinsicObjectIndexes.PromisePrototype))
    case RegExp => Slot(ObjectSlot(IntrinsicObjectIndexes.RegExpPrototype))
    case Set => Slot(ObjectSlot(IntrinsicObjectIndexes.SetPrototype))
    case SharedArrayBuffer => Slot(ObjectSlot(IntrinsicObjectIndexes.SharedArrayBufferPrototype))
    case Uint16Array => Slot(ObjectSlot(IntrinsicObjectIndexes.Uint16ArrayPrototype))
    case Uint32Array => Slot(ObjectSlot(IntrinsicObjectIndexes.Uint32ArrayPrototype))
    case Uint8Array => Slot(ObjectSlot(IntrinsicObjectIndexes.Uint8ArrayPrototype))
    case WeakMap => Slot(ObjectSlot(IntrinsicObjectIndexes.WeakMapPrototype))
    case WeakRef => Slot(ObjectSlot(IntrinsicObjectIndexes.WeakRefPrototype))
    case WeakSet => Slot(ObjectSlot(IntrinsicObjectIndexes.WeakSetPrototype))
  }

  /**
   * The accessor the default prototype of each tag is meant to come from:
   * every tag its own constructor's prototype, so that `BigUint64Array`
   * reads `%BigUint64Array.prototype%` (ECMA-262, section 23.2.5.1: a typed
   * array's default prototype is that of its own constructor).
   */
  function SpecProtoAccessor(t: ProtoIntrinsics): (a: Accessor)
    ensures a.Slot? && !IsBaseObjectSlot(a.slot)
    ensures t != ProtoIntrinsics.BigUint64Array ==> a == ProtoAccessor(t)
  {
    if t == ProtoIntrinsics.BigUint64Array then Slot(ObjectSlot(IntrinsicObjectIndexes.BigUint64ArrayPrototype))
    else ProtoAccessor(t)
  }

  /** The tag whose own prototype an ordinary-object intrinsic is, if there is one. */
  function ObjectProtoTag(o: IntrinsicObjectIndexes): Option<ProtoIntrinsics>
  {
    match o
    case AggregateErrorPrototype => Some(ProtoIntrinsics.AggregateError)
    case ArrayPrototype => None
    case ArrayBufferPrototype => Some(ProtoIntrinsics.ArrayBuffer)
    case ArrayIteratorPrototype => None
    case AsyncFromSyncIteratorPrototype => None
    case AsyncFunctionPrototype => Some(ProtoIntrinsics.AsyncFunction)
    case AsyncGeneratorPrototype => None
    case AsyncGeneratorFunctionPrototype => Some(ProtoIntrinsics.AsyncGeneratorFunction)
    case AsyncIteratorPrototype => None
    case AtomicsObject => None
    case BigIntPrototype => Some(ProtoIntrinsics.BigInt)
    case BigInt64ArrayPrototype => Some(ProtoIntrinsics.BigInt64Array)
    case BigUint64ArrayPrototype => Some(ProtoIntrinsics.BigUint64Array)
    case DataViewPrototype => Some(ProtoIntrinsics.DataView)
    case DatePrototype => Some(ProtoIntrinsics.Date)
    case ErrorPrototype => Some(ProtoIntrinsics.Error)
    case EvalErrorPrototype => Some(ProtoIntrinsics.EvalError)
    case FinalizationRegistryPrototype => Some(ProtoIntrinsics.FinalizationRegistry)
    case Float32ArrayPrototype => Some(ProtoIntrinsics.Float32Array)
    case Float64ArrayPrototype => Some(ProtoIntrinsics.Float64Array)
    case GeneratorPrototype => None
    case GeneratorFunctionPrototype => Some(ProtoIntrinsics.GeneratorFunction)
    case Int16ArrayPrototype => Some(ProtoIntrinsics.Int16Array)
    case Int32ArrayPrototype => Some(ProtoIntrinsics.Int32Array)
    case Int8ArrayPrototype => Some(ProtoIntrinsics.Int8Array)
    case IteratorPrototype => None
    case JSONObject => None
    case MapPrototype => Some(ProtoIntrinsics.Map)
    case MapIteratorPrototype => None
    case MathObject => None
    case ObjectPrototype => Some(ProtoIntrinsics.Object)
    case PromisePrototype => Some(ProtoIntrinsics.Promise)
    case RangeErrorPrototype => Some(ProtoIntrinsics.RangeError)
    case ReferenceErrorPrototype => Some(ProtoIntrinsics.ReferenceError)
    case ReflectObject => None
    case RegExpPrototype => Some(ProtoIntrinsics.RegExp)
    case RegExpStringIteratorPrototype => None
    case SetPrototype => Some(ProtoIntrinsics.Set)
    case SetIteratorPrototype => None
    case SharedArrayBufferPrototype => Some(ProtoIntrinsics.SharedArrayBuffer)
    case StringIteratorPrototype => None
    case SymbolPrototype => Some(ProtoIntrinsics.Symbol)
    case SyntaxErrorPrototype => Some(ProtoIntrinsics.SyntaxError)
    case TypedArrayPrototype => None
    case TypeErrorPrototype => Some(ProtoIntrinsics.TypeError)
    case Uint16ArrayPrototype => Some(ProtoIntrinsics.Uint16Array)
    case Uint32ArrayPrototype => Some(ProtoIntrinsics.Uint32Array)
    case Uint8ArrayPrototype => Some(ProtoIntrinsics.Uint8Array)
    case Uint8ClampedArrayPrototype => None
    case URIErrorPrototype => Some(ProtoIntrinsics.UriError)
    case WeakMapPrototype => Some(ProtoIntrinsics.WeakMap)
    case WeakRefPrototype => Some(ProtoIntrinsics.WeakRef)
    case WeakSetPrototype => Some(ProtoIntrinsics.WeakSet)
  }

  /** The tag whose own prototype an accessor reads, if there is one. */
  function ProtoTagOf(a: Accessor): Option<ProtoIntrinsics>
  {
    match a
    case Slot(s) =>
      (match s
       case ObjectSlot(o) => ObjectProtoTag(o)
       case ConstructorFunctionSlot(c) => if c == IntrinsicConstructorIndexes.FunctionPrototype then Some(ProtoIntrinsics.Function) else None
       case PrimitiveObjectSlot(p) =>
         (match p
          case BooleanPrototype => Some(ProtoIntrinsics.Boolean)
          case NumberPrototype => Some(ProtoIntrinsics.Number)
          case StringPrototype => Some(ProtoIntrinsics.String))
       case ArrayPrototypeSlot => Some(ProtoIntrinsics.Array)
       case _ => None)
    case _ => None
  }

  lemma ProtoAccessorRoundTripPart0(t: ProtoIntrinsics)
    requires t.AggregateError? || t.Array? || t.ArrayBuffer? || t.AsyncFunction?
    ensures ProtoTagOf(ProtoAccessor(t)) == Some(if t == ProtoIntrinsics.BigUint64Array then ProtoIntrinsics.BigInt64Array else t)
  {
  }

  lemma ProtoAccessorRoundTripPart1(t: ProtoIntrinsics)
    requires t.AsyncGeneratorFunction? || t.BigInt? || t.BigInt64Array? || t.BigUint64Array?
    ensures ProtoTagOf(ProtoAccessor(t)) == Some(if t == ProtoIntrinsics.BigUint64Array then ProtoIntrinsics.BigInt64Array else t)
  {
  }

  lemma ProtoAccessorRoundTripPart2(t: ProtoIntrinsics)
    requires t.Boolean? || t.DataView? || t.Date? || t.Error?
    ensures ProtoTagOf(ProtoAccessor(t)) == Some(if t == ProtoIntrinsics.BigUint64Array then ProtoIntrinsics.BigInt64Array else t)
  {
  }

  lemma ProtoAccessorRoundTripPart3(t: ProtoIntrinsics)
    requires t.EvalError? || t.FinalizationRegistry? || t.Float32Array? || t.Float64Array?
    ensures ProtoTagOf(ProtoAccessor(t)) == Some(if t == ProtoIntrinsics.BigUint64Array then ProtoIntrinsics.BigInt64Array else t)
  {
  }

  lemma ProtoAccessorRoundTripPart4(t: ProtoIntrinsics)
    requires t.Function? || t.GeneratorFunction? || t.Int16Array? || t.Int32Array?
    ensures ProtoTagOf(ProtoAccessor(t)) == Some(if t == ProtoIntrinsics.BigUint64Array then ProtoIntrinsics.BigInt64Array else t)
  {
  }

  lemma ProtoAccessorRoundTripPart5(t: ProtoIntrinsics)
    requires t.Int8Array? || t.Map? || t.Number? || t.Object?
    ensures ProtoTagOf(ProtoAccessor(t)) == Some(if t == ProtoIntrinsics.BigUint64Array then ProtoIntrinsics.BigInt64Array else t)
  {
  }

  lemma ProtoAccessorRoundTripPart6(t: ProtoIntrinsics)
    requires t.Promise? || t.RangeError? || t.ReferenceError? || t.RegExp?
    ensures ProtoTagOf(ProtoAccessor(t)) == Some(if t == ProtoIntrinsics.BigUint64Array then ProtoIntrinsics.BigInt64Array else t)
  {
  }

  lemma ProtoAccessorRoundTripPart7(t: ProtoIntrinsics)
    requires t.Set? || t.SharedArrayBuffer? || t.String? || t.Symbol?
    ensures ProtoTagOf(ProtoAccessor(t)) == Some(if t == ProtoIntrinsics.BigUint64Array then ProtoIntrinsics.BigInt64Array else t)
  {
  }

  lemma ProtoAccessorRoundTripPart8(t: ProtoIntrinsics)
    requires t.SyntaxError? || t.TypeError? || t.Uint16Array? || t.Uint32Array?
    ensures ProtoTagOf(ProtoAccessor(t)) == Some(if t == ProtoIntrinsics.BigUint64Array then ProtoIntrinsics.BigInt64Array else t)
  {
  }

  lemma ProtoAccessorRoundTripPart9(t: ProtoIntrinsics)
    requires t.Uint8Array? || t.UriError? || t.WeakMap? || t.WeakRef?
    ensures ProtoTagOf(ProtoAccessor(t)) == Some(if t == ProtoIntrinsics.BigUint64Array then ProtoIntrinsics.BigInt64Array else t)
  {
  }

  lemma ProtoAccessorRoundTripPart10(t: ProtoIntrinsics)
    requires t.WeakSet?
    ensures ProtoTagOf(ProtoAccessor(t)) == Some(if t == ProtoIntrinsics.BigUint64Array then ProtoIntrinsics.BigInt64Array else t)
  {
  }

  /** Each tag's accessor is its own prototype's, except that `BigUint64Array` is sent to `BigInt64Array`'s. */
  lemma ProtoAccessorRoundTrip(t: ProtoIntrinsics)
    ensures ProtoTagOf(ProtoAccessor(t)) == Some(if t == ProtoIntrinsics.BigUint64Array then ProtoIntrinsics.BigInt64Array else t)
  {
    match t
    case AggregateError => ProtoAccessorRoundTripPart0(t);
    case Array => ProtoAccessorRoundTripPart0(t);
    case ArrayBuffer => ProtoAccessorRoundTripPart0(t);
    case AsyncFunction => ProtoAccessorRoundTripPart0(t);
    case AsyncGeneratorFunction => ProtoAccessorRoundTripPart1(t);
    case BigInt => ProtoAccessorRoundTripPart1(t);
    case BigInt64Array => ProtoAccessorRoundTripPart1(t);
    case BigUint64Array => ProtoAccessorRoundTripPart1(t);
    case Boolean => ProtoAccessorRoundTripPart2(t);
    case DataView => ProtoAccessorRoundTripPart2(t);
    case Date => ProtoAccessorRoundTripPart2(t);
    case Error => ProtoAccessorRoundTripPart2(t);
    case EvalError => ProtoAccessorRoundTripPart3(t);
    case FinalizationRegistry => ProtoAccessorRoundTripPart3(t);
    case Float32Array => ProtoAccessorRoundTripPart3(t);
    case Float64Array => ProtoAccessorRoundTripPart3(t);
    case Function => ProtoAccessorRoundTripPart4(t);
    case GeneratorFunction => ProtoAccessorRoundTripPart4(t);
    case Int16Array => ProtoAccessorRoundTripPart4(t);
    case Int32Array => ProtoAccessorRoundTripPart4(t);
    case Int8Array => ProtoAccessorRoundTripPart5(t);
    case Map => ProtoAccessorRoundTripPart5(t);
    case Number => ProtoAccessorRoundTripPart5(t);
    case Object => ProtoAccessorRoundTripPart5(t);
    case Promise => ProtoAccessorRoundTripPart6(t);
    case RangeError => ProtoAccessorRoundTripPart6(t);
    case ReferenceError => ProtoAccessorRoundTripPart6(t);
    case RegExp => ProtoAccessorRoundTripPart6(t);
    case Set => ProtoAccessorRoundTripPart7(t);
    case SharedArrayBuffer => ProtoAccessorRoundTripPart7(t);
    case String => ProtoAccessorRoundTripPart7(t);
    case Symbol => ProtoAccessorRoundTripPart7(t);
    case SyntaxError => ProtoAccessorRoundTripPart8(t);
    case TypeError => ProtoAccessorRoundTripPart8(t);
    case Uint16Array => ProtoAccessorRoundTripPart8(t);
    case Uint32Array => ProtoAccessorRoundTripPart8(t);
    case Uint8Array => ProtoAccessorRoundTripPart9(t);
    case UriError => ProtoAccessorRoundTripPart9(t);
    case WeakMap => ProtoAccessorRoundTripPart9(t);
    case WeakRef => ProtoAccessorRoundTripPart9(t);
    case WeakSet => ProtoAccessorRoundTripPart10(t);
  }

  /**
   * Two tags share a default prototype exactly when they are the same tag
   * or the pair `BigInt64Array`, `BigUint64Array`.
   */
  lemma ProtoAccessorIff(t: ProtoIntrinsics, u: ProtoIntrinsics)
    ensures ProtoAccessor(t) == ProtoAccessor(u) <==>
      t == u || {t, u} == {ProtoIntrinsics.BigInt64Array, ProtoIntrinsics.BigUint64Array}
  {
    ProtoAccessorRoundTrip(t);
    ProtoAccessorRoundTrip(u);
    if {t, u} == {ProtoIntrinsics.BigInt64Array, ProtoIntrinsics.BigUint64Array} {
      assert t == ProtoIntrinsics.BigInt64Array || t == ProtoIntrinsics.BigUint64Array;
    }
  }

  /** `BigUint64Array` objects are, as written, created with `%BigInt64Array.prototype%`. */
  lemma BigUint64ArrayQuirk()
    ensures ProtoAccessor(ProtoIntrinsics.BigUint64Array) == ProtoAccessor(ProtoIntrinsics.BigInt64Array)
    ensures ProtoAccessor(ProtoIntrinsics.BigUint64Array) != Slot(ObjectSlot(IntrinsicObjectIndexes.BigUint64ArrayPrototype))
    ensures ProtoAccessor(ProtoIntrinsics.BigUint64Array) != SpecProtoAccessor(ProtoIntrinsics.BigUint64Array)
  {
  }

  /** With the intended mapping every tag has a default prototype of its own. */
  lemma SpecProtoAccessorInjective(t: ProtoIntrinsics, u: ProtoIntrinsics)
    ensures SpecProtoAccessor(t) == SpecProtoAccessor(u) <==> t == u
  {
    ProtoAccessorRoundTrip(t);
    ProtoAccessorRoundTrip(u);
    assert ProtoTagOf(SpecProtoAccessor(t)) == Some(t);
    assert ProtoTagOf(SpecProtoAccessor(u)) == Some(u);
  }

}
