/**
 * Ordinal enumeration tables of the engine's heap module.
 *
 * Every well-known intrinsic owns a fixed, dense, zero-based ordinal inside
 * the enumeration of its storage family.  A realm addresses an intrinsic as
 * `base + offset + ordinal`, so these tables replace any lookup structure.
 * The variants listed are exactly the ones the intrinsics registry names.
 *
 * Family layout (the `get_*_index` helpers of each enumeration):
 *  - object slab: the `IntrinsicObjectIndexes` objects, then one property-bag
 *    object per constructor, then one per primitive-wrapper prototype;
 *  - builtin-function slab: the constructors, then the plain functions;
 *  - primitive-object slab: the primitive-wrapper prototypes.
 */
module Ordinals {

  // ---------------------------------------------------------------------------
  // `IntrinsicObjectIndexes`

  /** `IntrinsicObjectIndexes`: the intrinsics stored only as ordinary objects. */
  datatype IntrinsicObjectIndexes =
    | AggregateErrorPrototype
    | ArrayPrototype
    | ArrayBufferPrototype
    | ArrayIteratorPrototype
    | AsyncFromSyncIteratorPrototype
    | AsyncFunctionPrototype
    | AsyncGeneratorPrototype
    | AsyncGeneratorFunctionPrototype
    | AsyncIteratorPrototype
    | AtomicsObject
    | BigIntPrototype
    | BigInt64ArrayPrototype
    | BigUint64ArrayPrototype
    | DataViewPrototype
    | DatePrototype
    | ErrorPrototype
    | EvalErrorPrototype
    | FinalizationRegistryPrototype
    | Float32ArrayPrototype
    | Float64ArrayPrototype
    | GeneratorPrototype
    | GeneratorFunctionPrototype
    | Int16ArrayPrototype
    | Int32ArrayPrototype
    | Int8ArrayPrototype
    | IteratorPrototype
    | JSONObject
    | MapPrototype
    | MapIteratorPrototype
    | MathObject
    | ObjectPrototype
    | PromisePrototype
    | RangeErrorPrototype
    | ReferenceErrorPrototype
    | ReflectObject
    | RegExpPrototype
    | RegExpStringIteratorPrototype
    | SetPrototype
    | SetIteratorPrototype
    | SharedArrayBufferPrototype
    | StringIteratorPrototype
    | SymbolPrototype
    | SyntaxErrorPrototype
    | TypedArrayPrototype
    | TypeErrorPrototype
    | Uint16ArrayPrototype
    | Uint32ArrayPrototype
    | Uint8ArrayPrototype
    | Uint8ClampedArrayPrototype
    | URIErrorPrototype
    | WeakMapPrototype
    | WeakRefPrototype
    | WeakSetPrototype

  /** Number of `IntrinsicObjectIndexes` variants. */
  const IntrinsicObjectIndexesCount: nat := 53

  /** The dense ordinal of a variant (its discriminant): a fixed position below the variant count. */
  function ObjectOrdinal(v: IntrinsicObjectIndexes): (k: nat)
    ensures k < IntrinsicObjectIndexesCount
  {
    match v
    case AggregateErrorPrototype => 0
    case ArrayPrototype => 1
    case ArrayBufferPrototype => 2
    case ArrayIteratorPrototype => 3
    case AsyncFromSyncIteratorPrototype => 4
    case AsyncFunctionPrototype => 5
    case AsyncGeneratorPrototype => 6
    case AsyncGeneratorFunctionPrototype => 7
    case AsyncIteratorPrototype => 8
    case AtomicsObject => 9
    case BigIntPrototype => 10
    case BigInt64ArrayPrototype => 11
    case BigUint64ArrayPrototype => 12
    case DataViewPrototype => 13
    case DatePrototype => 14
    case ErrorPrototype => 15
    case EvalErrorPrototype => 16
    case FinalizationRegistryPrototype => 17
    case Float32ArrayPrototype => 18
    case Float64ArrayPrototype => 19
    case GeneratorPrototype => 20
    case GeneratorFunctionPrototype => 21
    case Int16ArrayPrototype => 22
    case Int32ArrayPrototype => 23
    case Int8ArrayPrototype => 24
    case IteratorPrototype => 25
    case JSONObject => 26
    case MapPrototype => 27
    case MapIteratorPrototype => 28
    case MathObject => 29
    case ObjectPrototype => 30
    case PromisePrototype => 31
    case RangeErrorPrototype => 32
    case ReferenceErrorPrototype => 33
    case ReflectObject => 34
    case RegExpPrototype => 35
    case RegExpStringIteratorPrototype => 36
    case SetPrototype => 37
    case SetIteratorPrototype => 38
    case SharedArrayBufferPrototype => 39
    case StringIteratorPrototype => 40
    case SymbolPrototype => 41
    case SyntaxErrorPrototype => 42
    case TypedArrayPrototype => 43
    case TypeErrorPrototype => 44
    case Uint16ArrayPrototype => 45
    case Uint32ArrayPrototype => 46
    case Uint8ArrayPrototype => 47
    case Uint8ClampedArrayPrototype => 48
    case URIErrorPrototype => 49
    case WeakMapPrototype => 50
    case WeakRefPrototype => 51
    case WeakSetPrototype => 52
  }

  /** The variant whose ordinal is `k` (decoded by bisection). */
  function ObjectFromOrdinal(k: nat): IntrinsicObjectIndexes
    requires k < IntrinsicObjectIndexesCount
  {
    if k < 26 then
      if k < 13 then
        if k < 6 then
          if k < 3 then
            if k < 1 then
              AggregateErrorPrototype
            else
              if k < 2 then
                ArrayPrototype
              else
                ArrayBufferPrototype
          else
            if k < 4 then
              ArrayIteratorPrototype
            else
              if k < 5 then
                AsyncFromSyncIteratorPrototype
              else
                AsyncFunctionPrototype
        else
          if k < 9 then
            if k < 7 then
              AsyncGeneratorPrototype
            else
              if k < 8 then
                AsyncGeneratorFunctionPrototype
              else
                AsyncIteratorPrototype
          else
            if k < 11 then
              if k < 10 then
                AtomicsObject
              else
                BigIntPrototype
            else
              if k < 12 then
                BigInt64ArrayPrototype
              else
                BigUint64ArrayPrototype
      else
        if k < 19 then
          if k < 16 then
            if k < 14 then
              DataViewPrototype
            else
              if k < 15 then
                DatePrototype
              else
                ErrorPrototype
          else
            if k < 17 then
              EvalErrorPrototype
            else
              if k < 18 then
                FinalizationRegistryPrototype
              else
                Float32ArrayPrototype
        else
          if k < 22 then
            if k < 20 then
              Float64ArrayPrototype
            else
              if k < 21 then
                GeneratorPrototype
              else
                GeneratorFunctionPrototype
          else
            if k < 24 then
              if k < 23 then
                Int16ArrayPrototype
              else
                Int32ArrayPrototype
            else
              if k < 25 then
                Int8ArrayPrototype
              else
                IteratorPrototype
    else
      if k < 39 then
        if k < 32 then
          if k < 29 then
            if k < 27 then
              JSONObject
            else
              if k < 28 then
                MapPrototype
              else
                MapIteratorPrototype
          else
            if k < 30 then
              MathObject
            else
              if k < 31 then
                ObjectPrototype
              else
                PromisePrototype
        else
          if k < 35 then
            if k < 33 then
              RangeErrorPrototype
            else
              if k < 34 then
                ReferenceErrorPrototype
              else
                ReflectObject
          else
            if k < 37 then
              if k < 36 then
                RegExpPrototype
              else
                RegExpStringIteratorPrototype
            else
              if k < 38 then
                SetPrototype
              else
                SetIteratorPrototype
      else
        if k < 46 then
          if k < 42 then
            if k < 40 then
              SharedArrayBufferPrototype
            else
              if k < 41 then
                StringIteratorPrototype
              else
                SymbolPrototype
          else
            if k < 44 then
              if k < 43 then
                SyntaxErrorPrototype
              else
                TypedArrayPrototype
            else
              if k < 45 then
                TypeErrorPrototype
              else
                Uint16ArrayPrototype
        else
          if k < 49 then
            if k < 47 then
              Uint32ArrayPrototype
            else
              if k < 48 then
                Uint8ArrayPrototype
              else
                Uint8ClampedArrayPrototype
          else
            if k < 51 then
              if k < 50 then
                URIErrorPrototype
              else
                WeakMapPrototype
            else
              if k < 52 then
                WeakRefPrototype
              else
                WeakSetPrototype
  }

  lemma ObjectOrdinalDensePart0(k: nat)
    requires 0 <= k < 8
    ensures ObjectOrdinal(ObjectFromOrdinal(k)) == k
  {
    match k
    case 0 =>
    case 1 =>
    case 2 =>
    case 3 =>
    case 4 =>
    case 5 =>
    case 6 =>
    case _ =>
  }

  lemma ObjectOrdinalDensePart1(k: nat)
    requires 8 <= k < 16
    ensures ObjectOrdinal(ObjectFromOrdinal(k)) == k
  {
    match k
    case 8 =>
    case 9 =>
    case 10 =>
    case 11 =>
    case 12 =>
    case 13 =>
    case 14 =>
    case _ =>
  }

  lemma ObjectOrdinalDensePart2(k: nat)
    requires 16 <= k < 24
    ensures ObjectOrdinal(ObjectFromOrdinal(k)) == k
  {
    match k
    case 16 =>
    case 17 =>
    case 18 =>
    case 19 =>
    case 20 =>
    case 21 =>
    case 22 =>
    case _ =>
  }

  lemma ObjectOrdinalDensePart3(k: nat)
    requires 24 <= k < 32
    ensures ObjectOrdinal(ObjectFromOrdinal(k)) == k
  {
    match k
    case 24 =>
    case 25 =>
    case 26 =>
    case 27 =>
    case 28 =>
    case 29 =>
    case 30 =>
    case _ =>
  }

  lemma ObjectOrdinalDensePart4(k: nat)
    requires 32 <= k < 40
    ensures ObjectOrdinal(ObjectFromOrdinal(k)) == k
  {
    match k
    case 32 =>
    case 33 =>
    case 34 =>
    case 35 =>
    case 36 =>
    case 37 =>
    case 38 =>
    case _ =>
  }

  lemma ObjectOrdinalDensePart5(k: nat)
    requires 40 <= k < 48
    ensures ObjectOrdinal(ObjectFromOrdinal(k)) == k
  {
    match k
    case 40 =>
    case 41 =>
    case 42 =>
    case 43 =>
    case 44 =>
    case 45 =>
    case 46 =>
    case _ =>
  }

  lemma ObjectOrdinalDensePart6(k: nat)
    requires 48 <= k < 53
    ensures ObjectOrdinal(ObjectFromOrdinal(k)) == k
  {
    match k
    case 48 =>
    case 49 =>
    case 50 =>
    case 51 =>
    case _ =>
  }

  /** Every ordinal below the variant count is taken: decoding and re-encoding it gives it back, so the count has no gaps. */
  lemma ObjectOrdinalDense(k: nat)
    requires k < IntrinsicObjectIndexesCount
    ensures ObjectOrdinal(ObjectFromOrdinal(k)) == k
  {
    if k < 8 {
      ObjectOrdinalDensePart0(k);
    } else if k < 16 {
      ObjectOrdinalDensePart1(k);
    } else if k < 24 {
      ObjectOrdinalDensePart2(k);
    } else if k < 32 {
      ObjectOrdinalDensePart3(k);
    } else if k < 40 {
      ObjectOrdinalDensePart4(k);
    } else if k < 48 {
      ObjectOrdinalDensePart5(k);
    } else {
      ObjectOrdinalDensePart6(k);
    }
  }

  lemma ObjectOrdinalRoundTripPart0(v: IntrinsicObjectIndexes)
    requires v.AggregateErrorPrototype? || v.ArrayPrototype? || v.ArrayBufferPrototype? || v.ArrayIteratorPrototype? || v.AsyncFromSyncIteratorPrototype? || v.AsyncFunctionPrototype? || v.AsyncGeneratorPrototype? || v.AsyncGeneratorFunctionPrototype?
    ensures ObjectFromOrdinal(ObjectOrdinal(v)) == v
  {
    match v
    case AggregateErrorPrototype =>
    case ArrayPrototype =>
    case ArrayBufferPrototype =>
    case ArrayIteratorPrototype =>
    case AsyncFromSyncIteratorPrototype =>
    case AsyncFunctionPrototype =>
    case AsyncGeneratorPrototype =>
    case AsyncGeneratorFunctionPrototype =>
    case _ => assert false;
  }

  lemma ObjectOrdinalRoundTripPart1(v: IntrinsicObjectIndexes)
    requires v.AsyncIteratorPrototype? || v.AtomicsObject? || v.BigIntPrototype? || v.BigInt64ArrayPrototype? || v.BigUint64ArrayPrototype? || v.DataViewPrototype? || v.DatePrototype? || v.ErrorPrototype?
    ensures ObjectFromOrdinal(ObjectOrdinal(v)) == v
  {
    match v
    case AsyncIteratorPrototype =>
    case AtomicsObject =>
    case BigIntPrototype =>
    case BigInt64ArrayPrototype =>
    case BigUint64ArrayPrototype =>
    case DataViewPrototype =>
    case DatePrototype =>
    case ErrorPrototype =>
    case _ => assert false;
  }

  lemma ObjectOrdinalRoundTripPart2(v: IntrinsicObjectIndexes)
    requires v.EvalErrorPrototype? || v.FinalizationRegistryPrototype? || v.Float32ArrayPrototype? || v.Float64ArrayPrototype? || v.GeneratorPrototype? || v.GeneratorFunctionPrototype? || v.Int16ArrayPrototype? || v.Int32ArrayPrototype?
    ensures ObjectFromOrdinal(ObjectOrdinal(v)) == v
  {
    match v
    case EvalErrorPrototype =>
    case FinalizationRegistryPrototype =>
    case Float32ArrayPrototype =>
    case Float64ArrayPrototype =>
    case GeneratorPrototype =>
    case GeneratorFunctionPrototype =>
    case Int16ArrayPrototype =>
    case Int32ArrayPrototype =>
    case _ => assert false;
  }

  lemma ObjectOrdinalRoundTripPart3(v: IntrinsicObjectIndexes)
    requires v.Int8ArrayPrototype? || v.IteratorPrototype? || v.JSONObject? || v.MapPrototype? || v.MapIteratorPrototype? || v.MathObject? || v.ObjectPrototype? || v.PromisePrototype?
    ensures ObjectFromOrdinal(ObjectOrdinal(v)) == v
  {
    match v
    case Int8ArrayPrototype =>
    case IteratorPrototype =>
    case JSONObject =>
    case MapPrototype =>
    case MapIteratorPrototype =>
    case MathObject =>
    case ObjectPrototype =>
    case PromisePrototype =>
    case _ => assert false;
  }

  lemma ObjectOrdinalRoundTripPart4(v: IntrinsicObjectIndexes)
    requires v.RangeErrorPrototype? || v.ReferenceErrorPrototype? || v.ReflectObject? || v.RegExpPrototype? || v.RegExpStringIteratorPrototype? || v.SetPrototype? || v.SetIteratorPrototype? || v.SharedArrayBufferPrototype?
    ensures ObjectFromOrdinal(ObjectOrdinal(v)) == v
  {
    match v
    case RangeErrorPrototype =>
    case ReferenceErrorPrototype =>
    case ReflectObject =>
    case RegExpPrototype =>
    case RegExpStringIteratorPrototype =>
    case SetPrototype =>
    case SetIteratorPrototype =>
    case SharedArrayBufferPrototype =>
    case _ => assert false;
  }

  lemma ObjectOrdinalRoundTripPart5(v: IntrinsicObjectIndexes)
    requires v.StringIteratorPrototype? || v.SymbolPrototype? || v.SyntaxErrorPrototype? || v.TypedArrayPrototype? || v.TypeErrorPrototype? || v.Uint16ArrayPrototype? || v.Uint32ArrayPrototype? || v.Uint8ArrayPrototype?
    ensures ObjectFromOrdinal(ObjectOrdinal(v)) == v
  {
    match v
    case StringIteratorPrototype =>
    case SymbolPrototype =>
    case SyntaxErrorPrototype =>
    case TypedArrayPrototype =>
    case TypeErrorPrototype =>
    case Uint16ArrayPrototype =>
    case Uint32ArrayPrototype =>
    case Uint8ArrayPrototype =>
    case _ => assert false;
  }

  lemma ObjectOrdinalRoundTripPart6(v: IntrinsicObjectIndexes)
    requires v.Uint8ClampedArrayPrototype? || v.URIErrorPrototype? || v.WeakMapPrototype? || v.WeakRefPrototype? || v.WeakSetPrototype?
    ensures ObjectFromOrdinal(ObjectOrdinal(v)) == v
  {
    match v
    case Uint8ClampedArrayPrototype =>
    case URIErrorPrototype =>
    case WeakMapPrototype =>
    case WeakRefPrototype =>
    case WeakSetPrototype =>
    case _ => assert false;
  }

  /** Decoding the ordinal of a variant gives back that variant. */
  lemma ObjectOrdinalRoundTrip(v: IntrinsicObjectIndexes)
    ensures ObjectFromOrdinal(ObjectOrdinal(v)) == v
  {
    match v
    case AggregateErrorPrototype => ObjectOrdinalRoundTripPart0(v);
    case ArrayPrototype => ObjectOrdinalRoundTripPart0(v);
    case ArrayBufferPrototype => ObjectOrdinalRoundTripPart0(v);
    case ArrayIteratorPrototype => ObjectOrdinalRoundTripPart0(v);
    case AsyncFromSyncIteratorPrototype => ObjectOrdinalRoundTripPart0(v);
    case AsyncFunctionPrototype => ObjectOrdinalRoundTripPart0(v);
    case AsyncGeneratorPrototype => ObjectOrdinalRoundTripPart0(v);
    case AsyncGeneratorFunctionPrototype => ObjectOrdinalRoundTripPart0(v);
    case AsyncIteratorPrototype => ObjectOrdinalRoundTripPart1(v);
    case AtomicsObject => ObjectOrdinalRoundTripPart1(v);
    case BigIntPrototype => ObjectOrdinalRoundTripPart1(v);
    case BigInt64ArrayPrototype => ObjectOrdinalRoundTripPart1(v);
    case BigUint64ArrayPrototype => ObjectOrdinalRoundTripPart1(v);
    case DataViewPrototype => ObjectOrdinalRoundTripPart1(v);
    case DatePrototype => ObjectOrdinalRoundTripPart1(v);
    case ErrorPrototype => ObjectOrdinalRoundTripPart1(v);
    case EvalErrorPrototype => ObjectOrdinalRoundTripPart2(v);
    case FinalizationRegistryPrototype => ObjectOrdinalRoundTripPart2(v);
    case Float32ArrayPrototype => ObjectOrdinalRoundTripPart2(v);
    case Float64ArrayPrototype => ObjectOrdinalRoundTripPart2(v);
    case GeneratorPrototype => ObjectOrdinalRoundTripPart2(v);
    case GeneratorFunctionPrototype => ObjectOrdinalRoundTripPart2(v);
    case Int16ArrayPrototype => ObjectOrdinalRoundTripPart2(v);
    case Int32ArrayPrototype => ObjectOrdinalRoundTripPart2(v);
    case Int8ArrayPrototype => ObjectOrdinalRoundTripPart3(v);
    case IteratorPrototype => ObjectOrdinalRoundTripPart3(v);
    case JSONObject => ObjectOrdinalRoundTripPart3(v);
    case MapPrototype => ObjectOrdinalRoundTripPart3(v);
    case MapIteratorPrototype => ObjectOrdinalRoundTripPart3(v);
    case MathObject => ObjectOrdinalRoundTripPart3(v);
    case ObjectPrototype => ObjectOrdinalRoundTripPart3(v);
    case PromisePrototype => ObjectOrdinalRoundTripPart3(v);
    case RangeErrorPrototype => ObjectOrdinalRoundTripPart4(v);
    case ReferenceErrorPrototype => ObjectOrdinalRoundTripPart4(v);
    case ReflectObject => ObjectOrdinalRoundTripPart4(v);
    case RegExpPrototype => ObjectOrdinalRoundTripPart4(v);
    case RegExpStringIteratorPrototype => ObjectOrdinalRoundTripPart4(v);
    case SetPrototype => ObjectOrdinalRoundTripPart4(v);
    case SetIteratorPrototype => ObjectOrdinalRoundTripPart4(v);
    case SharedArrayBufferPrototype => ObjectOrdinalRoundTripPart4(v);
    case StringIteratorPrototype => ObjectOrdinalRoundTripPart5(v);
    case SymbolPrototype => ObjectOrdinalRoundTripPart5(v);
    case SyntaxErrorPrototype => ObjectOrdinalRoundTripPart5(v);
    case TypedArrayPrototype => ObjectOrdinalRoundTripPart5(v);
    case TypeErrorPrototype => ObjectOrdinalRoundTripPart5(v);
    case Uint16ArrayPrototype => ObjectOrdinalRoundTripPart5(v);
    case Uint32ArrayPrototype => ObjectOrdinalRoundTripPart5(v);
    case Uint8ArrayPrototype => ObjectOrdinalRoundTripPart5(v);
    case Uint8ClampedArrayPrototype => ObjectOrdinalRoundTripPart6(v);
    case URIErrorPrototype => ObjectOrdinalRoundTripPart6(v);
    case WeakMapPrototype => ObjectOrdinalRoundTripPart6(v);
    case WeakRefPrototype => ObjectOrdinalRoundTripPart6(v);
    case WeakSetPrototype => ObjectOrdinalRoundTripPart6(v);
  }

  /** Two variants share an ordinal exactly when they are the same variant. */
  lemma ObjectOrdinalInjective(v: IntrinsicObjectIndexes, w: IntrinsicObjectIndexes)
    ensures ObjectOrdinal(v) == ObjectOrdinal(w) <==> v == w
  {
    ObjectOrdinalRoundTrip(v);
    ObjectOrdinalRoundTrip(w);
  }

  // ---------------------------------------------------------------------------
  // `IntrinsicConstructorIndexes`

  /** `IntrinsicConstructorIndexes`: the dual-natured intrinsics, each owning a builtin-function slot and an ordinary-object slot. */
  datatype IntrinsicConstructorIndexes =
    | AggregateError
    | Array
    | ArrayBuffer
    | AsyncFunction
    | AsyncGeneratorFunction
    | BigInt
    | BigInt64Array
    | BigUint64Array
    | Boolean
    | DataView
    | Date
    | Error
    | EvalError
    | FinalizationRegistry
    | Float32Array
    | Float64Array
    | FunctionPrototype
    | Function
    | GeneratorFunction
    | Int16Array
    | Int32Array
    | Int8Array
    | Map
    | Number
    | Object
    | Promise
    | Proxy
    | RangeError
    | ReferenceError
    | RegExp
    | Set
    | SharedArrayBuffer
    | String
    | Symbol
    | SyntaxError
    | TypedArray
    | TypeError
    | Uint16Array
    | Uint32Array
    | Uint8Array
    | Uint8ClampedArray
    | URIError
    | WeakMap
    | WeakRef
    | WeakSet

  /** Number of `IntrinsicConstructorIndexes` variants. */
  const IntrinsicConstructorIndexesCount: nat := 45

  /** The dense ordinal of a variant (its discriminant): a fixed position below the variant count. */
  function ConstructorOrdinal(v: IntrinsicConstructorIndexes): (k: nat)
    ensures k < IntrinsicConstructorIndexesCount
  {
    match v
    case AggregateError => 0
    case Array => 1
    case ArrayBuffer => 2
    case AsyncFunction => 3
    case AsyncGeneratorFunction => 4
    case BigInt => 5
    case BigInt64Array => 6
    case BigUint64Array => 7
    case Boolean => 8
    case DataView => 9
    case Date => 10
    case Error => 11
    case EvalError => 12
    case FinalizationRegistry => 13
    case Float32Array => 14
    case Float64Array => 15
    case FunctionPrototype => 16
    case Function => 17
    case GeneratorFunction => 18
    case Int16Array => 19
    case Int32Array => 20
    case Int8Array => 21
    case Map => 22
    case Number => 23
    case Object => 24
    case Promise => 25
    case Proxy => 26
    case RangeError => 27
    case ReferenceError => 28
    case RegExp => 29
    case Set => 30
    case SharedArrayBuffer => 31
    case String => 32
    case Symbol => 33
    case SyntaxError => 34
    case TypedArray => 35
    case TypeError => 36
    case Uint16Array => 37
    case Uint32Array => 38
    case Uint8Array => 39
    case Uint8ClampedArray => 40
    case URIError => 41
    case WeakMap => 42
    case WeakRef => 43
    case WeakSet => 44
  }

  /** The variant whose ordinal is `k` (decoded by bisection). */
  function ConstructorFromOrdinal(k: nat): IntrinsicConstructorIndexes
    requires k < IntrinsicConstructorIndexesCount
  {
    if k < 22 then
      if k < 11 then
        if k < 5 then
          if k < 2 then
            if k < 1 then
              AggregateError
            else
              Array
          else
            if k < 3 then
              ArrayBuffer
            else
              if k < 4 then
                AsyncFunction
              else
                AsyncGeneratorFunction
        else
          if k < 8 then
            if k < 6 then
              BigInt
            else
              if k < 7 then
                BigInt64Array
              else
                BigUint64Array
          else
            if k < 9 then
              Boolean
            else
              if k < 10 then
                DataView
              else
                Date
      else
        if k < 16 then
          if k < 13 then
            if k < 12 then
              Error
            else
              EvalError
          else
            if k < 14 then
              FinalizationRegistry
            else
              if k < 15 then
                Float32Array
              else
                Float64Array
        else
          if k < 19 then
            if k < 17 then
              FunctionPrototype
            else
              if k < 18 then
                Function
              else
                GeneratorFunction
          else
            if k < 20 then
              Int16Array
            else
              if k < 21 then
                Int32Array
              else
                Int8Array
    else
      if k < 33 then
        if k < 27 then
          if k < 24 then
            if k < 23 then
              Map
            else
              Number
          else
            if k < 25 then
              Object
            else
              if k < 26 then
                Promise
              else
                Proxy
        else
          if k < 30 then
            if k < 28 then
              RangeError
            else
              if k < 29 then
                ReferenceError
              else
                RegExp
          else
            if k < 31 then
              Set
            else
              if k < 32 then
                SharedArrayBuffer
              else
                String
      else
        if k < 39 then
          if k < 36 then
            if k < 34 then
              Symbol
            else
              if k < 35 then
                SyntaxError
              else
                TypedArray
          else
            if k < 37 then
              TypeError
            else
              if k < 38 then
                Uint16Array
              else
                Uint32Array
        else
          if k < 42 then
            if k < 40 then
              Uint8Array
            else
              if k < 41 then
                Uint8ClampedArray
              else
                URIError
          else
            if k < 43 then
              WeakMap
            else
              if k < 44 then
                WeakRef
              else
                WeakSet
  }

  lemma ConstructorOrdinalDensePart0(k: nat)
    requires 0 <= k < 8
    ensures ConstructorOrdinal(ConstructorFromOrdinal(k)) == k
  {
    match k
    case 0 =>
    case 1 =>
    case 2 =>
    case 3 =>
    case 4 =>
    case 5 =>
    case 6 =>
    case _ =>
  }

  lemma ConstructorOrdinalDensePart1(k: nat)
    requires 8 <= k < 16
    ensures ConstructorOrdinal(ConstructorFromOrdinal(k)) == k
  {
    match k
    case 8 =>
    case 9 =>
    case 10 =>
    case 11 =>
    case 12 =>
    case 13 =>
    case 14 =>
    case _ =>
  }

  lemma ConstructorOrdinalDensePart2(k: nat)
    requires 16 <= k < 24
    ensures ConstructorOrdinal(ConstructorFromOrdinal(k)) == k
  {
    match k
    case 16 =>
    case 17 =>
    case 18 =>
    case 19 =>
    case 20 =>
    case 21 =>
    case 22 =>
    case _ =>
  }

  lemma ConstructorOrdinalDensePart3(k: nat)
    requires 24 <= k < 32
    ensures ConstructorOrdinal(ConstructorFromOrdinal(k)) == k
  {
    match k
    case 24 =>
    case 25 =>
    case 26 =>
    case 27 =>
    case 28 =>
    case 29 =>
    case 30 =>
    case _ =>
  }

  lemma ConstructorOrdinalDensePart4(k: nat)
    requires 32 <= k < 40
    ensures ConstructorOrdinal(ConstructorFromOrdinal(k)) == k
  {
    match k
    case 32 =>
    case 33 =>
    case 34 =>
    case 35 =>
    case 36 =>
    case 37 =>
    case 38 =>
    case _ =>
  }

  lemma ConstructorOrdinalDensePart5(k: nat)
    requires 40 <= k < 45
    ensures ConstructorOrdinal(ConstructorFromOrdinal(k)) == k
  {
    match k
    case 40 =>
    case 41 =>
    case 42 =>
    case 43 =>
    case _ =>
  }

  /** Every ordinal below the variant count is taken: decoding and re-encoding it gives it back, so the count has no gaps. */
  lemma ConstructorOrdinalDense(k: nat)
    requires k < IntrinsicConstructorIndexesCount
    ensures ConstructorOrdinal(ConstructorFromOrdinal(k)) == k
  {
    if k < 8 {
      ConstructorOrdinalDensePart0(k);
    } else if k < 16 {
      ConstructorOrdinalDensePart1(k);
    } else if k < 24 {
      ConstructorOrdinalDensePart2(k);
    } else if k < 32 {
      ConstructorOrdinalDensePart3(k);
    } else if k < 40 {
      ConstructorOrdinalDensePart4(k);
    } else {
      ConstructorOrdinalDensePart5(k);
    }
  }

  lemma ConstructorOrdinalRoundTripPart0(v: IntrinsicConstructorIndexes)
    requires v.AggregateError? || v.Array? || v.ArrayBuffer? || v.AsyncFunction? || v.AsyncGeneratorFunction? || v.BigInt? || v.BigInt64Array? || v.BigUint64Array?
    ensures ConstructorFromOrdinal(ConstructorOrdinal(v)) == v
  {
    match v
    case AggregateError =>
    case Array =>
    case ArrayBuffer =>
    case AsyncFunction =>
    case AsyncGeneratorFunction =>
    case BigInt =>
    case BigInt64Array =>
    case BigUint64Array =>
    case _ => assert false;
  }

  lemma ConstructorOrdinalRoundTripPart1(v: IntrinsicConstructorIndexes)
    requires v.Boolean? || v.DataView? || v.Date? || v.Error? || v.EvalError? || v.FinalizationRegistry? || v.Float32Array? || v.Float64Array?
    ensures ConstructorFromOrdinal(ConstructorOrdinal(v)) == v
  {
    match v
    case Boolean =>
    case DataView =>
    case Date =>
    case Error =>
    case EvalError =>
    case FinalizationRegistry =>
    case Float32Array =>
    case Float64Array =>
    case _ => assert false;
  }

  lemma ConstructorOrdinalRoundTripPart2(v: IntrinsicConstructorIndexes)
    requires v.FunctionPrototype? || v.Function? || v.GeneratorFunction? || v.Int16Array? || v.Int32Array? || v.Int8Array? || v.Map? || v.Number?
    ensures ConstructorFromOrdinal(ConstructorOrdinal(v)) == v
  {
    match v
    case FunctionPrototype =>
    case Function =>
    case GeneratorFunction =>
    case Int16Array =>
    case Int32Array =>
    case Int8Array =>
    case Map =>
    case Number =>
    case _ => assert false;
  }

  lemma ConstructorOrdinalRoundTripPart3(v: IntrinsicConstructorIndexes)
    requires v.Object? || v.Promise? || v.Proxy? || v.RangeError? || v.ReferenceError? || v.RegExp? || v.Set? || v.SharedArrayBuffer?
    ensures ConstructorFromOrdinal(ConstructorOrdinal(v)) == v
  {
    match v
    case Object =>
    case Promise =>
    case Proxy =>
    case RangeError =>
    case ReferenceError =>
    case RegExp =>
    case Set =>
    case SharedArrayBuffer =>
    case _ => assert false;
  }

  lemma ConstructorOrdinalRoundTripPart4(v: IntrinsicConstructorIndexes)
    requires v.String? || v.Symbol? || v.SyntaxError? || v.TypedArray? || v.TypeError? || v.Uint16Array? || v.Uint32Array? || v.Uint8Array?
    ensures ConstructorFromOrdinal(ConstructorOrdinal(v)) == v
  {
    match v
    case String =>
    case Symbol =>
    case SyntaxError =>
    case TypedArray =>
    case TypeError =>
    case Uint16Array =>
    case Uint32Array =>
    case Uint8Array =>
    case _ => assert false;
  }

  lemma ConstructorOrdinalRoundTripPart5(v: IntrinsicConstructorIndexes)
    requires v.Uint8ClampedArray? || v.URIError? || v.WeakMap? || v.WeakRef? || v.WeakSet?
    ensures ConstructorFromOrdinal(ConstructorOrdinal(v)) == v
  {
    match v
    case Uint8ClampedArray =>
    case URIError =>
    case WeakMap =>
    case WeakRef =>
    case WeakSet =>
    case _ => assert false;
  }

  /** Decoding the ordinal of a variant gives back that variant. */
  lemma ConstructorOrdinalRoundTrip(v: IntrinsicConstructorIndexes)
    ensures ConstructorFromOrdinal(ConstructorOrdinal(v)) == v
  {
    match v
    case AggregateError => ConstructorOrdinalRoundTripPart0(v);
    case Array => ConstructorOrdinalRoundTripPart0(v);
    case ArrayBuffer => ConstructorOrdinalRoundTripPart0(v);
    case AsyncFunction => ConstructorOrdinalRoundTripPart0(v);
    case AsyncGeneratorFunction => ConstructorOrdinalRoundTripPart0(v);
    case BigInt => ConstructorOrdinalRoundTripPart0(v);
    case BigInt64Array => ConstructorOrdinalRoundTripPart0(v);
    case BigUint64Array => ConstructorOrdinalRoundTripPart0(v);
    case Boolean => ConstructorOrdinalRoundTripPart1(v);
    case DataView => ConstructorOrdinalRoundTripPart1(v);
    case Date => ConstructorOrdinalRoundTripPart1(v);
    case Error => ConstructorOrdinalRoundTripPart1(v);
    case EvalError => ConstructorOrdinalRoundTripPart1(v);
    case FinalizationRegistry => ConstructorOrdinalRoundTripPart1(v);
    case Float32Array => ConstructorOrdinalRoundTripPart1(v);
    case Float64Array => ConstructorOrdinalRoundTripPart1(v);
    case FunctionPrototype => ConstructorOrdinalRoundTripPart2(v);
    case Function => ConstructorOrdinalRoundTripPart2(v);
    case GeneratorFunction => ConstructorOrdinalRoundTripPart2(v);
    case Int16Array => ConstructorOrdinalRoundTripPart2(v);
    case Int32Array => ConstructorOrdinalRoundTripPart2(v);
    case Int8Array => ConstructorOrdinalRoundTripPart2(v);
    case Map => ConstructorOrdinalRoundTripPart2(v);
    case Number => ConstructorOrdinalRoundTripPart2(v);
    case Object => ConstructorOrdinalRoundTripPart3(v);
    case Promise => ConstructorOrdinalRoundTripPart3(v);
    case Proxy => ConstructorOrdinalRoundTripPart3(v);
    case RangeError => ConstructorOrdinalRoundTripPart3(v);
    case ReferenceError => ConstructorOrdinalRoundTripPart3(v);
    case RegExp => ConstructorOrdinalRoundTripPart3(v);
    case Set => ConstructorOrdinalRoundTripPart3(v);
    case SharedArrayBuffer => ConstructorOrdinalRoundTripPart3(v);
    case String => ConstructorOrdinalRoundTripPart4(v);
    case Symbol => ConstructorOrdinalRoundTripPart4(v);
    case SyntaxError => ConstructorOrdinalRoundTripPart4(v);
    case TypedArray => ConstructorOrdinalRoundTripPart4(v);
    case TypeError => ConstructorOrdinalRoundTripPart4(v);
    case Uint16Array => ConstructorOrdinalRoundTripPart4(v);
    case Uint32Array => ConstructorOrdinalRoundTripPart4(v);
    case Uint8Array => ConstructorOrdinalRoundTripPart4(v);
    case Uint8ClampedArray => ConstructorOrdinalRoundTripPart5(v);
    case URIError => ConstructorOrdinalRoundTripPart5(v);
    case WeakMap => ConstructorOrdinalRoundTripPart5(v);
    case WeakRef => ConstructorOrdinalRoundTripPart5(v);
    case WeakSet => ConstructorOrdinalRoundTripPart5(v);
  }

  /** Two variants share an ordinal exactly when they are the same variant. */
  lemma ConstructorOrdinalInjective(v: IntrinsicConstructorIndexes, w: IntrinsicConstructorIndexes)
    ensures ConstructorOrdinal(v) == ConstructorOrdinal(w) <==> v == w
  {
    ConstructorOrdinalRoundTrip(v);
    ConstructorOrdinalRoundTrip(w);
  }

  // ---------------------------------------------------------------------------
  // `IntrinsicFunctionIndexes`

  /** `IntrinsicFunctionIndexes`: the intrinsics stored only as builtin functions. */
  datatype IntrinsicFunctionIndexes =
    | ArrayPrototypeSort
    | ArrayPrototypeToString
    | ArrayPrototypeValues
    | DatePrototypeToUTCString
    | DecodeURI
    | DecodeURIComponent
    | EncodeURI
    | EncodeURIComponent
    | Escape
    | Eval
    | GeneratorFunctionPrototypePrototypeNext
    | IsFinite
    | IsNaN
    | MapPrototypeEntries
    | ObjectPrototypeToString
    | ParseFloat
    | ParseInt
    | RegExpPrototypeExec
    | SetPrototypeValues
    | StringPrototypeTrimEnd
    | StringPrototypeTrimStart
    | ThrowTypeError
    | TypedArrayPrototypeValues
    | Unescape

  /** Number of `IntrinsicFunctionIndexes` variants. */
  const IntrinsicFunctionIndexesCount: nat := 24

  /** The dense ordinal of a variant (its discriminant): a fixed position below the variant count. */
  function FunctionOrdinal(v: IntrinsicFunctionIndexes): (k: nat)
    ensures k < IntrinsicFunctionIndexesCount
  {
    match v
    case ArrayPrototypeSort => 0
    case ArrayPrototypeToString => 1
    case ArrayPrototypeValues => 2
    case DatePrototypeToUTCString => 3
    case DecodeURI => 4
    case DecodeURIComponent => 5
    case EncodeURI => 6
    case EncodeURIComponent => 7
    case Escape => 8
    case Eval => 9
    case GeneratorFunctionPrototypePrototypeNext => 10
    case IsFinite => 11
    case IsNaN => 12
    case MapPrototypeEntries => 13
    case ObjectPrototypeToString => 14
    case ParseFloat => 15
    case ParseInt => 16
    case RegExpPrototypeExec => 17
    case SetPrototypeValues => 18
    case StringPrototypeTrimEnd => 19
    case StringPrototypeTrimStart => 20
    case ThrowTypeError => 21
    case TypedArrayPrototypeValues => 22
    case Unescape => 23
  }

  /** The variant whose ordinal is `k` (decoded by bisection). */
  function FunctionFromOrdinal(k: nat): IntrinsicFunctionIndexes
    requires k < IntrinsicFunctionIndexesCount
  {
    if k < 12 then
      if k < 6 then
        if k < 3 then
          if k < 1 then
            ArrayPrototypeSort
          else
            if k < 2 then
              ArrayPrototypeToString
            else
              ArrayPrototypeValues
        else
          if k < 4 then
            DatePrototypeToUTCString
          else
            if k < 5 then
              DecodeURI
            else
              DecodeURIComponent
      else
        if k < 9 then
          if k < 7 then
            EncodeURI
          else
            if k < 8 then
              EncodeURIComponent
            else
              Escape
        else
          if k < 10 then
            Eval
          else
            if k < 11 then
              GeneratorFunctionPrototypePrototypeNext
            else
              IsFinite
    else
      if k < 18 then
        if k < 15 then
          if k < 13 then
            IsNaN
          else
            if k < 14 then
              MapPrototypeEntries
            else
              ObjectPrototypeToString
        else
          if k < 16 then
            ParseFloat
          else
            if k < 17 then
              ParseInt
            else
              RegExpPrototypeExec
      else
        if k < 21 then
          if k < 19 then
            SetPrototypeValues
          else
            if k < 20 then
              StringPrototypeTrimEnd
            else
              StringPrototypeTrimStart
        else
          if k < 22 then
            ThrowTypeError
          else
            if k < 23 then
              TypedArrayPrototypeValues
            else
              Unescape
  }

  lemma FunctionOrdinalDensePart0(k: nat)
    requires 0 <= k < 8
    ensures FunctionOrdinal(FunctionFromOrdinal(k)) == k
  {
    match k
    case 0 =>
    case 1 =>
    case 2 =>
    case 3 =>
    case 4 =>
    case 5 =>
    case 6 =>
    case _ =>
  }

  lemma FunctionOrdinalDensePart1(k: nat)
    requires 8 <= k < 16
    ensures FunctionOrdinal(FunctionFromOrdinal(k)) == k
  {
    match k
    case 8 =>
    case 9 =>
    case 10 =>
    case 11 =>
    case 12 =>
    case 13 =>
    case 14 =>
    case _ =>
  }

  lemma FunctionOrdinalDensePart2(k: nat)
    requires 16 <= k < 24
    ensures FunctionOrdinal(FunctionFromOrdinal(k)) == k
  {
    match k
    case 16 =>
    case 17 =>
    case 18 =>
    case 19 =>
    case 20 =>
    case 21 =>
    case 22 =>
    case _ =>
  }

  /** Every ordinal below the variant count is taken: decoding and re-encoding it gives it back, so the count has no gaps. */
  lemma FunctionOrdinalDense(k: nat)
    requires k < IntrinsicFunctionIndexesCount
    ensures FunctionOrdinal(FunctionFromOrdinal(k)) == k
  {
    if k < 8 {
      FunctionOrdinalDensePart0(k);
    } else if k < 16 {
      FunctionOrdinalDensePart1(k);
    } else {
      FunctionOrdinalDensePart2(k);
    }
  }

  lemma FunctionOrdinalRoundTripPart0(v: IntrinsicFunctionIndexes)
    requires v.ArrayPrototypeSort? || v.ArrayPrototypeToString? || v.ArrayPrototypeValues? || v.DatePrototypeToUTCString? || v.DecodeURI? || v.DecodeURIComponent? || v.EncodeURI? || v.EncodeURIComponent?
    ensures FunctionFromOrdinal(FunctionOrdinal(v)) == v
  {
    match v
    case ArrayPrototypeSort =>
    case ArrayPrototypeToString =>
    case ArrayPrototypeValues =>
    case DatePrototypeToUTCString =>
    case DecodeURI =>
    case DecodeURIComponent =>
    case EncodeURI =>
    case EncodeURIComponent =>
    case _ => assert false;
  }

  lemma FunctionOrdinalRoundTripPart1(v: IntrinsicFunctionIndexes)
    requires v.Escape? || v.Eval? || v.GeneratorFunctionPrototypePrototypeNext? || v.IsFinite? || v.IsNaN? || v.MapPrototypeEntries? || v.ObjectPrototypeToString? || v.ParseFloat?
    ensures FunctionFromOrdinal(FunctionOrdinal(v)) == v
  {
    match v
    case Escape =>
    case Eval =>
    case GeneratorFunctionPrototypePrototypeNext =>
    case IsFinite =>
    case IsNaN =>
    case MapPrototypeEntries =>
    case ObjectPrototypeToString =>
    case ParseFloat =>
    case _ => assert false;
  }

  lemma FunctionOrdinalRoundTripPart2(v: IntrinsicFunctionIndexes)
    requires v.ParseInt? || v.RegExpPrototypeExec? || v.SetPrototypeValues? || v.StringPrototypeTrimEnd? || v.StringPrototypeTrimStart? || v.ThrowTypeError? || v.TypedArrayPrototypeValues? || v.Unescape?
    ensures FunctionFromOrdinal(FunctionOrdinal(v)) == v
  {
    match v
    case ParseInt =>
    case RegExpPrototypeExec =>
    case SetPrototypeValues =>
    case StringPrototypeTrimEnd =>
    case StringPrototypeTrimStart =>
    case ThrowTypeError =>
    case TypedArrayPrototypeValues =>
    case Unescape =>
    case _ => assert false;
  }

  /** Decoding the ordinal of a variant gives back that variant. */
  lemma FunctionOrdinalRoundTrip(v: IntrinsicFunctionIndexes)
    ensures FunctionFromOrdinal(FunctionOrdinal(v)) == v
  {
    match v
    case ArrayPrototypeSort => FunctionOrdinalRoundTripPart0(v);
    case ArrayPrototypeToString => FunctionOrdinalRoundTripPart0(v);
    case ArrayPrototypeValues => FunctionOrdinalRoundTripPart0(v);
    case DatePrototypeToUTCString => FunctionOrdinalRoundTripPart0(v);
    case DecodeURI => FunctionOrdinalRoundTripPart0(v);
    case DecodeURIComponent => FunctionOrdinalRoundTripPart0(v);
    case EncodeURI => FunctionOrdinalRoundTripPart0(v);
    case EncodeURIComponent => FunctionOrdinalRoundTripPart0(v);
    case Escape => FunctionOrdinalRoundTripPart1(v);
    case Eval => FunctionOrdinalRoundTripPart1(v);
    case GeneratorFunctionPrototypePrototypeNext => FunctionOrdinalRoundTripPart1(v);
    case IsFinite => FunctionOrdinalRoundTripPart1(v);
    case IsNaN => FunctionOrdinalRoundTripPart1(v);
    case MapPrototypeEntries => FunctionOrdinalRoundTripPart1(v);
    case ObjectPrototypeToString => FunctionOrdinalRoundTripPart1(v);
    case ParseFloat => FunctionOrdinalRoundTripPart1(v);
    case ParseInt => FunctionOrdinalRoundTripPart2(v);
    case RegExpPrototypeExec => FunctionOrdinalRoundTripPart2(v);
    case SetPrototypeValues => FunctionOrdinalRoundTripPart2(v);
    case StringPrototypeTrimEnd => FunctionOrdinalRoundTripPart2(v);
    case StringPrototypeTrimStart => FunctionOrdinalRoundTripPart2(v);
    case ThrowTypeError => FunctionOrdinalRoundTripPart2(v);
    case TypedArrayPrototypeValues => FunctionOrdinalRoundTripPart2(v);
    case Unescape => FunctionOrdinalRoundTripPart2(v);
  }

  /** Two variants share an ordinal exactly when they are the same variant. */
  lemma FunctionOrdinalInjective(v: IntrinsicFunctionIndexes, w: IntrinsicFunctionIndexes)
    ensures FunctionOrdinal(v) == FunctionOrdinal(w) <==> v == w
  {
    FunctionOrdinalRoundTrip(v);
    FunctionOrdinalRoundTrip(w);
  }

  // ---------------------------------------------------------------------------
  // `IntrinsicPrimitiveObjectIndexes`

  /** `IntrinsicPrimitiveObjectIndexes`: the primitive-wrapper prototypes, each owning a primitive-object slot and an ordinary-object slot. */
  datatype IntrinsicPrimitiveObjectIndexes =
    | BooleanPrototype
    | NumberPrototype
    | StringPrototype

  /** Number of `IntrinsicPrimitiveObjectIndexes` variants. */
  const IntrinsicPrimitiveObjectIndexesCount: nat := 3

  /** The dense ordinal of a variant (its discriminant): a fixed position below the variant count. */
  function PrimitiveObjectOrdinal(v: IntrinsicPrimitiveObjectIndexes): (k: nat)
    ensures k < IntrinsicPrimitiveObjectIndexesCount
  {
    match v
    case BooleanPrototype => 0
    case NumberPrototype => 1
    case StringPrototype => 2
  }

  /** The variant whose ordinal is `k` (decoded by bisection). */
  function PrimitiveObjectFromOrdinal(k: nat): IntrinsicPrimitiveObjectIndexes
    requires k < IntrinsicPrimitiveObjectIndexesCount
  {
    if k < 1 then
      BooleanPrototype
    else
      if k < 2 then
        NumberPrototype
      else
        StringPrototype
  }

  /** Every ordinal below the variant count is taken: decoding and re-encoding it gives it back, so the count has no gaps. */
  lemma PrimitiveObjectOrdinalDense(k: nat)
    requires k < IntrinsicPrimitiveObjectIndexesCount
    ensures PrimitiveObjectOrdinal(PrimitiveObjectFromOrdinal(k)) == k
  {
    match k
    case 0 =>
    case 1 =>
    case _ =>
  }

  /** Decoding the ordinal of a variant gives back that variant. */
  lemma PrimitiveObjectOrdinalRoundTrip(v: IntrinsicPrimitiveObjectIndexes)
    ensures PrimitiveObjectFromOrdinal(PrimitiveObjectOrdinal(v)) == v
  {
    match v
    case BooleanPrototype =>
    case NumberPrototype =>
    case StringPrototype =>
  }

  /** Two variants share an ordinal exactly when they are the same variant. */
  lemma PrimitiveObjectOrdinalInjective(v: IntrinsicPrimitiveObjectIndexes, w: IntrinsicPrimitiveObjectIndexes)
    ensures PrimitiveObjectOrdinal(v) == PrimitiveObjectOrdinal(w) <==> v == w
  {
    PrimitiveObjectOrdinalRoundTrip(v);
    PrimitiveObjectOrdinalRoundTrip(w);
  }

  // ---------------------------------------------------------------------------
  // Family sizes: each is derived from the enumerations it holds.

  /** `intrinsic_object_count()`: slots a realm reserves in the object slab. */
  const IntrinsicObjectCount: nat :=
    IntrinsicObjectIndexesCount + IntrinsicConstructorIndexesCount + IntrinsicPrimitiveObjectIndexesCount

  /** `intrinsic_function_count()`: slots a realm reserves in the builtin-function slab. */
  const IntrinsicFunctionCount: nat := IntrinsicConstructorIndexesCount + IntrinsicFunctionIndexesCount

  /** `intrinsic_primitive_object_count()`: slots a realm reserves in the primitive-object slab. */
  const IntrinsicPrimitiveObjectCount: nat := IntrinsicPrimitiveObjectIndexesCount

  // ---------------------------------------------------------------------------
  // `get_*_index(base)`: where an enumeration's variant lives relative to a
  // realm's base in each slab.  The sub-ranges of one slab do not overlap and
  // together fill exactly the reserved count.

  /** `IntrinsicObjectIndexes::get_object_index`: the first sub-range of the object family. */
  function ObjectIndexOf(o: IntrinsicObjectIndexes, base: nat): (i: nat)
    ensures base <= i < base + IntrinsicObjectIndexesCount
  {
    base + ObjectOrdinal(o)
  }

  /** `IntrinsicConstructorIndexes::get_object_index`: the second sub-range of the object family. */
  function ConstructorObjectIndex(c: IntrinsicConstructorIndexes, base: nat): (i: nat)
    ensures base + IntrinsicObjectIndexesCount <= i < base + IntrinsicObjectIndexesCount + IntrinsicConstructorIndexesCount
  {
    base + IntrinsicObjectIndexesCount + ConstructorOrdinal(c)
  }

  /** `IntrinsicPrimitiveObjectIndexes::get_object_index`: the last sub-range of the object family. */
  function PrimitiveBaseObjectIndex(p: IntrinsicPrimitiveObjectIndexes, base: nat): (i: nat)
    ensures base + IntrinsicObjectIndexesCount + IntrinsicConstructorIndexesCount <= i < base + IntrinsicObjectCount
  {
    base + IntrinsicObjectIndexesCount + IntrinsicConstructorIndexesCount + PrimitiveObjectOrdinal(p)
  }

  /** `IntrinsicConstructorIndexes::get_builtin_function_index`: the first sub-range of the function family. */
  function ConstructorFunctionIndex(c: IntrinsicConstructorIndexes, base: nat): (i: nat)
    ensures base <= i < base + IntrinsicConstructorIndexesCount
  {
    base + ConstructorOrdinal(c)
  }

  /** `IntrinsicFunctionIndexes::get_builtin_function_index`: the second sub-range of the function family. */
  function FunctionIndexOf(f: IntrinsicFunctionIndexes, base: nat): (i: nat)
    ensures base + IntrinsicConstructorIndexesCount <= i < base + IntrinsicFunctionCount
  {
    base + IntrinsicConstructorIndexesCount + FunctionOrdinal(f)
  }

  /** `IntrinsicPrimitiveObjectIndexes::get_primitive_object_index`: the whole primitive-object family. */
  function PrimitiveObjectIndexOf(p: IntrinsicPrimitiveObjectIndexes, base: nat): (i: nat)
    ensures base <= i < base + IntrinsicPrimitiveObjectCount
  {
    base + PrimitiveObjectOrdinal(p)
  }
}
