/**
 * The statement list of `mark_values`: every intrinsic a realm enqueues for
 * marking, in order.
 */
module Marking {
  import opened Ordinals
  import opened Accessors

  /** The accessors `mark_values` enqueues, one entry per statement, in statement order. */
  const MarkOrder: seq<Accessor> :=
    // lines 1470-1487
    [
      Slot(ObjectSlot(IntrinsicObjectIndexes.AggregateErrorPrototype)),
      Slot(ConstructorFunctionSlot(IntrinsicConstructorIndexes.AggregateError)),
      Slot(FunctionSlot(IntrinsicFunctionIndexes.ArrayPrototypeSort)),
      Slot(FunctionSlot(IntrinsicFunctionIndexes.ArrayPrototypeToString)),
      Slot(FunctionSlot(IntrinsicFunctionIndexes.ArrayPrototypeValues)),
      Slot(ArrayPrototypeSlot),
      Slot(ConstructorFunctionSlot(IntrinsicConstructorIndexes.Array)),
      Slot(ObjectSlot(IntrinsicObjectIndexes.ArrayBufferPrototype)),
      Slot(ConstructorFunctionSlot(IntrinsicConstructorIndexes.ArrayBuffer)),
      Slot(ObjectSlot(IntrinsicObjectIndexes.ArrayIteratorPrototype)),
      Slot(ObjectSlot(IntrinsicObjectIndexes.AsyncFromSyncIteratorPrototype)),
      Slot(ObjectSlot(IntrinsicObjectIndexes.AsyncFunctionPrototype)),
      Slot(ConstructorFunctionSlot(IntrinsicConstructorIndexes.AsyncFunction)),
      Slot(ObjectSlot(IntrinsicObjectIndexes.AsyncGeneratorFunctionPrototype)),
      Slot(ConstructorFunctionSlot(IntrinsicConstructorIndexes.AsyncGeneratorFunction)),
      Slot(ObjectSlot(IntrinsicObjectIndexes.AsyncGeneratorPrototype))
    ]
    // lines 1488-1503
    + [
      Slot(ObjectSlot(IntrinsicObjectIndexes.AsyncIteratorPrototype)),
      Slot(ObjectSlot(IntrinsicObjectIndexes.AtomicsObject)),
      Slot(ObjectSlot(IntrinsicObjectIndexes.BigIntPrototype)),
      Slot(ConstructorFunctionSlot(IntrinsicConstructorIndexes.BigInt)),
      Slot(ConstructorFunctionSlot(IntrinsicConstructorIndexes.BigInt64Array)),
      Slot(ObjectSlot(IntrinsicObjectIndexes.BigInt64ArrayPrototype)),
      Slot(ConstructorFunctionSlot(IntrinsicConstructorIndexes.BigUint64Array)),
      Slot(ObjectSlot(IntrinsicObjectIndexes.BigUint64ArrayPrototype)),
      Slot(PrimitiveObjectSlot(IntrinsicPrimitiveObjectIndexes.BooleanPrototype)),
      Slot(ConstructorFunctionSlot(IntrinsicConstructorIndexes.Boolean)),
      Slot(ObjectSlot(IntrinsicObjectIndexes.DataViewPrototype)),
      Slot(ConstructorFunctionSlot(IntrinsicConstructorIndexes.DataView)),
      Slot(FunctionSlot(IntrinsicFunctionIndexes.DatePrototypeToUTCString)),
      Slot(ObjectSlot(IntrinsicObjectIndexes.DatePrototype)),
      Slot(ConstructorFunctionSlot(IntrinsicConstructorIndexes.Date)),
      Slot(FunctionSlot(IntrinsicFunctionIndexes.DecodeURI))
    ]
    // lines 1504-1519
    + [
      Slot(FunctionSlot(IntrinsicFunctionIndexes.DecodeURIComponent)),
      Slot(FunctionSlot(IntrinsicFunctionIndexes.EncodeURI)),
      Slot(FunctionSlot(IntrinsicFunctionIndexes.EncodeURIComponent)),
      Slot(ObjectSlot(IntrinsicObjectIndexes.ErrorPrototype)),
      Slot(ConstructorFunctionSlot(IntrinsicConstructorIndexes.Error)),
      Slot(FunctionSlot(IntrinsicFunctionIndexes.Escape)),
      Slot(FunctionSlot(IntrinsicFunctionIndexes.Eval)),
      Slot(ObjectSlot(IntrinsicObjectIndexes.EvalErrorPrototype)),
      Slot(ConstructorFunctionSlot(IntrinsicConstructorIndexes.EvalError)),
      Slot(ObjectSlot(IntrinsicObjectIndexes.FinalizationRegistryPrototype)),
      Slot(ConstructorFunctionSlot(IntrinsicConstructorIndexes.FinalizationRegistry)),
      Slot(ConstructorFunctionSlot(IntrinsicConstructorIndexes.Float32Array)),
      Slot(ObjectSlot(IntrinsicObjectIndexes.Float32ArrayPrototype)),
      Slot(ConstructorFunctionSlot(IntrinsicConstructorIndexes.Float64Array)),
      Slot(ObjectSlot(IntrinsicObjectIndexes.Float64ArrayPrototype)),
      Slot(ConstructorFunctionSlot(IntrinsicConstructorIndexes.FunctionPrototype))
    ]
    // lines 1520-1536
    + [
      Slot(ConstructorFunctionSlot(IntrinsicConstructorIndexes.Function)),
      Slot(FunctionSlot(IntrinsicFunctionIndexes.GeneratorFunctionPrototypePrototypeNext)),
      Slot(ObjectSlot(IntrinsicObjectIndexes.GeneratorFunctionPrototype)),
      Slot(ConstructorFunctionSlot(IntrinsicConstructorIndexes.GeneratorFunction)),
      Slot(ObjectSlot(IntrinsicObjectIndexes.GeneratorPrototype)),
      Slot(ConstructorFunctionSlot(IntrinsicConstructorIndexes.Int16Array)),
      Slot(ObjectSlot(IntrinsicObjectIndexes.Int16ArrayPrototype)),
      Slot(ConstructorFunctionSlot(IntrinsicConstructorIndexes.Int32Array)),
      Slot(ObjectSlot(IntrinsicObjectIndexes.Int32ArrayPrototype)),
      Slot(ConstructorFunctionSlot(IntrinsicConstructorIndexes.Int8Array)),
      Slot(ObjectSlot(IntrinsicObjectIndexes.Int8ArrayPrototype)),
      Slot(FunctionSlot(IntrinsicFunctionIndexes.IsFinite)),
      Slot(FunctionSlot(IntrinsicFunctionIndexes.IsNaN)),
      Slot(ObjectSlot(IntrinsicObjectIndexes.IteratorPrototype)),
      Slot(ObjectSlot(IntrinsicObjectIndexes.JSONObject)),
      Slot(FunctionSlot(IntrinsicFunctionIndexes.MapPrototypeEntries))
    ]
    // lines 1537-1552
    + [
      Slot(ObjectSlot(IntrinsicObjectIndexes.MapPrototype)),
      Slot(ConstructorFunctionSlot(IntrinsicConstructorIndexes.Map)),
      Slot(ObjectSlot(IntrinsicObjectIndexes.MapIteratorPrototype)),
      Slot(ObjectSlot(IntrinsicObjectIndexes.MathObject)),
      Slot(PrimitiveObjectSlot(IntrinsicPrimitiveObjectIndexes.NumberPrototype)),
      Slot(ConstructorFunctionSlot(IntrinsicConstructorIndexes.Number)),
      Slot(FunctionSlot(IntrinsicFunctionIndexes.ObjectPrototypeToString)),
      Slot(ObjectSlot(IntrinsicObjectIndexes.ObjectPrototype)),
      Slot(ConstructorFunctionSlot(IntrinsicConstructorIndexes.Object)),
      Slot(FunctionSlot(IntrinsicFunctionIndexes.ParseFloat)),
      Slot(FunctionSlot(IntrinsicFunctionIndexes.ParseInt)),
      Slot(ObjectSlot(IntrinsicObjectIndexes.PromisePrototype)),
      Slot(ConstructorFunctionSlot(IntrinsicConstructorIndexes.Promise)),
      Slot(ConstructorFunctionSlot(IntrinsicConstructorIndexes.Proxy)),
      Slot(ObjectSlot(IntrinsicObjectIndexes.RangeErrorPrototype)),
      Slot(ConstructorFunctionSlot(IntrinsicConstructorIndexes.RangeError))
    ]
    // lines 1553-1568
    + [
      Slot(ObjectSlot(IntrinsicObjectIndexes.ReferenceErrorPrototype)),
      Slot(ConstructorFunctionSlot(IntrinsicConstructorIndexes.ReferenceError)),
      Slot(ObjectSlot(IntrinsicObjectIndexes.ReflectObject)),
      Slot(FunctionSlot(IntrinsicFunctionIndexes.RegExpPrototypeExec)),
      Slot(ObjectSlot(IntrinsicObjectIndexes.RegExpPrototype)),
      Slot(ConstructorFunctionSlot(IntrinsicConstructorIndexes.RegExp)),
      Slot(ObjectSlot(IntrinsicObjectIndexes.RegExpStringIteratorPrototype)),
      Slot(FunctionSlot(IntrinsicFunctionIndexes.SetPrototypeValues)),
      Slot(ObjectSlot(IntrinsicObjectIndexes.SetPrototype)),
      Slot(ConstructorFunctionSlot(IntrinsicConstructorIndexes.Set)),
      Slot(ObjectSlot(IntrinsicObjectIndexes.SetIteratorPrototype)),
      Slot(ObjectSlot(IntrinsicObjectIndexes.SharedArrayBufferPrototype)),
      Slot(ConstructorFunctionSlot(IntrinsicConstructorIndexes.SharedArrayBuffer)),
      Slot(FunctionSlot(IntrinsicFunctionIndexes.StringPrototypeTrimEnd)),
      Slot(FunctionSlot(IntrinsicFunctionIndexes.StringPrototypeTrimStart)),
      Slot(PrimitiveObjectSlot(IntrinsicPrimitiveObjectIndexes.StringPrototype))
    ]
    // lines 1569-1584
    + [
      Slot(ConstructorFunctionSlot(IntrinsicConstructorIndexes.String)),
      Slot(ObjectSlot(IntrinsicObjectIndexes.StringIteratorPrototype)),
      Slot(ObjectSlot(IntrinsicObjectIndexes.SymbolPrototype)),
      Slot(ConstructorFunctionSlot(IntrinsicConstructorIndexes.Symbol)),
      Slot(ObjectSlot(IntrinsicObjectIndexes.SyntaxErrorPrototype)),
      Slot(ConstructorFunctionSlot(IntrinsicConstructorIndexes.SyntaxError)),
      Slot(FunctionSlot(IntrinsicFunctionIndexes.ThrowTypeError)),
      Slot(FunctionSlot(IntrinsicFunctionIndexes.TypedArrayPrototypeValues)),
      Slot(ObjectSlot(IntrinsicObjectIndexes.TypedArrayPrototype)),
      Slot(ConstructorFunctionSlot(IntrinsicConstructorIndexes.TypedArray)),
      Slot(ObjectSlot(IntrinsicObjectIndexes.TypedArrayPrototype)),
      Slot(ObjectSlot(IntrinsicObjectIndexes.TypeErrorPrototype)),
      Slot(ConstructorFunctionSlot(IntrinsicConstructorIndexes.TypeError)),
      Slot(ObjectSlot(IntrinsicObjectIndexes.TypeErrorPrototype)),
      Slot(ConstructorFunctionSlot(IntrinsicConstructorIndexes.Uint16Array)),
      Slot(ObjectSlot(IntrinsicObjectIndexes.Uint16ArrayPrototype))
    ]
    // lines 1585-1599
    + [
      Slot(ConstructorFunctionSlot(IntrinsicConstructorIndexes.Uint32Array)),
      Slot(ObjectSlot(IntrinsicObjectIndexes.Uint32ArrayPrototype)),
      Slot(ConstructorFunctionSlot(IntrinsicConstructorIndexes.Uint8Array)),
      Slot(ObjectSlot(IntrinsicObjectIndexes.Uint8ArrayPrototype)),
      Slot(ConstructorFunctionSlot(IntrinsicConstructorIndexes.Uint8ClampedArray)),
      Slot(ObjectSlot(IntrinsicObjectIndexes.Uint8ClampedArrayPrototype)),
      Slot(FunctionSlot(IntrinsicFunctionIndexes.Unescape)),
      Slot(ObjectSlot(IntrinsicObjectIndexes.URIErrorPrototype)),
      Slot(ConstructorFunctionSlot(IntrinsicConstructorIndexes.URIError)),
      Slot(ObjectSlot(IntrinsicObjectIndexes.WeakMapPrototype)),
      Slot(ConstructorFunctionSlot(IntrinsicConstructorIndexes.WeakMap)),
      Slot(ObjectSlot(IntrinsicObjectIndexes.WeakRefPrototype)),
      Slot(ConstructorFunctionSlot(IntrinsicConstructorIndexes.WeakRef)),
      Slot(ObjectSlot(IntrinsicObjectIndexes.WeakSetPrototype)),
      Slot(ConstructorFunctionSlot(IntrinsicConstructorIndexes.WeakSet))
    ]

  lemma ObjectSlotMarkedPart0(v: IntrinsicObjectIndexes)
    requires v.AggregateErrorPrototype? || v.ArrayBufferPrototype? || v.ArrayIteratorPrototype? || v.AsyncFromSyncIteratorPrototype? || v.AsyncFunctionPrototype? || v.AsyncGeneratorPrototype? || v.AsyncGeneratorFunctionPrototype? || v.AsyncIteratorPrototype?
    ensures Slot(ObjectSlot(v)) in MarkOrder
  {
    match v
    case AggregateErrorPrototype => assert MarkOrder[0] == Slot(ObjectSlot(v));
    case ArrayBufferPrototype => assert MarkOrder[7] == Slot(ObjectSlot(v));
    case ArrayIteratorPrototype => assert MarkOrder[9] == Slot(ObjectSlot(v));
    case AsyncFromSyncIteratorPrototype => assert MarkOrder[10] == Slot(ObjectSlot(v));
    case AsyncFunctionPrototype => assert MarkOrder[11] == Slot(ObjectSlot(v));
    case AsyncGeneratorPrototype => assert MarkOrder[15] == Slot(ObjectSlot(v));
    case AsyncGeneratorFunctionPrototype => assert MarkOrder[13] == Slot(ObjectSlot(v));
    case AsyncIteratorPrototype => assert MarkOrder[16] == Slot(ObjectSlot(v));
    case _ => assert false;
  }

  lemma ObjectSlotMarkedPart1(v: IntrinsicObjectIndexes)
    requires v.AtomicsObject? || v.BigIntPrototype? || v.BigInt64ArrayPrototype? || v.BigUint64ArrayPrototype? || v.DataViewPrototype? || v.DatePrototype? || v.ErrorPrototype? || v.EvalErrorPrototype?
    ensures Slot(ObjectSlot(v)) in MarkOrder
  {
    match v
    case AtomicsObject => assert MarkOrder[17] == Slot(ObjectSlot(v));
    case BigIntPrototype => assert MarkOrder[18] == Slot(ObjectSlot(v));
    case BigInt64ArrayPrototype => assert MarkOrder[21] == Slot(ObjectSlot(v));
    case BigUint64ArrayPrototype => assert MarkOrder[23] == Slot(ObjectSlot(v));
    case DataViewPrototype => assert MarkOrder[26] == Slot(ObjectSlot(v));
    case DatePrototype => assert MarkOrder[29] == Slot(ObjectSlot(v));
    case ErrorPrototype => assert MarkOrder[35] == Slot(ObjectSlot(v));
    case EvalErrorPrototype => assert MarkOrder[39] == Slot(ObjectSlot(v));
    case _ => assert false;
  }

  lemma ObjectSlotMarkedPart2(v: IntrinsicObjectIndexes)
    requires v.FinalizationRegistryPrototype? || v.Float32ArrayPrototype? || v.Float64ArrayPrototype? || v.GeneratorPrototype? || v.GeneratorFunctionPrototype? || v.Int16ArrayPrototype? || v.Int32ArrayPrototype? || v.Int8ArrayPrototype?
    ensures Slot(ObjectSlot(v)) in MarkOrder
  {
    match v
    case FinalizationRegistryPrototype => assert MarkOrder[41] == Slot(ObjectSlot(v));
    case Float32ArrayPrototype => assert MarkOrder[44] == Slot(ObjectSlot(v));
    case Float64ArrayPrototype => assert MarkOrder[46] == Slot(ObjectSlot(v));
    case GeneratorPrototype => assert MarkOrder[52] == Slot(ObjectSlot(v));
    case GeneratorFunctionPrototype => assert MarkOrder[50] == Slot(ObjectSlot(v));
    case Int16ArrayPrototype => assert MarkOrder[54] == Slot(ObjectSlot(v));
    case Int32ArrayPrototype => assert MarkOrder[56] == Slot(ObjectSlot(v));
    case Int8ArrayPrototype => assert MarkOrder[58] == Slot(ObjectSlot(v));
    case _ => assert false;
  }

  lemma ObjectSlotMarkedPart3(v: IntrinsicObjectIndexes)
    requires v.IteratorPrototype? || v.JSONObject? || v.MapPrototype? || v.MapIteratorPrototype? || v.MathObject? || v.ObjectPrototype? || v.PromisePrototype? || v.RangeErrorPrototype?
    ensures Slot(ObjectSlot(v)) in MarkOrder
  {
    match v
    case IteratorPrototype => assert MarkOrder[61] == Slot(ObjectSlot(v));
    case JSONObject => assert MarkOrder[62] == Slot(ObjectSlot(v));
    case MapPrototype => assert MarkOrder[64] == Slot(ObjectSlot(v));
    case MapIteratorPrototype => assert MarkOrder[66] == Slot(ObjectSlot(v));
    case MathObject => assert MarkOrder[67] == Slot(ObjectSlot(v));
    case ObjectPrototype => assert MarkOrder[71] == Slot(ObjectSlot(v));
    case PromisePrototype => assert MarkOrder[75] == Slot(ObjectSlot(v));
    case RangeErrorPrototype => assert MarkOrder[78] == Slot(ObjectSlot(v));
    case _ => assert false;
  }

  lemma ObjectSlotMarkedPart4(v: IntrinsicObjectIndexes)
    requires v.ReferenceErrorPrototype? || v.ReflectObject? || v.RegExpPrototype? || v.RegExpStringIteratorPrototype? || v.SetPrototype? || v.SetIteratorPrototype? || v.SharedArrayBufferPrototype? || v.StringIteratorPrototype?
    ensures Slot(ObjectSlot(v)) in MarkOrder
  {
    match v
    case ReferenceErrorPrototype => assert MarkOrder[80] == Slot(ObjectSlot(v));
    case ReflectObject => assert MarkOrder[82] == Slot(ObjectSlot(v));
    case RegExpPrototype => assert MarkOrder[84] == Slot(ObjectSlot(v));
    case RegExpStringIteratorPrototype => assert MarkOrder[86] == Slot(ObjectSlot(v));
    case SetPrototype => assert MarkOrder[88] == Slot(ObjectSlot(v));
    case SetIteratorPrototype => assert MarkOrder[90] == Slot(ObjectSlot(v));
    case SharedArrayBufferPrototype => assert MarkOrder[91] == Slot(ObjectSlot(v));
    case StringIteratorPrototype => assert MarkOrder[97] == Slot(ObjectSlot(v));
    case _ => assert false;
  }

  lemma ObjectSlotMarkedPart5(v: IntrinsicObjectIndexes)
    requires v.SymbolPrototype? || v.SyntaxErrorPrototype? || v.TypedArrayPrototype? || v.TypeErrorPrototype? || v.Uint16ArrayPrototype? || v.Uint32ArrayPrototype? || v.Uint8ArrayPrototype? || v.Uint8ClampedArrayPrototype?
    ensures Slot(ObjectSlot(v)) in MarkOrder
  {
    match v
    case SymbolPrototype => assert MarkOrder[98] == Slot(ObjectSlot(v));
    case SyntaxErrorPrototype => assert MarkOrder[100] == Slot(ObjectSlot(v));
    case TypedArrayPrototype => assert MarkOrder[104] == Slot(ObjectSlot(v));
    case TypeErrorPrototype => assert MarkOrder[107] == Slot(ObjectSlot(v));
    case Uint16ArrayPrototype => assert MarkOrder[111] == Slot(ObjectSlot(v));
    case Uint32ArrayPrototype => assert MarkOrder[113] == Slot(ObjectSlot(v));
    case Uint8ArrayPrototype => assert MarkOrder[115] == Slot(ObjectSlot(v));
    case Uint8ClampedArrayPrototype => assert MarkOrder[117] == Slot(ObjectSlot(v));
    case _ => assert false;
  }

  lemma ObjectSlotMarkedPart6(v: IntrinsicObjectIndexes)
    requires v.URIErrorPrototype? || v.WeakMapPrototype? || v.WeakRefPrototype? || v.WeakSetPrototype?
    ensures Slot(ObjectSlot(v)) in MarkOrder
  {
    match v
    case URIErrorPrototype => assert MarkOrder[119] == Slot(ObjectSlot(v));
    case WeakMapPrototype => assert MarkOrder[121] == Slot(ObjectSlot(v));
    case WeakRefPrototype => assert MarkOrder[123] == Slot(ObjectSlot(v));
    case WeakSetPrototype => assert MarkOrder[125] == Slot(ObjectSlot(v));
    case _ => assert false;
  }

  /** Every `ObjectSlot` that is not a property bag is marked. */
  lemma ObjectSlotMarked(v: IntrinsicObjectIndexes)
    requires v != IntrinsicObjectIndexes.ArrayPrototype
    ensures Slot(ObjectSlot(v)) in MarkOrder
  {
    match v
    case ArrayPrototype => assert false;
    case AggregateErrorPrototype => ObjectSlotMarkedPart0(v);
    case ArrayBufferPrototype => ObjectSlotMarkedPart0(v);
    case ArrayIteratorPrototype => ObjectSlotMarkedPart0(v);
    case AsyncFromSyncIteratorPrototype => ObjectSlotMarkedPart0(v);
    case AsyncFunctionPrototype => ObjectSlotMarkedPart0(v);
    case AsyncGeneratorPrototype => ObjectSlotMarkedPart0(v);
    case AsyncGeneratorFunctionPrototype => ObjectSlotMarkedPart0(v);
    case AsyncIteratorPrototype => ObjectSlotMarkedPart0(v);
    case AtomicsObject => ObjectSlotMarkedPart1(v);
    case BigIntPrototype => ObjectSlotMarkedPart1(v);
    case BigInt64ArrayPrototype => ObjectSlotMarkedPart1(v);
    case BigUint64ArrayPrototype => ObjectSlotMarkedPart1(v);
    case DataViewPrototype => ObjectSlotMarkedPart1(v);
    case DatePrototype => ObjectSlotMarkedPart1(v);
    case ErrorPrototype => ObjectSlotMarkedPart1(v);
    case EvalErrorPrototype => ObjectSlotMarkedPart1(v);
    case FinalizationRegistryPrototype => ObjectSlotMarkedPart2(v);
    case Float32ArrayPrototype => ObjectSlotMarkedPart2(v);
    case Float64ArrayPrototype => ObjectSlotMarkedPart2(v);
    case GeneratorPrototype => ObjectSlotMarkedPart2(v);
    case GeneratorFunctionPrototype => ObjectSlotMarkedPart2(v);
    case Int16ArrayPrototype => ObjectSlotMarkedPart2(v);
    case Int32ArrayPrototype => ObjectSlotMarkedPart2(v);
    case Int8ArrayPrototype => ObjectSlotMarkedPart2(v);
    case IteratorPrototype => ObjectSlotMarkedPart3(v);
    case JSONObject => ObjectSlotMarkedPart3(v);
    case MapPrototype => ObjectSlotMarkedPart3(v);
    case MapIteratorPrototype => ObjectSlotMarkedPart3(v);
    case MathObject => ObjectSlotMarkedPart3(v);
    case ObjectPrototype => ObjectSlotMarkedPart3(v);
    case PromisePrototype => ObjectSlotMarkedPart3(v);
    case RangeErrorPrototype => ObjectSlotMarkedPart3(v);
    case ReferenceErrorPrototype => ObjectSlotMarkedPart4(v);
    case ReflectObject => ObjectSlotMarkedPart4(v);
    case RegExpPrototype => ObjectSlotMarkedPart4(v);
    case RegExpStringIteratorPrototype => ObjectSlotMarkedPart4(v);
    case SetPrototype => ObjectSlotMarkedPart4(v);
    case SetIteratorPrototype => ObjectSlotMarkedPart4(v);
    case SharedArrayBufferPrototype => ObjectSlotMarkedPart4(v);
    case StringIteratorPrototype => ObjectSlotMarkedPart4(v);
    case SymbolPrototype => ObjectSlotMarkedPart5(v);
    case SyntaxErrorPrototype => ObjectSlotMarkedPart5(v);
    case TypedArrayPrototype => ObjectSlotMarkedPart5(v);
    case TypeErrorPrototype => ObjectSlotMarkedPart5(v);
    case Uint16ArrayPrototype => ObjectSlotMarkedPart5(v);
    case Uint32ArrayPrototype => ObjectSlotMarkedPart5(v);
    case Uint8ArrayPrototype => ObjectSlotMarkedPart5(v);
    case Uint8ClampedArrayPrototype => ObjectSlotMarkedPart5(v);
    case URIErrorPrototype => ObjectSlotMarkedPart6(v);
    case WeakMapPrototype => ObjectSlotMarkedPart6(v);
    case WeakRefPrototype => ObjectSlotMarkedPart6(v);
    case WeakSetPrototype => ObjectSlotMarkedPart6(v);
  }

  lemma ConstructorFunctionSlotMarkedPart0(v: IntrinsicConstructorIndexes)
    requires v.AggregateError? || v.Array? || v.ArrayBuffer? || v.AsyncFunction? || v.AsyncGeneratorFunction? || v.BigInt? || v.BigInt64Array? || v.BigUint64Array?
    ensures Slot(ConstructorFunctionSlot(v)) in MarkOrder
  {
    match v
    case AggregateError => assert MarkOrder[1] == Slot(ConstructorFunctionSlot(v));
    case Array => assert MarkOrder[6] == Slot(ConstructorFunctionSlot(v));
    case ArrayBuffer => assert MarkOrder[8] == Slot(ConstructorFunctionSlot(v));
    case AsyncFunction => assert MarkOrder[12] == Slot(ConstructorFunctionSlot(v));
    case AsyncGeneratorFunction => assert MarkOrder[14] == Slot(ConstructorFunctionSlot(v));
    case BigInt => assert MarkOrder[19] == Slot(ConstructorFunctionSlot(v));
    case BigInt64Array => assert MarkOrder[20] == Slot(ConstructorFunctionSlot(v));
    case BigUint64Array => assert MarkOrder[22] == Slot(ConstructorFunctionSlot(v));
    case _ => assert false;
  }

  lemma ConstructorFunctionSlotMarkedPart1(v: IntrinsicConstructorIndexes)
    requires v.Boolean? || v.DataView? || v.Date? || v.Error? || v.EvalError? || v.FinalizationRegistry? || v.Float32Array? || v.Float64Array?
    ensures Slot(ConstructorFunctionSlot(v)) in MarkOrder
  {
    match v
    case Boolean => assert MarkOrder[25] == Slot(ConstructorFunctionSlot(v));
    case DataView => assert MarkOrder[27] == Slot(ConstructorFunctionSlot(v));
    case Date => assert MarkOrder[30] == Slot(ConstructorFunctionSlot(v));
    case Error => assert MarkOrder[36] == Slot(ConstructorFunctionSlot(v));
    case EvalError => assert MarkOrder[40] == Slot(ConstructorFunctionSlot(v));
    case FinalizationRegistry => assert MarkOrder[42] == Slot(ConstructorFunctionSlot(v));
    case Float32Array => assert MarkOrder[43] == Slot(ConstructorFunctionSlot(v));
    case Float64Array => assert MarkOrder[45] == Slot(ConstructorFunctionSlot(v));
    case _ => assert false;
  }

  lemma ConstructorFunctionSlotMarkedPart2(v: IntrinsicConstructorIndexes)
    requires v.FunctionPrototype? || v.Function? || v.GeneratorFunction? || v.Int16Array? || v.Int32Array? || v.Int8Array? || v.Map? || v.Number?
    ensures Slot(ConstructorFunctionSlot(v)) in MarkOrder
  {
    match v
    case FunctionPrototype => assert MarkOrder[47] == Slot(ConstructorFunctionSlot(v));
    case Function => assert MarkOrder[48] == Slot(ConstructorFunctionSlot(v));
    case GeneratorFunction => assert MarkOrder[51] == Slot(ConstructorFunctionSlot(v));
    case Int16Array => assert MarkOrder[53] == Slot(ConstructorFunctionSlot(v));
    case Int32Array => assert MarkOrder[55] == Slot(ConstructorFunctionSlot(v));
    case Int8Array => assert MarkOrder[57] == Slot(ConstructorFunctionSlot(v));
    case Map => assert MarkOrder[65] == Slot(ConstructorFunctionSlot(v));
    case Number => assert MarkOrder[69] == Slot(ConstructorFunctionSlot(v));
    case _ => assert false;
  }

  lemma ConstructorFunctionSlotMarkedPart3(v: IntrinsicConstructorIndexes)
    requires v.Object? || v.Promise? || v.Proxy? || v.RangeError? || v.ReferenceError? || v.RegExp? || v.Set? || v.SharedArrayBuffer?
    ensures Slot(ConstructorFunctionSlot(v)) in MarkOrder
  {
    match v
    case Object => assert MarkOrder[72] == Slot(ConstructorFunctionSlot(v));
    case Promise => assert MarkOrder[76] == Slot(ConstructorFunctionSlot(v));
    case Proxy => assert MarkOrder[77] == Slot(ConstructorFunctionSlot(v));
    case RangeError => assert MarkOrder[79] == Slot(ConstructorFunctionSlot(v));
    case ReferenceError => assert MarkOrder[81] == Slot(ConstructorFunctionSlot(v));
    case RegExp => assert MarkOrder[85] == Slot(ConstructorFunctionSlot(v));
    case Set => assert MarkOrder[89] == Slot(ConstructorFunctionSlot(v));
    case SharedArrayBuffer => assert MarkOrder[92] == Slot(ConstructorFunctionSlot(v));
    case _ => assert false;
  }

  lemma ConstructorFunctionSlotMarkedPart4(v: IntrinsicConstructorIndexes)
    requires v.String? || v.Symbol? || v.SyntaxError? || v.TypedArray? || v.TypeError? || v.Uint16Array? || v.Uint32Array? || v.Uint8Array?
    ensures Slot(ConstructorFunctionSlot(v)) in MarkOrder
  {
    match v
    case String => assert MarkOrder[96] == Slot(ConstructorFunctionSlot(v));
    case Symbol => assert MarkOrder[99] == Slot(ConstructorFunctionSlot(v));
    case SyntaxError => assert MarkOrder[101] == Slot(ConstructorFunctionSlot(v));
    case TypedArray => assert MarkOrder[105] == Slot(ConstructorFunctionSlot(v));
    case TypeError => assert MarkOrder[108] == Slot(ConstructorFunctionSlot(v));
    case Uint16Array => assert MarkOrder[110] == Slot(ConstructorFunctionSlot(v));
    case Uint32Array => assert MarkOrder[112] == Slot(ConstructorFunctionSlot(v));
    case Uint8Array => assert MarkOrder[114] == Slot(ConstructorFunctionSlot(v));
    case _ => assert false;
  }

  lemma ConstructorFunctionSlotMarkedPart5(v: IntrinsicConstructorIndexes)
    requires v.Uint8ClampedArray? || v.URIError? || v.WeakMap? || v.WeakRef? || v.WeakSet?
    ensures Slot(ConstructorFunctionSlot(v)) in MarkOrder
  {
    match v
    case Uint8ClampedArray => assert MarkOrder[116] == Slot(ConstructorFunctionSlot(v));
    case URIError => assert MarkOrder[120] == Slot(ConstructorFunctionSlot(v));
    case WeakMap => assert MarkOrder[122] == Slot(ConstructorFunctionSlot(v));
    case WeakRef => assert MarkOrder[124] == Slot(ConstructorFunctionSlot(v));
    case WeakSet => assert MarkOrder[126] == Slot(ConstructorFunctionSlot(v));
    case _ => assert false;
  }

  /** Every `ConstructorFunctionSlot` that is not a property bag is marked. */
  lemma ConstructorFunctionSlotMarked(v: IntrinsicConstructorIndexes)
    ensures Slot(ConstructorFunctionSlot(v)) in MarkOrder
  {
    match v
    case AggregateError => ConstructorFunctionSlotMarkedPart0(v);
    case Array => ConstructorFunctionSlotMarkedPart0(v);
    case ArrayBuffer => ConstructorFunctionSlotMarkedPart0(v);
    case AsyncFunction => ConstructorFunctionSlotMarkedPart0(v);
    case AsyncGeneratorFunction => ConstructorFunctionSlotMarkedPart0(v);
    case BigInt => ConstructorFunctionSlotMarkedPart0(v);
    case BigInt64Array => ConstructorFunctionSlotMarkedPart0(v);
    case BigUint64Array => ConstructorFunctionSlotMarkedPart0(v);
    case Boolean => ConstructorFunctionSlotMarkedPart1(v);
    case DataView => ConstructorFunctionSlotMarkedPart1(v);
    case Date => ConstructorFunctionSlotMarkedPart1(v);
    case Error => ConstructorFunctionSlotMarkedPart1(v);
    case EvalError => ConstructorFunctionSlotMarkedPart1(v);
    case FinalizationRegistry => ConstructorFunctionSlotMarkedPart1(v);
    case Float32Array => ConstructorFunctionSlotMarkedPart1(v);
    case Float64Array => ConstructorFunctionSlotMarkedPart1(v);
    case FunctionPrototype => ConstructorFunctionSlotMarkedPart2(v);
    case Function => ConstructorFunctionSlotMarkedPart2(v);
    case GeneratorFunction => ConstructorFunctionSlotMarkedPart2(v);
    case Int16Array => ConstructorFunctionSlotMarkedPart2(v);
    case Int32Array => ConstructorFunctionSlotMarkedPart2(v);
    case Int8Array => ConstructorFunctionSlotMarkedPart2(v);
    case Map => ConstructorFunctionSlotMarkedPart2(v);
    case Number => ConstructorFunctionSlotMarkedPart2(v);
    case Object => ConstructorFunctionSlotMarkedPart3(v);
    case Promise => ConstructorFunctionSlotMarkedPart3(v);
    case Proxy => ConstructorFunctionSlotMarkedPart3(v);
    case RangeError => ConstructorFunctionSlotMarkedPart3(v);
    case ReferenceError => ConstructorFunctionSlotMarkedPart3(v);
    case RegExp => ConstructorFunctionSlotMarkedPart3(v);
    case Set => ConstructorFunctionSlotMarkedPart3(v);
    case SharedArrayBuffer => ConstructorFunctionSlotMarkedPart3(v);
    case String => ConstructorFunctionSlotMarkedPart4(v);
    case Symbol => ConstructorFunctionSlotMarkedPart4(v);
    case SyntaxError => ConstructorFunctionSlotMarkedPart4(v);
    case TypedArray => ConstructorFunctionSlotMarkedPart4(v);
    case TypeError => ConstructorFunctionSlotMarkedPart4(v);
    case Uint16Array => ConstructorFunctionSlotMarkedPart4(v);
    case Uint32Array => ConstructorFunctionSlotMarkedPart4(v);
    case Uint8Array => ConstructorFunctionSlotMarkedPart4(v);
    case Uint8ClampedArray => ConstructorFunctionSlotMarkedPart5(v);
    case URIError => ConstructorFunctionSlotMarkedPart5(v);
    case WeakMap => ConstructorFunctionSlotMarkedPart5(v);
    case WeakRef => ConstructorFunctionSlotMarkedPart5(v);
    case WeakSet => ConstructorFunctionSlotMarkedPart5(v);
  }

  lemma FunctionSlotMarkedPart0(v: IntrinsicFunctionIndexes)
    requires v.ArrayPrototypeSort? || v.ArrayPrototypeToString? || v.ArrayPrototypeValues? || v.DatePrototypeToUTCString? || v.DecodeURI? || v.DecodeURIComponent? || v.EncodeURI? || v.EncodeURIComponent?
    ensures Slot(FunctionSlot(v)) in MarkOrder
  {
    match v
    case ArrayPrototypeSort => assert MarkOrder[2] == Slot(FunctionSlot(v));
    case ArrayPrototypeToString => assert MarkOrder[3] == Slot(FunctionSlot(v));
    case ArrayPrototypeValues => assert MarkOrder[4] == Slot(FunctionSlot(v));
    case DatePrototypeToUTCString => assert MarkOrder[28] == Slot(FunctionSlot(v));
    case DecodeURI => assert MarkOrder[31] == Slot(FunctionSlot(v));
    case DecodeURIComponent => assert MarkOrder[32] == Slot(FunctionSlot(v));
    case EncodeURI => assert MarkOrder[33] == Slot(FunctionSlot(v));
    case EncodeURIComponent => assert MarkOrder[34] == Slot(FunctionSlot(v));
    case _ => assert false;
  }

  lemma FunctionSlotMarkedPart1(v: IntrinsicFunctionIndexes)
    requires v.Escape? || v.Eval? || v.GeneratorFunctionPrototypePrototypeNext? || v.IsFinite? || v.IsNaN? || v.MapPrototypeEntries? || v.ObjectPrototypeToString? || v.ParseFloat?
    ensures Slot(FunctionSlot(v)) in MarkOrder
  {
    match v
    case Escape => assert MarkOrder[37] == Slot(FunctionSlot(v));
    case Eval => assert MarkOrder[38] == Slot(FunctionSlot(v));
    case GeneratorFunctionPrototypePrototypeNext => assert MarkOrder[49] == Slot(FunctionSlot(v));
    case IsFinite => assert MarkOrder[59] == Slot(FunctionSlot(v));
    case IsNaN => assert MarkOrder[60] == Slot(FunctionSlot(v));
    case MapPrototypeEntries => assert MarkOrder[63] == Slot(FunctionSlot(v));
    case ObjectPrototypeToString => assert MarkOrder[70] == Slot(FunctionSlot(v));
    case ParseFloat => assert MarkOrder[73] == Slot(FunctionSlot(v));
    case _ => assert false;
  }

  lemma FunctionSlotMarkedPart2(v: IntrinsicFunctionIndexes)
    requires v.ParseInt? || v.RegExpPrototypeExec? || v.SetPrototypeValues? || v.StringPrototypeTrimEnd? || v.StringPrototypeTrimStart? || v.ThrowTypeError? || v.TypedArrayPrototypeValues? || v.Unescape?
    ensures Slot(FunctionSlot(v)) in MarkOrder
  {
    match v
    case ParseInt => assert MarkOrder[74] == Slot(FunctionSlot(v));
    case RegExpPrototypeExec => assert MarkOrder[83] == Slot(FunctionSlot(v));
    case SetPrototypeValues => assert MarkOrder[87] == Slot(FunctionSlot(v));
    case StringPrototypeTrimEnd => assert MarkOrder[93] == Slot(FunctionSlot(v));
    case StringPrototypeTrimStart => assert MarkOrder[94] == Slot(FunctionSlot(v));
    case ThrowTypeError => assert MarkOrder[102] == Slot(FunctionSlot(v));
    case TypedArrayPrototypeValues => assert MarkOrder[103] == Slot(FunctionSlot(v));
    case Unescape => assert MarkOrder[118] == Slot(FunctionSlot(v));
    case _ => assert false;
  }

  /** Every `FunctionSlot` that is not a property bag is marked. */
  lemma FunctionSlotMarked(v: IntrinsicFunctionIndexes)
    ensures Slot(FunctionSlot(v)) in MarkOrder
  {
    match v
    case ArrayPrototypeSort => FunctionSlotMarkedPart0(v);
    case ArrayPrototypeToString => FunctionSlotMarkedPart0(v);
    case ArrayPrototypeValues => FunctionSlotMarkedPart0(v);
    case DatePrototypeToUTCString => FunctionSlotMarkedPart0(v);
    case DecodeURI => FunctionSlotMarkedPart0(v);
    case DecodeURIComponent => FunctionSlotMarkedPart0(v);
    case EncodeURI => FunctionSlotMarkedPart0(v);
    case EncodeURIComponent => FunctionSlotMarkedPart0(v);
    case Escape => FunctionSlotMarkedPart1(v);
    case Eval => FunctionSlotMarkedPart1(v);
    case GeneratorFunctionPrototypePrototypeNext => FunctionSlotMarkedPart1(v);
    case IsFinite => FunctionSlotMarkedPart1(v);
    case IsNaN => FunctionSlotMarkedPart1(v);
    case MapPrototypeEntries => FunctionSlotMarkedPart1(v);
    case ObjectPrototypeToString => FunctionSlotMarkedPart1(v);
    case ParseFloat => FunctionSlotMarkedPart1(v);
    case ParseInt => FunctionSlotMarkedPart2(v);
    case RegExpPrototypeExec => FunctionSlotMarkedPart2(v);
    case SetPrototypeValues => FunctionSlotMarkedPart2(v);
    case StringPrototypeTrimEnd => FunctionSlotMarkedPart2(v);
    case StringPrototypeTrimStart => FunctionSlotMarkedPart2(v);
    case ThrowTypeError => FunctionSlotMarkedPart2(v);
    case TypedArrayPrototypeValues => FunctionSlotMarkedPart2(v);
    case Unescape => FunctionSlotMarkedPart2(v);
  }

  /** Every `PrimitiveObjectSlot` that is not a property bag is marked. */
  lemma PrimitiveObjectSlotMarked(v: IntrinsicPrimitiveObjectIndexes)
    ensures Slot(PrimitiveObjectSlot(v)) in MarkOrder
  {
    match v
    case BooleanPrototype => assert MarkOrder[24] == Slot(PrimitiveObjectSlot(v));
    case NumberPrototype => assert MarkOrder[68] == Slot(PrimitiveObjectSlot(v));
    case StringPrototype => assert MarkOrder[95] == Slot(PrimitiveObjectSlot(v));
  }

  /** The slot every accessor other than the `*_base_object` ones reads is marked. */
  lemma MarkOrderCovers(a: Accessor)
    requires !IsBaseObjectAccessor(a)
    ensures Slot(AccessorSlot(a)) in MarkOrder
  {
    match a
    case Slot(ObjectSlot(v)) => ObjectSlotMarked(v);
    case Slot(ConstructorFunctionSlot(v)) => ConstructorFunctionSlotMarked(v);
    case Slot(ConstructorObjectSlot(_)) => assert false;
    case Slot(FunctionSlot(v)) => FunctionSlotMarked(v);
    case Slot(PrimitiveObjectSlot(v)) => PrimitiveObjectSlotMarked(v);
    case Slot(PrimitiveBaseObjectSlot(_)) => assert false;
    case Slot(ArrayPrototypeSlot) =>
    case GeneratorFunctionPrototypePrototype => ObjectSlotMarked(IntrinsicObjectIndexes.GeneratorPrototype);
    case AsyncGeneratorFunctionPrototypePrototype => ObjectSlotMarked(IntrinsicObjectIndexes.AsyncGeneratorPrototype);
  }

  lemma MarkOrderSkipsBaseObjectsPart0(i: nat)
    requires 0 <= i < 8
    ensures MarkOrder[i].Slot? && !IsBaseObjectSlot(MarkOrder[i].slot)
  {
    match i
    case 0 =>
    case 1 =>
    case 2 =>
    case 3 =>
    case 4 =>
    case 5 =>
    case 6 =>
    case _ =>
  }

  lemma MarkOrderSkipsBaseObjectsPart1(i: nat)
    requires 8 <= i < 16
    ensures MarkOrder[i].Slot? && !IsBaseObjectSlot(MarkOrder[i].slot)
  {
    match i
    case 8 =>
    case 9 =>
    case 10 =>
    case 11 =>
    case 12 =>
    case 13 =>
    case 14 =>
    case _ =>
  }

  lemma MarkOrderSkipsBaseObjectsPart2(i: nat)
    requires 16 <= i < 24
    ensures MarkOrder[i].Slot? && !IsBaseObjectSlot(MarkOrder[i].slot)
  {
    match i
    case 16 =>
    case 17 =>
    case 18 =>
    case 19 =>
    case 20 =>
    case 21 =>
    case 22 =>
    case _ =>
  }

  lemma MarkOrderSkipsBaseObjectsPart3(i: nat)
    requires 24 <= i < 32
    ensures MarkOrder[i].Slot? && !IsBaseObjectSlot(MarkOrder[i].slot)
  {
    match i
    case 24 =>
    case 25 =>
    case 26 =>
    case 27 =>
    case 28 =>
    case 29 =>
    case 30 =>
    case _ =>
  }

  lemma MarkOrderSkipsBaseObjectsPart4(i: nat)
    requires 32 <= i < 40
    ensures MarkOrder[i].Slot? && !IsBaseObjectSlot(MarkOrder[i].slot)
  {
    match i
    case 32 =>
    case 33 =>
    case 34 =>
    case 35 =>
    case 36 =>
    case 37 =>
    case 38 =>
    case _ =>
  }

  lemma MarkOrderSkipsBaseObjectsPart5(i: nat)
    requires 40 <= i < 48
    ensures MarkOrder[i].Slot? && !IsBaseObjectSlot(MarkOrder[i].slot)
  {
    match i
    case 40 =>
    case 41 =>
    case 42 =>
    case 43 =>
    case 44 =>
    case 45 =>
    case 46 =>
    case _ =>
  }

  lemma MarkOrderSkipsBaseObjectsPart6(i: nat)
    requires 48 <= i < 56
    ensures MarkOrder[i].Slot? && !IsBaseObjectSlot(MarkOrder[i].slot)
  {
    match i
    case 48 =>
    case 49 =>
    case 50 =>
    case 51 =>
    case 52 =>
    case 53 =>
    case 54 =>
    case _ =>
  }

  lemma MarkOrderSkipsBaseObjectsPart7(i: nat)
    requires 56 <= i < 64
    ensures MarkOrder[i].Slot? && !IsBaseObjectSlot(MarkOrder[i].slot)
  {
    match i
    case 56 =>
    case 57 =>
    case 58 =>
    case 59 =>
    case 60 =>
    case 61 =>
    case 62 =>
    case _ =>
  }

  lemma MarkOrderSkipsBaseObjectsPart8(i: nat)
    requires 64 <= i < 72
    ensures MarkOrder[i].Slot? && !IsBaseObjectSlot(MarkOrder[i].slot)
  {
    match i
    case 64 =>
    case 65 =>
    case 66 =>
    case 67 =>
    case 68 =>
    case 69 =>
    case 70 =>
    case _ =>
  }

  lemma MarkOrderSkipsBaseObjectsPart9(i: nat)
    requires 72 <= i < 80
    ensures MarkOrder[i].Slot? && !IsBaseObjectSlot(MarkOrder[i].slot)
  {
    match i
    case 72 =>
    case 73 =>
    case 74 =>
    case 75 =>
    case 76 =>
    case 77 =>
    case 78 =>
    case _ =>
  }

  lemma MarkOrderSkipsBaseObjectsPart10(i: nat)
    requires 80 <= i < 88
    ensures MarkOrder[i].Slot? && !IsBaseObjectSlot(MarkOrder[i].slot)
  {
    match i
    case 80 =>
    case 81 =>
    case 82 =>
    case 83 =>
    case 84 =>
    case 85 =>
    case 86 =>
    case _ =>
  }

  lemma MarkOrderSkipsBaseObjectsPart11(i: nat)
    requires 88 <= i < 96
    ensures MarkOrder[i].Slot? && !IsBaseObjectSlot(MarkOrder[i].slot)
  {
    match i
    case 88 =>
    case 89 =>
    case 90 =>
    case 91 =>
    case 92 =>
    case 93 =>
    case 94 =>
    case _ =>
  }

  lemma MarkOrderSkipsBaseObjectsPart12(i: nat)
    requires 96 <= i < 104
    ensures MarkOrder[i].Slot? && !IsBaseObjectSlot(MarkOrder[i].slot)
  {
    match i
    case 96 =>
    case 97 =>
    case 98 =>
    case 99 =>
    case 100 =>
    case 101 =>
    case 102 =>
    case _ =>
  }

  lemma MarkOrderSkipsBaseObjectsPart13(i: nat)
    requires 104 <= i < 112
    ensures MarkOrder[i].Slot? && !IsBaseObjectSlot(MarkOrder[i].slot)
  {
    match i
    case 104 =>
    case 105 =>
    case 106 =>
    case 107 =>
    case 108 =>
    case 109 =>
    case 110 =>
    case _ =>
  }

  lemma MarkOrderSkipsBaseObjectsPart14(i: nat)
    requires 112 <= i < 120
    ensures MarkOrder[i].Slot? && !IsBaseObjectSlot(MarkOrder[i].slot)
  {
    match i
    case 112 =>
    case 113 =>
    case 114 =>
    case 115 =>
    case 116 =>
    case 117 =>
    case 118 =>
    case _ =>
  }

  lemma MarkOrderSkipsBaseObjectsPart15(i: nat)
    requires 120 <= i < 127
    ensures MarkOrder[i].Slot? && !IsBaseObjectSlot(MarkOrder[i].slot)
  {
    match i
    case 120 =>
    case 121 =>
    case 122 =>
    case 123 =>
    case 124 =>
    case 125 =>
    case _ =>
  }

  /** Every statement of `mark_values` calls a non-alias accessor that is not a `*_base_object` one. */
  lemma MarkOrderSkipsBaseObjects(i: nat)
    requires i < |MarkOrder|
    ensures MarkOrder[i].Slot? && !IsBaseObjectSlot(MarkOrder[i].slot)
  {
    if i < 8 {
      MarkOrderSkipsBaseObjectsPart0(i);
    } else if i < 16 {
      MarkOrderSkipsBaseObjectsPart1(i);
    } else if i < 24 {
      MarkOrderSkipsBaseObjectsPart2(i);
    } else if i < 32 {
      MarkOrderSkipsBaseObjectsPart3(i);
    } else if i < 40 {
      MarkOrderSkipsBaseObjectsPart4(i);
    } else if i < 48 {
      MarkOrderSkipsBaseObjectsPart5(i);
    } else if i < 56 {
      MarkOrderSkipsBaseObjectsPart6(i);
    } else if i < 64 {
      MarkOrderSkipsBaseObjectsPart7(i);
    } else if i < 72 {
      MarkOrderSkipsBaseObjectsPart8(i);
    } else if i < 80 {
      MarkOrderSkipsBaseObjectsPart9(i);
    } else if i < 88 {
      MarkOrderSkipsBaseObjectsPart10(i);
    } else if i < 96 {
      MarkOrderSkipsBaseObjectsPart11(i);
    } else if i < 104 {
      MarkOrderSkipsBaseObjectsPart12(i);
    } else if i < 112 {
      MarkOrderSkipsBaseObjectsPart13(i);
    } else if i < 120 {
      MarkOrderSkipsBaseObjectsPart14(i);
    } else {
      MarkOrderSkipsBaseObjectsPart15(i);
    }
  }

  /** The statement of `mark_values` that first enqueues slot `s`, or `|MarkOrder|` when none does. */
  function FirstMark(s: IntrinsicSlot): nat
  {
    match s
    case ObjectSlot(v) => (
      match v
      case AggregateErrorPrototype => 0
      case ArrayPrototype => |MarkOrder|
      case ArrayBufferPrototype => 7
      case ArrayIteratorPrototype => 9
      case AsyncFromSyncIteratorPrototype => 10
      case AsyncFunctionPrototype => 11
      case AsyncGeneratorPrototype => 15
      case AsyncGeneratorFunctionPrototype => 13
      case AsyncIteratorPrototype => 16
      case AtomicsObject => 17
      case BigIntPrototype => 18
      case BigInt64ArrayPrototype => 21
      case BigUint64ArrayPrototype => 23
      case DataViewPrototype => 26
      case DatePrototype => 29
      case ErrorPrototype => 35
      case EvalErrorPrototype => 39
      case FinalizationRegistryPrototype => 41
      case Float32ArrayPrototype => 44
      case Float64ArrayPrototype => 46
      case GeneratorPrototype => 52
      case GeneratorFunctionPrototype => 50
      case Int16ArrayPrototype => 54
      case Int32ArrayPrototype => 56
      case Int8ArrayPrototype => 58
      case IteratorPrototype => 61
      case JSONObject => 62
      case MapPrototype => 64
      case MapIteratorPrototype => 66
      case MathObject => 67
      case ObjectPrototype => 71
      case PromisePrototype => 75
      case RangeErrorPrototype => 78
      case ReferenceErrorPrototype => 80
      case ReflectObject => 82
      case RegExpPrototype => 84
      case RegExpStringIteratorPrototype => 86
      case SetPrototype => 88
      case SetIteratorPrototype => 90
      case SharedArrayBufferPrototype => 91
      case StringIteratorPrototype => 97
      case SymbolPrototype => 98
      case SyntaxErrorPrototype => 100
      case TypedArrayPrototype => 104
      case TypeErrorPrototype => 107
      case Uint16ArrayPrototype => 111
      case Uint32ArrayPrototype => 113
      case Uint8ArrayPrototype => 115
      case Uint8ClampedArrayPrototype => 117
      case URIErrorPrototype => 119
      case WeakMapPrototype => 121
      case WeakRefPrototype => 123
      case WeakSetPrototype => 125
    )
    case ConstructorFunctionSlot(v) => (
      match v
      case AggregateError => 1
      case Array => 6
      case ArrayBuffer => 8
      case AsyncFunction => 12
      case AsyncGeneratorFunction => 14
      case BigInt => 19
      case BigInt64Array => 20
      case BigUint64Array => 22
      case Boolean => 25
      case DataView => 27
      case Date => 30
      case Error => 36
      case EvalError => 40
      case FinalizationRegistry => 42
      case Float32Array => 43
      case Float64Array => 45
      case FunctionPrototype => 47
      case Function => 48
      case GeneratorFunction => 51
      case Int16Array => 53
      case Int32Array => 55
      case Int8Array => 57
      case Map => 65
      case Number => 69
      case Object => 72
      case Promise => 76
      case Proxy => 77
      case RangeError => 79
      case ReferenceError => 81
      case RegExp => 85
      case Set => 89
      case SharedArrayBuffer => 92
      case String => 96
      case Symbol => 99
      case SyntaxError => 101
      case TypedArray => 105
      case TypeError => 108
      case Uint16Array => 110
      case Uint32Array => 112
      case Uint8Array => 114
      case Uint8ClampedArray => 116
      case URIError => 120
      case WeakMap => 122
      case WeakRef => 124
      case WeakSet => 126
    )
    case ConstructorObjectSlot(_) => |MarkOrder|
    case FunctionSlot(v) => (
      match v
      case ArrayPrototypeSort => 2
      case ArrayPrototypeToString => 3
      case ArrayPrototypeValues => 4
      case DatePrototypeToUTCString => 28
      case DecodeURI => 31
      case DecodeURIComponent => 32
      case EncodeURI => 33
      case EncodeURIComponent => 34
      case Escape => 37
      case Eval => 38
      case GeneratorFunctionPrototypePrototypeNext => 49
      case IsFinite => 59
      case IsNaN => 60
      case MapPrototypeEntries => 63
      case ObjectPrototypeToString => 70
      case ParseFloat => 73
      case ParseInt => 74
      case RegExpPrototypeExec => 83
      case SetPrototypeValues => 87
      case StringPrototypeTrimEnd => 93
      case StringPrototypeTrimStart => 94
      case ThrowTypeError => 102
      case TypedArrayPrototypeValues => 103
      case Unescape => 118
    )
    case PrimitiveObjectSlot(v) => (
      match v
      case BooleanPrototype => 24
      case NumberPrototype => 68
      case StringPrototype => 95
    )
    case PrimitiveBaseObjectSlot(_) => |MarkOrder|
    case ArrayPrototypeSlot => 5
  }

  lemma MarkOrderFirstMarkPart0(i: nat)
    requires 0 <= i < 4
    ensures FirstMark(AccessorSlot(MarkOrder[i])) == (if i == 106 then 104 else if i == 109 then 107 else i)
  {
    match i
    case 0 =>
    case 1 =>
    case 2 =>
    case _ =>
  }

  lemma MarkOrderFirstMarkPart1(i: nat)
    requires 4 <= i < 8
    ensures FirstMark(AccessorSlot(MarkOrder[i])) == (if i == 106 then 104 else if i == 109 then 107 else i)
  {
    match i
    case 4 =>
    case 5 =>
    case 6 =>
    case _ =>
  }

  lemma MarkOrderFirstMarkPart2(i: nat)
    requires 8 <= i < 12
    ensures FirstMark(AccessorSlot(MarkOrder[i])) == (if i == 106 then 104 else if i == 109 then 107 else i)
  {
    match i
    case 8 =>
    case 9 =>
    case 10 =>
    case _ =>
  }

  lemma MarkOrderFirstMarkPart3(i: nat)
    requires 12 <= i < 16
    ensures FirstMark(AccessorSlot(MarkOrder[i])) == (if i == 106 then 104 else if i == 109 then 107 else i)
  {
    match i
    case 12 =>
    case 13 =>
    case 14 =>
    case _ =>
  }

  lemma MarkOrderFirstMarkPart4(i: nat)
    requires 16 <= i < 20
    ensures FirstMark(AccessorSlot(MarkOrder[i])) == (if i == 106 then 104 else if i == 109 then 107 else i)
  {
    match i
    case 16 =>
    case 17 =>
    case 18 =>
    case _ =>
  }

  lemma MarkOrderFirstMarkPart5(i: nat)
    requires 20 <= i < 24
    ensures FirstMark(AccessorSlot(MarkOrder[i])) == (if i == 106 then 104 else if i == 109 then 107 else i)
  {
    match i
    case 20 =>
    case 21 =>
    case 22 =>
    case _ =>
  }

  lemma MarkOrderFirstMarkPart6(i: nat)
    requires 24 <= i < 28
    ensures FirstMark(AccessorSlot(MarkOrder[i])) == (if i == 106 then 104 else if i == 109 then 107 else i)
  {
    match i
    case 24 =>
    case 25 =>
    case 26 =>
    case _ =>
  }

  lemma MarkOrderFirstMarkPart7(i: nat)
    requires 28 <= i < 32
    ensures FirstMark(AccessorSlot(MarkOrder[i])) == (if i == 106 then 104 else if i == 109 then 107 else i)
  {
    match i
    case 28 =>
    case 29 =>
    case 30 =>
    case _ =>
  }

  lemma MarkOrderFirstMarkPart8(i: nat)
    requires 32 <= i < 36
    ensures FirstMark(AccessorSlot(MarkOrder[i])) == (if i == 106 then 104 else if i == 109 then 107 else i)
  {
    match i
    case 32 =>
    case 33 =>
    case 34 =>
    case _ =>
  }

  lemma MarkOrderFirstMarkPart9(i: nat)
    requires 36 <= i < 40
    ensures FirstMark(AccessorSlot(MarkOrder[i])) == (if i == 106 then 104 else if i == 109 then 107 else i)
  {
    match i
    case 36 =>
    case 37 =>
    case 38 =>
    case _ =>
  }

  lemma MarkOrderFirstMarkPart10(i: nat)
    requires 40 <= i < 44
    ensures FirstMark(AccessorSlot(MarkOrder[i])) == (if i == 106 then 104 else if i == 109 then 107 else i)
  {
    match i
    case 40 =>
    case 41 =>
    case 42 =>
    case _ =>
  }

  lemma MarkOrderFirstMarkPart11(i: nat)
    requires 44 <= i < 48
    ensures FirstMark(AccessorSlot(MarkOrder[i])) == (if i == 106 then 104 else if i == 109 then 107 else i)
  {
    match i
    case 44 =>
    case 45 =>
    case 46 =>
    case _ =>
  }

  lemma MarkOrderFirstMarkPart12(i: nat)
    requires 48 <= i < 52
    ensures FirstMark(AccessorSlot(MarkOrder[i])) == (if i == 106 then 104 else if i == 109 then 107 else i)
  {
    match i
    case 48 =>
    case 49 =>
    case 50 =>
    case _ =>
  }

  lemma MarkOrderFirstMarkPart13(i: nat)
    requires 52 <= i < 56
    ensures FirstMark(AccessorSlot(MarkOrder[i])) == (if i == 106 then 104 else if i == 109 then 107 else i)
  {
    match i
    case 52 =>
    case 53 =>
    case 54 =>
    case _ =>
  }

  lemma MarkOrderFirstMarkPart14(i: nat)
    requires 56 <= i < 60
    ensures FirstMark(AccessorSlot(MarkOrder[i])) == (if i == 106 then 104 else if i == 109 then 107 else i)
  {
    match i
    case 56 =>
    case 57 =>
    case 58 =>
    case _ =>
  }

  lemma MarkOrderFirstMarkPart15(i: nat)
    requires 60 <= i < 64
    ensures FirstMark(AccessorSlot(MarkOrder[i])) == (if i == 106 then 104 else if i == 109 then 107 else i)
  {
    match i
    case 60 =>
    case 61 =>
    case 62 =>
    case _ =>
  }

  lemma MarkOrderFirstMarkPart16(i: nat)
    requires 64 <= i < 68
    ensures FirstMark(AccessorSlot(MarkOrder[i])) == (if i == 106 then 104 else if i == 109 then 107 else i)
  {
    match i
    case 64 =>
    case 65 =>
    case 66 =>
    case _ =>
  }

  lemma MarkOrderFirstMarkPart17(i: nat)
    requires 68 <= i < 72
    ensures FirstMark(AccessorSlot(MarkOrder[i])) == (if i == 106 then 104 else if i == 109 then 107 else i)
  {
    match i
    case 68 =>
    case 69 =>
    case 70 =>
    case _ =>
  }

  lemma MarkOrderFirstMarkPart18(i: nat)
    requires 72 <= i < 76
    ensures FirstMark(AccessorSlot(MarkOrder[i])) == (if i == 106 then 104 else if i == 109 then 107 else i)
  {
    match i
    case 72 =>
    case 73 =>
    case 74 =>
    case _ =>
  }

  lemma MarkOrderFirstMarkPart19(i: nat)
    requires 76 <= i < 80
    ensures FirstMark(AccessorSlot(MarkOrder[i])) == (if i == 106 then 104 else if i == 109 then 107 else i)
  {
    match i
    case 76 =>
    case 77 =>
    case 78 =>
    case _ =>
  }

  lemma MarkOrderFirstMarkPart20(i: nat)
    requires 80 <= i < 84
    ensures FirstMark(AccessorSlot(MarkOrder[i])) == (if i == 106 then 104 else if i == 109 then 107 else i)
  {
    match i
    case 80 =>
    case 81 =>
    case 82 =>
    case _ =>
  }

  lemma MarkOrderFirstMarkPart21(i: nat)
    requires 84 <= i < 88
    ensures FirstMark(AccessorSlot(MarkOrder[i])) == (if i == 106 then 104 else if i == 109 then 107 else i)
  {
    match i
    case 84 =>
    case 85 =>
    case 86 =>
    case _ =>
  }

  lemma MarkOrderFirstMarkPart22(i: nat)
    requires 88 <= i < 92
    ensures FirstMark(AccessorSlot(MarkOrder[i])) == (if i == 106 then 104 else if i == 109 then 107 else i)
  {
    match i
    case 88 =>
    case 89 =>
    case 90 =>
    case _ =>
  }

  lemma MarkOrderFirstMarkPart23(i: nat)
    requires 92 <= i < 96
    ensures FirstMark(AccessorSlot(MarkOrder[i])) == (if i == 106 then 104 else if i == 109 then 107 else i)
  {
    match i
    case 92 =>
    case 93 =>
    case 94 =>
    case _ =>
  }

  lemma MarkOrderFirstMarkPart24(i: nat)
    requires 96 <= i < 100
    ensures FirstMark(AccessorSlot(MarkOrder[i])) == (if i == 106 then 104 else if i == 109 then 107 else i)
  {
    match i
    case 96 =>
    case 97 =>
    case 98 =>
    case _ =>
  }

  lemma MarkOrderFirstMarkPart25(i: nat)
    requires 100 <= i < 104
    ensures FirstMark(AccessorSlot(MarkOrder[i])) == (if i == 106 then 104 else if i == 109 then 107 else i)
  {
    match i
    case 100 =>
    case 101 =>
    case 102 =>
    case _ =>
  }

  lemma MarkOrderFirstMarkPart26(i: nat)
    requires 104 <= i < 108
    ensures FirstMark(AccessorSlot(MarkOrder[i])) == (if i == 106 then 104 else if i == 109 then 107 else i)
  {
    match i
    case 104 =>
    case 105 =>
    case 106 =>
    case _ =>
  }

  lemma MarkOrderFirstMarkPart27(i: nat)
    requires 108 <= i < 112
    ensures FirstMark(AccessorSlot(MarkOrder[i])) == (if i == 106 then 104 else if i == 109 then 107 else i)
  {
    match i
    case 108 =>
    case 109 =>
    case 110 =>
    case _ =>
  }

  lemma MarkOrderFirstMarkPart28(i: nat)
    requires 112 <= i < 116
    ensures FirstMark(AccessorSlot(MarkOrder[i])) == (if i == 106 then 104 else if i == 109 then 107 else i)
  {
    match i
    case 112 =>
    case 113 =>
    case 114 =>
    case _ =>
  }

  lemma MarkOrderFirstMarkPart29(i: nat)
    requires 116 <= i < 120
    ensures FirstMark(AccessorSlot(MarkOrder[i])) == (if i == 106 then 104 else if i == 109 then 107 else i)
  {
    match i
    case 116 =>
    case 117 =>
    case 118 =>
    case _ =>
  }

  lemma MarkOrderFirstMarkPart30(i: nat)
    requires 120 <= i < 124
    ensures FirstMark(AccessorSlot(MarkOrder[i])) == (if i == 106 then 104 else if i == 109 then 107 else i)
  {
    match i
    case 120 =>
    case 121 =>
    case 122 =>
    case _ =>
  }

  lemma MarkOrderFirstMarkPart31(i: nat)
    requires 124 <= i < 127
    ensures FirstMark(AccessorSlot(MarkOrder[i])) == (if i == 106 then 104 else if i == 109 then 107 else i)
  {
    match i
    case 124 =>
    case 125 =>
    case _ =>
  }

  /** Every statement of `mark_values` is the first to enqueue its slot, except the two repeated ones. */
  lemma MarkOrderFirstMark(i: nat)
    requires i < |MarkOrder|
    ensures FirstMark(AccessorSlot(MarkOrder[i])) == (if i == 106 then 104 else if i == 109 then 107 else i)
  {
    if i < 4 {
      MarkOrderFirstMarkPart0(i);
    } else if i < 8 {
      MarkOrderFirstMarkPart1(i);
    } else if i < 12 {
      MarkOrderFirstMarkPart2(i);
    } else if i < 16 {
      MarkOrderFirstMarkPart3(i);
    } else if i < 20 {
      MarkOrderFirstMarkPart4(i);
    } else if i < 24 {
      MarkOrderFirstMarkPart5(i);
    } else if i < 28 {
      MarkOrderFirstMarkPart6(i);
    } else if i < 32 {
      MarkOrderFirstMarkPart7(i);
    } else if i < 36 {
      MarkOrderFirstMarkPart8(i);
    } else if i < 40 {
      MarkOrderFirstMarkPart9(i);
    } else if i < 44 {
      MarkOrderFirstMarkPart10(i);
    } else if i < 48 {
      MarkOrderFirstMarkPart11(i);
    } else if i < 52 {
      MarkOrderFirstMarkPart12(i);
    } else if i < 56 {
      MarkOrderFirstMarkPart13(i);
    } else if i < 60 {
      MarkOrderFirstMarkPart14(i);
    } else if i < 64 {
      MarkOrderFirstMarkPart15(i);
    } else if i < 68 {
      MarkOrderFirstMarkPart16(i);
    } else if i < 72 {
      MarkOrderFirstMarkPart17(i);
    } else if i < 76 {
      MarkOrderFirstMarkPart18(i);
    } else if i < 80 {
      MarkOrderFirstMarkPart19(i);
    } else if i < 84 {
      MarkOrderFirstMarkPart20(i);
    } else if i < 88 {
      MarkOrderFirstMarkPart21(i);
    } else if i < 92 {
      MarkOrderFirstMarkPart22(i);
    } else if i < 96 {
      MarkOrderFirstMarkPart23(i);
    } else if i < 100 {
      MarkOrderFirstMarkPart24(i);
    } else if i < 104 {
      MarkOrderFirstMarkPart25(i);
    } else if i < 108 {
      MarkOrderFirstMarkPart26(i);
    } else if i < 112 {
      MarkOrderFirstMarkPart27(i);
    } else if i < 116 {
      MarkOrderFirstMarkPart28(i);
    } else if i < 120 {
      MarkOrderFirstMarkPart29(i);
    } else if i < 124 {
      MarkOrderFirstMarkPart30(i);
    } else {
      MarkOrderFirstMarkPart31(i);
    }
  }

  /** No statement of `mark_values` repeats an earlier one, except the two repeats below. */
  lemma MarkOrderNoOtherRepeats()
    ensures forall i, j | 0 <= i < j < |MarkOrder| && MarkOrder[i] == MarkOrder[j] ::
      (i == 104 && j == 106) || (i == 107 && j == 109)
  {
    forall i, j | 0 <= i < j < |MarkOrder| && MarkOrder[i] == MarkOrder[j]
      ensures (i == 104 && j == 106) || (i == 107 && j == 109)
    {
      MarkOrderFirstMark(i);
      MarkOrderFirstMark(j);
    }
  }

  /**
   * `%TypedArray.prototype%` and `%TypeError.prototype%` are each enqueued
   * exactly twice, and no other statement of `mark_values` repeats an
   * earlier one.
   */
  lemma MarkOrderRepeats()
    ensures |MarkOrder| == 127
    ensures forall i | 0 <= i < |MarkOrder| :: MarkOrder[i] == Slot(ObjectSlot(IntrinsicObjectIndexes.TypedArrayPrototype)) <==> i == 104 || i == 106
    ensures forall i | 0 <= i < |MarkOrder| :: MarkOrder[i] == Slot(ObjectSlot(IntrinsicObjectIndexes.TypeErrorPrototype)) <==> i == 107 || i == 109
    ensures forall i, j | 0 <= i < j < |MarkOrder| && MarkOrder[i] == MarkOrder[j] ::
      (i == 104 && j == 106) || (i == 107 && j == 109)
  {
    assert MarkOrder[104] == MarkOrder[106] == Slot(ObjectSlot(IntrinsicObjectIndexes.TypedArrayPrototype));
    assert MarkOrder[107] == MarkOrder[109] == Slot(ObjectSlot(IntrinsicObjectIndexes.TypeErrorPrototype));
    MarkOrderNoOtherRepeats();
  }
}
