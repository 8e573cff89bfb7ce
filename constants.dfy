/**
 * `convert_constant` and `convert_constant_timestamp`: a DuckDB constant becomes
 * the Arrow scalar of the matching data type, dispatching on the logical type tag.
 */
module Constants {
  import opened Wrappers
  import opened Values

  /** DuckDB's comparison `ExpressionType`s; every other expression type is `OtherExpression`. */
  datatype ExpressionType =
    | CompareEqual | CompareNotEqual
    | CompareLessThan | CompareGreaterThan
    | CompareLessThanOrEqualTo | CompareGreaterThanOrEqualTo
    | CompareDistinctFrom | CompareNotDistinctFrom
    | OtherExpression(code: nat)

  /** What a `NotImplementedException` of the pushdown names. */
  datatype Unsupported =
    | UnsupportedValueType(ty: LogicalTypeId)
    | UnsupportedComparison(comparison: ExpressionType)
    | UnknownFilterType(filterType: nat)

  /** The DuckDB exceptions the translation throws. */
  datatype ConvertError =
    | NotImplemented(what: Unsupported)
    | InvalidInput(ty: LogicalTypeId, status: string, value: Value)

  /** Arrow's `MakeScalar(timestamp(unit), epoch)`, left open: `Some(status)` is a refusal. */
  type TimestampFactory = (TimeUnit, int) -> Option<string>

  predicate IsTimestamp(ty: LogicalTypeId)
  {
    ty.TimestampSec? || ty.TimestampMs? || ty.Timestamp? || ty.TimestampNs?
  }

  /** The time unit DuckDB's timestamp type ids stand for. */
  function UnitOf(ty: LogicalTypeId): TimeUnit
    requires IsTimestamp(ty)
  {
    match ty
    case TimestampSec => Second
    case TimestampMs => Milli
    case Timestamp => Micro
    case TimestampNs => Nano
  }

  /** The type ids the converter has a case for. */
  predicate SupportedType(ty: LogicalTypeId)
  {
    match ty
    case HugeInt => false
    case Date => false
    case Time => false
    case Decimal => false
    case OtherType(_) => false
    case _ => true
  }

  /** A constant converts when its type is supported and, for a timestamp, Arrow accepts the scalar. */
  predicate Convertible(v: Value, makeTimestamp: TimestampFactory)
  {
    SupportedType(v.ty) && (IsTimestamp(v.ty) ==> makeTimestamp(UnitOf(v.ty), v.payload.i).None?)
  }

  /** `convert_constant_timestamp`: the int64 is the epoch offset in `unit`, used verbatim. */
  function ConvertConstantTimestamp(v: Value, unit: TimeUnit, makeTimestamp: TimestampFactory): (r: Result<Scalar, ConvertError>)
    requires IsTimestamp(v.ty)
    ensures r.Ok? <==> makeTimestamp(unit, v.payload.i).None?
    ensures r.Ok? ==> r.value.TimestampScalar? && r.value.unit == unit && ToValue(r.value).payload == v.payload
    ensures r.Err? ==> r.error == InvalidInput(v.ty, makeTimestamp(unit, v.payload.i).value, v)
  {
    var epoch := v.payload.i;
    match makeTimestamp(unit, epoch)
    case None => Ok(TimestampScalar(unit, epoch))
    case Some(status) => Err(InvalidInput(v.ty, status, v))
  }

  /** `convert_constant`. */
  function ConvertConstant(v: Value, makeTimestamp: TimestampFactory): (r: Result<Scalar, ConvertError>)
    ensures r.Ok? <==> Convertible(v, makeTimestamp)
    ensures r.Ok? ==> ToValue(r.value) == v
    ensures r.Err? && !SupportedType(v.ty) ==> r.error == NotImplemented(UnsupportedValueType(v.ty))
    ensures r.Err? && SupportedType(v.ty) ==> r.error.InvalidInput? && IsTimestamp(v.ty) && r.error.value == v
  {
    match v.ty
    case Boolean => Ok(BooleanScalar(v.payload.b))
    case TinyInt => Ok(IntScalar(Int8, v.payload.i))
    case SmallInt => Ok(IntScalar(Int16, v.payload.i))
    case Integer => Ok(IntScalar(Int32, v.payload.i))
    case BigInt => Ok(IntScalar(Int64, v.payload.i))
    case TimestampSec => ConvertConstantTimestamp(v, Second, makeTimestamp)
    case TimestampMs => ConvertConstantTimestamp(v, Milli, makeTimestamp)
    case Timestamp => ConvertConstantTimestamp(v, Micro, makeTimestamp)
    case TimestampNs => ConvertConstantTimestamp(v, Nano, makeTimestamp)
    case UTinyInt => Ok(IntScalar(UInt8, v.payload.i))
    case USmallInt => Ok(IntScalar(UInt16, v.payload.i))
    case UInteger => Ok(IntScalar(UInt32, v.payload.i))
    case UBigInt => Ok(IntScalar(UInt64, v.payload.i))
    case Float => Ok(FloatingScalar(Float32, v.payload.bits))
    case Double => Ok(FloatingScalar(Float64, v.payload.bits))
    case Varchar => Ok(StringScalar(v.payload.s))
    case _ => Err(NotImplemented(UnsupportedValueType(v.ty)))
  }

  /** Every Arrow scalar DuckDB can read back converts to itself again (the other half of the
      round trip in `ConvertConstant`'s contract), unless Arrow refuses the timestamp. */
  lemma ConvertReadBack(s: Scalar, makeTimestamp: TimestampFactory)
    requires s.TimestampScalar? ==> makeTimestamp(s.unit, s.epoch).None?
    ensures ConvertConstant(ToValue(s), makeTimestamp) == Ok(s)
  {
    var r := ConvertConstant(ToValue(s), makeTimestamp);
    assert r.Ok?;
    ToValueInjective(r.value, s);
  }

  /** The four timestamp ids map to SECOND, MILLI, MICRO and NANO with the epoch unchanged. */
  lemma TimestampUnits(v: Value, makeTimestamp: TimestampFactory)
    requires IsTimestamp(v.ty) && makeTimestamp(UnitOf(v.ty), v.payload.i).None?
    ensures ConvertConstant(v, makeTimestamp) == Ok(TimestampScalar(UnitOf(v.ty), v.payload.i))
  {
  }
}
