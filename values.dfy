/**
 * The two value representations the pushdown bridges: DuckDB's `Value`
 * (a logical type tag plus a payload) and Apache Arrow's `Scalar`
 * (one variant per Arrow data type).  Arrow -> DuckDB readback (`ToValue`)
 * and the order both engines use to compare values are defined here.
 */
module Values {
  import opened Wrappers

  /** DuckDB's `LogicalTypeId`.  The ones the converter does not handle are listed by name;
      the rest of DuckDB's type ids are `OtherType`. */
  datatype LogicalTypeId =
    | Boolean | TinyInt | SmallInt | Integer | BigInt
    | UTinyInt | USmallInt | UInteger | UBigInt
    | Float | Double | Varchar
    | TimestampSec | TimestampMs | Timestamp | TimestampNs
    | HugeInt | Date | Time | Decimal
    | OtherType(code: nat)

  /** The payload a DuckDB value stores; floating-point numbers are kept as opaque bit patterns. */
  datatype Payload =
    | BoolPayload(b: bool)
    | IntPayload(i: int)
    | FloatPayload(bits: nat)
    | TextPayload(s: string)
    | OpaquePayload

  const Int8Min: int := -0x80
  const Int16Min: int := -0x8000
  const Int32Min: int := -0x8000_0000
  const Int64Min: int := -0x8000_0000_0000_0000
  const Int128Min: int := -0x8000_0000_0000_0000_0000_0000_0000_0000
  const UInt8Bound: int := 0x100
  const UInt16Bound: int := 0x1_0000
  const UInt32Bound: int := 0x1_0000_0000
  const UInt64Bound: int := 0x1_0000_0000_0000_0000

  /** `i` fits the two's-complement integer whose least value is `min`. */
  predicate InSigned(i: int, min: int) { min <= i < -min }

  /** `i` fits the unsigned integer with `bound` distinct values. */
  predicate InUnsigned(i: int, bound: int) { 0 <= i < bound }

  /** What DuckDB guarantees about a value of each type: the payload has the C type the tag names. */
  predicate WellTyped(ty: LogicalTypeId, p: Payload)
  {
    match ty
    case Boolean => p.BoolPayload?
    case TinyInt => p.IntPayload? && InSigned(p.i, Int8Min)
    case SmallInt => p.IntPayload? && InSigned(p.i, Int16Min)
    case Integer => p.IntPayload? && InSigned(p.i, Int32Min)
    case BigInt => p.IntPayload? && InSigned(p.i, Int64Min)
    case UTinyInt => p.IntPayload? && InUnsigned(p.i, UInt8Bound)
    case USmallInt => p.IntPayload? && InUnsigned(p.i, UInt16Bound)
    case UInteger => p.IntPayload? && InUnsigned(p.i, UInt32Bound)
    case UBigInt => p.IntPayload? && InUnsigned(p.i, UInt64Bound)
    case Float => p.FloatPayload? && p.bits < UInt32Bound
    case Double => p.FloatPayload? && p.bits < UInt64Bound
    case Varchar => p.TextPayload?
    case TimestampSec => p.IntPayload? && InSigned(p.i, Int64Min)
    case TimestampMs => p.IntPayload? && InSigned(p.i, Int64Min)
    case Timestamp => p.IntPayload? && InSigned(p.i, Int64Min)
    case TimestampNs => p.IntPayload? && InSigned(p.i, Int64Min)
    case HugeInt => p.IntPayload? && InSigned(p.i, Int128Min)
    case _ => true
  }

  datatype RawValue = Value(ty: LogicalTypeId, payload: Payload)

  /** A DuckDB `Value`: its payload always matches its logical type. */
  type Value = v: RawValue | WellTyped(v.ty, v.payload) witness Value(Boolean, BoolPayload(false))

  /** Arrow's time units for the timestamp type. */
  datatype TimeUnit = Second | Milli | Micro | Nano

  /** Arrow's integer data types. */
  datatype IntType = Int8 | Int16 | Int32 | Int64 | UInt8 | UInt16 | UInt32 | UInt64

  datatype FloatType = Float32 | Float64

  predicate IntFits(t: IntType, i: int)
  {
    match t
    case Int8 => InSigned(i, Int8Min)
    case Int16 => InSigned(i, Int16Min)
    case Int32 => InSigned(i, Int32Min)
    case Int64 => InSigned(i, Int64Min)
    case UInt8 => InUnsigned(i, UInt8Bound)
    case UInt16 => InUnsigned(i, UInt16Bound)
    case UInt32 => InUnsigned(i, UInt32Bound)
    case UInt64 => InUnsigned(i, UInt64Bound)
  }

  datatype RawScalar =
    | BooleanScalar(b: bool)
    | IntScalar(intType: IntType, i: int)
    | FloatingScalar(floatType: FloatType, bits: nat)
    | StringScalar(s: string)
    | TimestampScalar(unit: TimeUnit, epoch: int)

  predicate ScalarFits(s: RawScalar)
  {
    match s
    case BooleanScalar(_) => true
    case IntScalar(t, i) => IntFits(t, i)
    case FloatingScalar(t, bits) => bits < if t == Float32 then UInt32Bound else UInt64Bound
    case StringScalar(_) => true
    case TimestampScalar(_, epoch) => InSigned(epoch, Int64Min)
  }

  /** An Arrow scalar: the C type of each variant bounds what it can hold. */
  type Scalar = s: RawScalar | ScalarFits(s) witness BooleanScalar(false)

  /** How DuckDB reads a cell of an Arrow column of the scalar's type (the `arrow_scan` import). */
  function ToValue(s: Scalar): (v: Value)
  {
    match s
    case BooleanScalar(b) => Value(Boolean, BoolPayload(b))
    case IntScalar(t, i) =>
      var ty := match t
        case Int8 => TinyInt case Int16 => SmallInt case Int32 => Integer case Int64 => BigInt
        case UInt8 => UTinyInt case UInt16 => USmallInt case UInt32 => UInteger case UInt64 => UBigInt;
      Value(ty, IntPayload(i))
    case FloatingScalar(t, bits) => Value(if t == Float32 then Float else Double, FloatPayload(bits))
    case StringScalar(str) => Value(Varchar, TextPayload(str))
    case TimestampScalar(unit, epoch) =>
      var ty := match unit
        case Second => TimestampSec case Milli => TimestampMs case Micro => Timestamp case Nano => TimestampNs;
      Value(ty, IntPayload(epoch))
  }

  /** Three-way comparison of integers. */
  function Sign(a: int, b: int): int { if a < b then -1 else if a == b then 0 else 1 }

  /** Lexicographic comparison of strings by character code. */
  function CompareText(a: string, b: string): int
  {
    if a == [] && b == [] then 0
    else if a == [] then -1
    else if b == [] then 1
    else if a[0] != b[0] then Sign(a[0] as int, b[0] as int)
    else CompareText(a[1..], b[1..])
  }

  function BoolRank(b: bool): int { if b then 1 else 0 }

  /** DuckDB's comparison of two values of one logical type; values of different types
      (or of a type the model gives no order) are not comparable. */
  function CompareValues(a: Value, b: Value): Option<int>
  {
    if a.ty != b.ty then None
    else match (a.payload, b.payload)
      case (BoolPayload(x), BoolPayload(y)) => Some(Sign(BoolRank(x), BoolRank(y)))
      case (IntPayload(x), IntPayload(y)) => Some(Sign(x, y))
      case (FloatPayload(x), FloatPayload(y)) => Some(Sign(x, y))
      case (TextPayload(x), TextPayload(y)) => Some(CompareText(x, y))
      case _ => None
  }

  /** Arrow's comparison kernels on two scalars of one data type.  A pushed-down constant always
      has its column's type (DuckDB binds the filter that way), so the implicit casts Arrow
      would apply to mismatched types are left out and such pairs are not comparable. */
  function CompareScalars(x: Scalar, y: Scalar): Option<int>
  {
    match (x, y)
    case (BooleanScalar(a), BooleanScalar(b)) => Some(Sign(BoolRank(a), BoolRank(b)))
    case (IntScalar(s, a), IntScalar(t, b)) => if s == t then Some(Sign(a, b)) else None
    case (FloatingScalar(s, a), FloatingScalar(t, b)) => if s == t then Some(Sign(a, b)) else None
    case (StringScalar(a), StringScalar(b)) => Some(CompareText(a, b))
    case (TimestampScalar(u, a), TimestampScalar(w, b)) => if u == w then Some(Sign(a, b)) else None
    case _ => None
  }

  /** Reading Arrow data into DuckDB is injective: distinct scalars are distinct values. */
  lemma ToValueInjective(x: Scalar, y: Scalar)
    requires ToValue(x) == ToValue(y)
    ensures x == y
  {
  }

  /** Both engines order a pair of cells the same way once DuckDB has read them. */
  lemma CompareAgrees(x: Scalar, y: Scalar)
    ensures CompareScalars(x, y) == CompareValues(ToValue(x), ToValue(y))
  {
  }
}
