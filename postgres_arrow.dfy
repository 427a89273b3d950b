/** The transport from the Postgres source to the Arrow destination: the table that says,
    for every Postgres column type, which Arrow column type it lands in and through which
    Rust types, and the conversions it uses to get there. */
module PostgresArrow {
  import opened Wrappers
  import opened Transport
  import N = Natives

  /** The Postgres type system's tags that the table covers. */
  datatype PostgresType =
    | Float4 | Float8 | Numeric | Int2 | Int4 | Int8 | Bool | Text | BpChar | VarChar | Name
    | Enum | Timestamp | Date | Time | TimestampTz | UUID | Char | ByteA | JSON | JSONB
    | BoolArray | VarcharArray | TextArray | Int2Array | Int4Array | Int8Array | Float4Array
    | Float8Array | NumericArray

  /** The Arrow type system's tags that the table uses. */
  datatype ArrowType =
    | Float32 | Float64 | Int16 | Int32 | Int64 | Boolean | LargeUtf8 | Date64Micro | Date32
    | Time64Micro | DateTimeTzMicro | LargeBinary | BoolArray | Utf8Array | Int16Array
    | Int32Array | Int64Array | Float32Array | Float64Array

  /** The Rust types that appear in the table; `Str` is the borrowed `&str`, the `Vec`
      types are vectors of optional elements except `Bytes` (`Vec<u8>`). */
  datatype NativeType =
    | F32 | F64 | Decimal | I16 | I32 | I64 | Bool | Str | String
    | NaiveDateTime | NaiveDateTimeWrapperMicro | NaiveDate | NaiveTime | NaiveTimeWrapperMicro
    | DateTimeUtc | DateTimeWrapperMicro | Uuid | Bytes | Json
    | VecBool | VecString | VecI16 | VecI32 | VecI64 | VecF32 | VecF64 | VecDecimal

  type PgRow = Row<ArrowType, NativeType>

  /** The table, one row per Postgres tag. */
  function Mapping(t: PostgresType): PgRow {
    match t
    case Float4       => Row(F32, Float32, F32, Auto)
    case Float8       => Row(F64, Float64, F64, Auto)
    case Numeric      => Row(Decimal, Float64, F64, Manual)
    case Int2         => Row(I16, Int16, I16, Auto)
    case Int4         => Row(I32, Int32, I32, Auto)
    case Int8         => Row(I64, Int64, I64, Auto)
    case Bool         => Row(NativeType.Bool, Boolean, NativeType.Bool, Auto)
    case Text         => Row(Str, LargeUtf8, String, Owned)
    case BpChar       => Row(Str, LargeUtf8, String, Reuse)
    case VarChar      => Row(Str, LargeUtf8, String, Reuse)
    case Name         => Row(Str, LargeUtf8, String, Reuse)
    case Enum         => Row(Str, LargeUtf8, String, Reuse)
    case Timestamp    => Row(NaiveDateTime, Date64Micro, NaiveDateTimeWrapperMicro, Manual)
    case Date         => Row(NaiveDate, Date32, NaiveDate, Auto)
    case Time         => Row(NaiveTime, Time64Micro, NaiveTimeWrapperMicro, Manual)
    case TimestampTz  => Row(DateTimeUtc, DateTimeTzMicro, DateTimeWrapperMicro, Manual)
    case UUID         => Row(Uuid, LargeUtf8, String, Manual)
    case Char         => Row(Str, LargeUtf8, String, Reuse)
    case ByteA        => Row(Bytes, LargeBinary, Bytes, Auto)
    case JSON         => Row(Json, LargeUtf8, String, Manual)
    case JSONB        => Row(Json, LargeUtf8, String, Reuse)
    case BoolArray    => Row(VecBool, ArrowType.BoolArray, VecBool, Auto)
    case VarcharArray => Row(VecString, Utf8Array, VecString, Auto)
    case TextArray    => Row(VecString, Utf8Array, VecString, Reuse)
    case Int2Array    => Row(VecI16, Int16Array, VecI16, Auto)
    case Int4Array    => Row(VecI32, Int32Array, VecI32, Auto)
    case Int8Array    => Row(VecI64, Int64Array, VecI64, Auto)
    case Float4Array  => Row(VecF32, Float32Array, VecF32, Auto)
    case Float8Array  => Row(VecF64, Float64Array, VecF64, Auto)
    case NumericArray => Row(VecDecimal, Float64Array, VecF64, Manual)
  }

  /** The tags in the order of the table's rows. */
  const SourceOrder: seq<PostgresType> := [
    Float4, Float8, Numeric, Int2, Int4, Int8, PostgresType.Bool, Text, BpChar, VarChar,
    Name, Enum, Timestamp, Date, Time, TimestampTz, UUID, Char, ByteA, JSON, JSONB,
    PostgresType.BoolArray, VarcharArray, TextArray, Int2Array, Int4Array, Int8Array,
    Float4Array, Float8Array, NumericArray
  ]

  /** Each of the 30 tags heads exactly one row of the table. */
  lemma EachTagOneRow(t: PostgresType)
    ensures |SourceOrder| == 30 && t in SourceOrder
    ensures forall i, j :: 0 <= i < j < |SourceOrder| ==> SourceOrder[i] != SourceOrder[j]
  {
  }

  /** The native type the Arrow type system binds each of these tags to. */
  function ArrowNative(d: ArrowType): NativeType {
    match d
    case Float32         => F32
    case Float64         => F64
    case Int16           => I16
    case Int32           => I32
    case Int64           => I64
    case Boolean         => NativeType.Bool
    case LargeUtf8       => String
    case Date64Micro     => NaiveDateTimeWrapperMicro
    case Date32          => NaiveDate
    case Time64Micro     => NaiveTimeWrapperMicro
    case DateTimeTzMicro => DateTimeWrapperMicro
    case LargeBinary     => Bytes
    case BoolArray       => VecBool
    case Utf8Array       => VecString
    case Int16Array      => VecI16
    case Int32Array      => VecI32
    case Int64Array      => VecI64
    case Float32Array    => VecF32
    case Float64Array    => VecF64
  }

  /** The native pairs of the hand-written `TypeConversion` impls, in the order they are
      written. */
  const HandWrittenImpls: seq<(NativeType, NativeType)> := [
    (NaiveTime, NaiveTimeWrapperMicro),
    (NaiveDateTime, NaiveDateTimeWrapperMicro),
    (DateTimeUtc, DateTimeWrapperMicro),
    (Uuid, String),
    (Decimal, F64),
    (Json, String),
    (VecDecimal, VecF64)
  ]

  function Pair(r: PgRow): (NativeType, NativeType) {
    (r.srcNative, r.dstNative)
  }

  /** Some row generates the impl for the native pair, or it is written by hand. */
  ghost predicate HasImpl(p: (NativeType, NativeType)) {
    (exists d :: Generates(Mapping(d)) && Pair(Mapping(d)) == p) || p in HandWrittenImpls
  }

  // ---------------------------------------------------------------------------------------
  // Facts about the table

  /** A row whose impl is generated as the identity converts a type to itself. */
  lemma AutoIsIdentity(t: PostgresType)
    ensures Mapping(t).policy == Auto ==> Mapping(t).srcNative == Mapping(t).dstNative
  {
  }

  /** Every row's destination native type is the one its Arrow tag binds to. */
  lemma DestinationIsBound(t: PostgresType)
    ensures Mapping(t).dstNative == ArrowNative(Mapping(t).dst)
  {
  }

  /** Two rows with the same Arrow tag agree on the destination native type. */
  lemma DestinationBinding(t: PostgresType, u: PostgresType)
    ensures Mapping(t).dst == Mapping(u).dst ==> Mapping(t).dstNative == Mapping(u).dstNative
  {
    DestinationIsBound(t);
    DestinationIsBound(u);
  }

  /** The source native type decides the destination native type. */
  lemma SourceNativeDecides(t: PostgresType, u: PostgresType)
    ensures Mapping(t).srcNative == Mapping(u).srcNative ==> Mapping(t).dstNative == Mapping(u).dstNative
  {
  }

  /** Each row marked `none` shares its native pair with a row that is not, whose impl it
      uses. */
  lemma ReuseHasDefiner(t: PostgresType)
    requires Mapping(t).policy == Reuse
    ensures exists d :: d != t && Mapping(d).policy != Reuse && SamePair(Mapping(d), Mapping(t))
  {
    var d := match Mapping(t).srcNative
      case Str => Text
      case Json => JSON
      case _ => VarcharArray;
    assert d != t && Mapping(d).policy != Reuse && SamePair(Mapping(d), Mapping(t));
  }

  /** The rows marked `option` and the hand-written impls correspond one to one. */
  lemma ManualRowsAreHandWritten(t: PostgresType, u: PostgresType)
    ensures Mapping(t).policy == Manual ==> Pair(Mapping(t)) in HandWrittenImpls
    ensures Mapping(t).policy == Manual && Mapping(u).policy == Manual && Pair(Mapping(t)) == Pair(Mapping(u)) ==> t == u
  {
  }

  lemma HandWrittenAreManualRows(i: nat)
    requires i < |HandWrittenImpls|
    ensures exists t :: Mapping(t).policy == Manual && Pair(Mapping(t)) == HandWrittenImpls[i]
  {
    var t := [Time, Timestamp, TimestampTz, UUID, Numeric, JSON, NumericArray][i];
    assert Mapping(t).policy == Manual && Pair(Mapping(t)) == HandWrittenImpls[i];
  }

  /** No native pair gets two impls: two generating rows never share a pair, a generating
      row never shares one with a hand-written impl, and no impl is written twice. */
  lemma ImplsAreCoherent(t: PostgresType, u: PostgresType, i: nat, j: nat)
    ensures Generates(Mapping(t)) && Generates(Mapping(u)) && SamePair(Mapping(t), Mapping(u)) ==> t == u
    ensures Generates(Mapping(t)) ==> Pair(Mapping(t)) !in HandWrittenImpls
    ensures i < j < |HandWrittenImpls| ==> HandWrittenImpls[i] != HandWrittenImpls[j]
  {
  }

  /** Every row of the table has exactly the impl it needs. */
  lemma EveryRowHasImpl(t: PostgresType)
    ensures HasImpl(Pair(Mapping(t)))
  {
    var r := Mapping(t);
    if r.policy == Reuse {
      ReuseHasDefiner(t);
      var d :| d != t && Mapping(d).policy != Reuse && SamePair(Mapping(d), r);
      if Mapping(d).policy == Manual {
        ManualRowsAreHandWritten(d, d);
      } else {
        assert Generates(Mapping(d)) && Pair(Mapping(d)) == Pair(r);
      }
    } else if r.policy == Manual {
      ManualRowsAreHandWritten(t, t);
    } else {
      assert Generates(Mapping(t)) && Pair(Mapping(t)) == Pair(r);
    }
  }

  // ---------------------------------------------------------------------------------------
  // Values and the conversions between them

  /** A value of one of the native types. */
  datatype Value =
    | F32Value(f32: N.F32)
    | F64Value(f64: N.F64)
    | DecimalValue(decimal: N.Decimal)
    | I16Value(i16: N.I16)
    | I32Value(i32: N.I32)
    | I64Value(i64: N.I64)
    | BoolValue(b: bool)
    | StrValue(str: string)
    | StringValue(text: string)
    | NaiveDateTimeValue(naiveDateTime: N.NaiveDateTime)
    | NaiveDateTimeWrapperMicroValue(naiveDateTimeMicro: N.NaiveDateTimeWrapperMicro)
    | NaiveDateValue(naiveDate: N.NaiveDate)
    | NaiveTimeValue(naiveTime: N.NaiveTime)
    | NaiveTimeWrapperMicroValue(naiveTimeMicro: N.NaiveTimeWrapperMicro)
    | DateTimeUtcValue(dateTime: N.DateTimeUtc)
    | DateTimeWrapperMicroValue(dateTimeMicro: N.DateTimeWrapperMicro)
    | UuidValue(uuid: N.Uuid)
    | BytesValue(bytes: seq<N.U8>)
    | JsonValue(json: N.Json)
    | VecBoolValue(bools: seq<Option<bool>>)
    | VecStringValue(strings: seq<Option<string>>)
    | VecI16Value(i16s: seq<Option<N.I16>>)
    | VecI32Value(i32s: seq<Option<N.I32>>)
    | VecI64Value(i64s: seq<Option<N.I64>>)
    | VecF32Value(f32s: seq<Option<N.F32>>)
    | VecF64Value(f64s: seq<Option<N.F64>>)
    | VecDecimalValue(decimals: seq<Option<N.Decimal>>)

  function TypeOf(v: Value): NativeType {
    match v
    case F32Value(_) => F32
    case F64Value(_) => F64
    case DecimalValue(_) => Decimal
    case I16Value(_) => I16
    case I32Value(_) => I32
    case I64Value(_) => I64
    case BoolValue(_) => NativeType.Bool
    case StrValue(_) => Str
    case StringValue(_) => String
    case NaiveDateTimeValue(_) => NaiveDateTime
    case NaiveDateTimeWrapperMicroValue(_) => NaiveDateTimeWrapperMicro
    case NaiveDateValue(_) => NaiveDate
    case NaiveTimeValue(_) => NaiveTime
    case NaiveTimeWrapperMicroValue(_) => NaiveTimeWrapperMicro
    case DateTimeUtcValue(_) => DateTimeUtc
    case DateTimeWrapperMicroValue(_) => DateTimeWrapperMicro
    case UuidValue(_) => Uuid
    case BytesValue(_) => Bytes
    case JsonValue(_) => Json
    case VecBoolValue(_) => VecBool
    case VecStringValue(_) => VecString
    case VecI16Value(_) => VecI16
    case VecI32Value(_) => VecI32
    case VecI64Value(_) => VecI64
    case VecF32Value(_) => VecF32
    case VecF64Value(_) => VecF64
    case VecDecimalValue(_) => VecDecimal
  }

  /** The library functions the hand-written impls call: `Decimal::to_f64` (None where it
      gives None), `Uuid::to_string` and serde_json's `Value::to_string`. */
  datatype Foreign = Foreign(
    decimalToF64: N.Decimal -> Option<N.F64>,
    uuidToString: N.Uuid -> string,
    jsonToString: N.Json -> string)

  /** `TypeConversion<NaiveTime, NaiveTimeWrapperMicro>`: the wrapper holds the time as is. */
  function ConvertTime(val: N.NaiveTime): (r: N.NaiveTimeWrapperMicro)
    ensures r.time == val
  {
    N.NaiveTimeWrapperMicro(val)
  }

  /** `TypeConversion<NaiveDateTime, NaiveDateTimeWrapperMicro>`. */
  function ConvertTimestamp(val: N.NaiveDateTime): (r: N.NaiveDateTimeWrapperMicro)
    ensures r.datetime == val
  {
    N.NaiveDateTimeWrapperMicro(val)
  }

  /** `TypeConversion<DateTime<Utc>, DateTimeWrapperMicro>`. */
  function ConvertTimestampTz(val: N.DateTimeUtc): (r: N.DateTimeWrapperMicro)
    ensures r.datetime == val
  {
    N.DateTimeWrapperMicro(val)
  }

  /** `TypeConversion<Uuid, String>`: the library's textual form. */
  function ConvertUuid(f: Foreign, val: N.Uuid): string {
    f.uuidToString(val)
  }

  /** `TypeConversion<Value, String>`: the library's JSON text. */
  function ConvertJson(f: Foreign, val: N.Json): string {
    f.jsonToString(val)
  }

  /** `TypeConversion<Decimal, f64>`: the library's `f64` for the decimal. Where the
      library gives none the impl panics, so the caller must rule that out. */
  function ConvertDecimal(f: Foreign, val: N.Decimal): (r: N.F64)
    requires f.decimalToF64(val).Some?
    ensures f.decimalToF64(val) == Some(r)
  {
    f.decimalToF64(val).value
  }

  /** No present element of a numeric array makes the conversion panic. */
  predicate DecimalsConvert(f: Foreign, vals: seq<Option<N.Decimal>>) {
    forall i :: 0 <= i < |vals| && vals[i].Some? ==> f.decimalToF64(vals[i].value).Some?
  }

  /** `TypeConversion<Vec<Option<Decimal>>, Vec<Option<f64>>>`: converts the elements one
      by one, in order. The result is as long as the input, has `None` exactly where the
      input has, and the library's `f64` of each present element. */
  function ConvertNumericArray(f: Foreign, vals: seq<Option<N.Decimal>>): (r: seq<Option<N.F64>>)
    requires DecimalsConvert(f, vals)
    ensures |r| == |vals|
    ensures forall i :: 0 <= i < |vals| ==> (r[i].None? <==> vals[i].None?)
    ensures forall i :: 0 <= i < |vals| && vals[i].Some? ==> f.decimalToF64(vals[i].value) == r[i]
  {
    if vals == [] then []
    else
      var x := match vals[0] case None => None case Some(d) => Some(ConvertDecimal(f, d));
      [x] + ConvertNumericArray(f, vals[1..])
  }

  /** The value makes no decimal conversion panic. */
  predicate Converts(f: Foreign, v: Value) {
    match v
    case DecimalValue(d) => f.decimalToF64(d).Some?
    case VecDecimalValue(ds) => DecimalsConvert(f, ds)
    case _ => true
  }

  /** The `TypeConversion` impls of this transport: the ones the `auto` and `owned` rows
      generate and the hand-written ones, each found by the type of the value it is given
      (the source native type decides the pair, `SourceNativeDecides`). */
  function Impl(f: Foreign, v: Value): Value
    requires Converts(f, v)
  {
    match v
    case StrValue(s) => StringValue(s)
    case NaiveTimeValue(x) => NaiveTimeWrapperMicroValue(ConvertTime(x))
    case NaiveDateTimeValue(x) => NaiveDateTimeWrapperMicroValue(ConvertTimestamp(x))
    case DateTimeUtcValue(x) => DateTimeWrapperMicroValue(ConvertTimestampTz(x))
    case UuidValue(x) => StringValue(ConvertUuid(f, x))
    case JsonValue(x) => StringValue(ConvertJson(f, x))
    case DecimalValue(x) => F64Value(ConvertDecimal(f, x))
    case VecDecimalValue(xs) => VecF64Value(ConvertNumericArray(f, xs))
    case _ => v
  }

  /** Converting one value of a column whose Postgres type is t: the result has the
      destination native type of t's row, an `auto` row hands the value on unchanged and an
      `owned` row an owned copy of the same text. */
  function Convert(f: Foreign, t: PostgresType, v: Value): (r: Value)
    requires TypeOf(v) == Mapping(t).srcNative && Converts(f, v)
    ensures TypeOf(r) == Mapping(t).dstNative
    ensures Mapping(t).policy == Auto ==> r == v
    ensures Mapping(t).policy == Owned ==> r == StringValue(v.str)
  {
    Impl(f, v)
  }

  /** A row marked `none` converts exactly as the row whose impl it reuses. This holds by
      construction: `Convert` dispatches on the value alone and never reads the tag, just
      as the impls are keyed by the native pair. That the pair, and so the impl, is a
      function of the source native type is `SourceNativeDecides`. */
  lemma ReuseConvertsLikeDefiner(f: Foreign, t: PostgresType, d: PostgresType, v: Value)
    requires SamePair(Mapping(t), Mapping(d)) && TypeOf(v) == Mapping(t).srcNative && Converts(f, v)
    ensures Convert(f, t, v) == Convert(f, d, v)
  {
  }
}
