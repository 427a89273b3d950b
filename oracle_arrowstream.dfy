/** The transport from the Oracle source to the Arrow stream destination. Every row of its
    table is either `auto` or reuses an `auto` row, so every value crosses unchanged. */
module OracleArrowStream {
  import opened Transport

  /** The Oracle type system's tags. */
  datatype OracleType =
    | NumFloat | Float | BinaryFloat | BinaryDouble | NumInt | Blob | Clob | VarChar | Char
    | NVarChar | NChar | Date | Timestamp | TimestampTz

  /** The Arrow stream type system's tags that the table uses. */
  datatype ArrowType = Float64 | Int64 | LargeBinary | LargeUtf8 | Date64 | DateTimeTz

  /** The Rust types that appear in the table (`Bytes` is `Vec<u8>`). */
  datatype NativeType = F64 | I64 | Bytes | String | NaiveDateTime | DateTimeUtc

  type OraRow = Row<ArrowType, NativeType>

  /** The table, one row per Oracle tag. */
  function Mapping(t: OracleType): OraRow {
    match t
    case NumFloat     => Row(F64, Float64, F64, Auto)
    case Float        => Row(F64, Float64, F64, Reuse)
    case BinaryFloat  => Row(F64, Float64, F64, Reuse)
    case BinaryDouble => Row(F64, Float64, F64, Reuse)
    case NumInt       => Row(I64, Int64, I64, Auto)
    case Blob         => Row(Bytes, LargeBinary, Bytes, Auto)
    case Clob         => Row(String, LargeUtf8, String, Reuse)
    case VarChar      => Row(String, LargeUtf8, String, Auto)
    case Char         => Row(String, LargeUtf8, String, Reuse)
    case NVarChar     => Row(String, LargeUtf8, String, Reuse)
    case NChar        => Row(String, LargeUtf8, String, Reuse)
    case Date         => Row(NaiveDateTime, Date64, NaiveDateTime, Auto)
    case Timestamp    => Row(NaiveDateTime, Date64, NaiveDateTime, Reuse)
    case TimestampTz  => Row(DateTimeUtc, DateTimeTz, DateTimeUtc, Auto)
  }

  /** The tags in the order of the table's rows. */
  const SourceOrder: seq<OracleType> := [
    NumFloat, Float, BinaryFloat, BinaryDouble, NumInt, Blob, Clob, VarChar, Char, NVarChar,
    NChar, Date, Timestamp, TimestampTz
  ]

  /** Each of the 14 tags heads exactly one row of the table. */
  lemma EachTagOneRow(t: OracleType)
    ensures |SourceOrder| == 14 && t in SourceOrder
    ensures forall i, j :: 0 <= i < j < |SourceOrder| ==> SourceOrder[i] != SourceOrder[j]
  {
  }

  /** The native type the Arrow stream type system binds each of these tags to. */
  function ArrowNative(d: ArrowType): NativeType {
    match d
    case Float64     => F64
    case Int64       => I64
    case LargeBinary => Bytes
    case LargeUtf8   => String
    case Date64      => NaiveDateTime
    case DateTimeTz  => DateTimeUtc
  }

  /** The `auto` row that generates the impl a row uses. */
  function Definer(t: OracleType): (d: OracleType)
    ensures Mapping(d).policy == Auto && SamePair(Mapping(d), Mapping(t))
    ensures Mapping(t).policy == Auto ==> d == t
  {
    match Mapping(t).srcNative
    case F64 => NumFloat
    case I64 => NumInt
    case Bytes => Blob
    case String => VarChar
    case NaiveDateTime => Date
    case DateTimeUtc => TimestampTz
  }

  /** Every row is `auto` or `none`, and converts a type to itself. */
  lemma EveryRowIsIdentity(t: OracleType)
    ensures Mapping(t).policy == Auto || Mapping(t).policy == Reuse
    ensures Mapping(t).srcNative == Mapping(t).dstNative
  {
  }

  /** Every row's destination native type is the one its Arrow tag binds to. */
  lemma DestinationIsBound(t: OracleType)
    ensures Mapping(t).dstNative == ArrowNative(Mapping(t).dst)
  {
  }

  /** Two rows with the same Arrow tag agree on the destination native type. */
  lemma DestinationBinding(t: OracleType, u: OracleType)
    ensures Mapping(t).dst == Mapping(u).dst ==> Mapping(t).dstNative == Mapping(u).dstNative
  {
    DestinationIsBound(t);
    DestinationIsBound(u);
  }

  /** Each row marked `none` reuses the impl of an `auto` row with the same native pair. */
  lemma ReuseHasDefiner(t: OracleType)
    requires Mapping(t).policy == Reuse
    ensures exists d :: d != t && Mapping(d).policy == Auto && SamePair(Mapping(d), Mapping(t))
  {
    var d := Definer(t);
    assert d != t;
  }

  /** Each native pair of the table has exactly one `auto` row, so no impl is generated
      twice and every `none` row finds one. */
  lemma OneImplPerPair(t: OracleType, u: OracleType)
    ensures Mapping(t).policy == Auto && Mapping(u).policy == Auto && SamePair(Mapping(t), Mapping(u)) ==> t == u
  {
  }

  /** The character types all land in `LargeUtf8` and the floating-point types in
      `Float64`. */
  lemma TypeFamilies(t: OracleType)
    ensures t in {Clob, VarChar, Char, NVarChar, NChar} <==> Mapping(t).dst == LargeUtf8
    ensures t in {NumFloat, Float, BinaryFloat, BinaryDouble} <==> Mapping(t).dst == Float64
  {
  }
}
