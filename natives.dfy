/** The Rust values the transports carry from a source to a destination. Only their
    identity matters to the model: no arithmetic, calendar or formatting is modelled. */
module Natives {
  /** `f32` and `f64`, kept as their IEEE-754 bit patterns. */
  type F32 = bv32
  type F64 = bv64

  newtype I16 = x: int | -0x8000 <= x < 0x8000
  newtype I32 = x: int | -0x8000_0000 <= x < 0x8000_0000
  newtype I64 = x: int | -0x8000_0000_0000_0000 <= x < 0x8000_0000_0000_0000
  newtype U8 = x: int | 0 <= x < 0x100

  /** rust_decimal's `Decimal`: the number mantissa / 10^scale. */
  datatype Decimal = Decimal(mantissa: int, scale: nat)

  /** chrono's `NaiveDate` (year and day of the year), `NaiveTime` (seconds since
      midnight and nanoseconds), `NaiveDateTime` and `DateTime<Utc>`. */
  datatype NaiveDate = NaiveDate(year: int, ordinal: nat)
  datatype NaiveTime = NaiveTime(secs: nat, nanos: nat)
  datatype NaiveDateTime = NaiveDateTime(date: NaiveDate, time: NaiveTime)
  datatype DateTimeUtc = DateTimeUtc(utc: NaiveDateTime)

  /** The wrappers of the Arrow destination's type system that mark chrono values to be
      stored with microsecond precision. */
  datatype NaiveTimeWrapperMicro = NaiveTimeWrapperMicro(time: NaiveTime)
  datatype NaiveDateTimeWrapperMicro = NaiveDateTimeWrapperMicro(datetime: NaiveDateTime)
  datatype DateTimeWrapperMicro = DateTimeWrapperMicro(datetime: DateTimeUtc)

  /** uuid's `Uuid`, kept as its bytes. */
  datatype Uuid = Uuid(bytes: seq<U8>)

  /** serde_json's `Value`; the model keeps a number as text, since only the identity of
      a value matters here. */
  datatype Json =
    | Null
    | Bool(b: bool)
    | Number(text: string)
    | String(s: string)
    | Array(items: seq<Json>)
    | Object(entries: seq<(string, Json)>)
}
