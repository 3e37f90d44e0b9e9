/**
 * The parsed TOML document (`toml::Value`), as the toml crate hands it over.
 * It is an input of the model: the parser itself is not modelled.
 */
module Toml {
  import opened Wrappers
  import opened Tables

  /** TOML integers are signed 64-bit. */
  newtype I64 = x: int | -0x8000_0000_0000_0000 <= x < 0x8000_0000_0000_0000

  /** A TOML float, kept as its IEEE 754 binary64 bit pattern. */
  datatype F64 = F64(bits: bv64)

  /** The parts of a TOML date-time; which of them are present tells the four TOML date-time kinds apart. */
  datatype Date = Date(year: nat, month: nat, day: nat)
  datatype Time = Time(hour: nat, minute: nat, second: nat, nanosecond: nat)
  datatype Offset = Z | Custom(hours: int, minutes: nat)
  datatype Datetime = Datetime(date: Option<Date>, time: Option<Time>, offset: Option<Offset>)

  /**
   * The seven variants of a TOML value. A table is its entry sequence in
   * iteration order; the crate's map type keeps its keys distinct.
   */
  datatype Value =
    | Integer(i: I64)
    | Float(f: F64)
    | Boolean(b: bool)
    | String(s: string)
    | Datetime(d: Datetime)
    | Array(arr: seq<Value>)
    | Table(table: seq<(string, Value)>)

  /** The value reached from `v` along `path`, if there is one. */
  function At(v: Value, path: seq<Selector>): Option<Value>
    decreases |path|
  {
    if path == [] then Some(v)
    else match path[0]
      case Index(i) =>
        if v.Array? && i < |v.arr| then At(v.arr[i], path[1..]) else None
      case Key(k) =>
        if v.Table? && k in Collect(v.table) then At(Collect(v.table)[k], path[1..]) else None
  }
}
