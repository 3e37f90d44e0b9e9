/**
 * The value-model bridge: `convert` maps a TOML value onto the Liquid value
 * that templates see.
 */
module Conversion {
  import opened Wrappers
  import opened Tables
  import Toml
  import Liquid

  /**
   * The foreign conversions `convert` relies on: the `as f32` casts of an
   * integer and of a float, and the date-time's `to_string`. Their results are
   * not modelled, so they are parameters.
   */
  datatype Primitives = Primitives(
    intAsF32: Toml.I64 -> Liquid.F32,
    floatAsF32: Toml.F64 -> Liquid.F32,
    datetimeToString: Toml.Datetime -> string)

  /**
   * Total and structure-preserving: every TOML variant has exactly one Liquid
   * variant it maps to, scalars keep their payload (numbers after the f32
   * cast, date-times as text), an array keeps its length and a table its keys.
   */
  function Convert(p: Primitives, v: Toml.Value): (r: Liquid.Value)
    ensures r.Num? <==> v.Integer? || v.Float?
    ensures r.Bool? <==> v.Boolean?
    ensures r.Str? <==> v.String? || v.Datetime?
    ensures r.Array? <==> v.Array?
    ensures r.Object? <==> v.Table?
    ensures v.Integer? ==> r.n == p.intAsF32(v.i)
    ensures v.Float? ==> r.n == p.floatAsF32(v.f)
    ensures v.Boolean? ==> r.flag == v.b
    ensures v.String? ==> r.str == v.s
    ensures v.Datetime? ==> r.str == p.datetimeToString(v.d)
    ensures v.Array? ==> |r.items| == |v.arr|
    ensures v.Table? ==> r.obj.Keys == KeysOf(v.table)
  {
    match v
    case Integer(i) => Liquid.Num(p.intAsF32(i))
    case Float(f) => Liquid.Num(p.floatAsF32(f))
    case Boolean(b) => Liquid.Bool(b)
    case String(s) => Liquid.Str(s)
    case Datetime(d) => Liquid.Str(p.datetimeToString(d))
    case Array(arr) =>
      Liquid.Array(seq(|arr|, i requires 0 <= i < |arr| => Convert(p, arr[i])))
    case Table(table) =>
      var converted := seq(|table|, i requires 0 <= i < |table| => (table[i].0, Convert(p, table[i].1)));
      assert KeysOf(converted) == KeysOf(table) by {
        assert forall i :: 0 <= i < |table| ==> converted[i].0 == table[i].0;
      }
      Liquid.Object(Collect(converted))
  }

  /** The conversion of an optional value. */
  function ConvertOption(p: Primitives, v: Option<Toml.Value>): Option<Liquid.Value>
  {
    match v
    case None => None
    case Some(x) => Some(Convert(p, x))
  }

  /** Array elements are converted one by one, in order. */
  lemma ConvertArray(p: Primitives, arr: seq<Toml.Value>)
    ensures |Convert(p, Toml.Array(arr)).items| == |arr|
    ensures forall i :: 0 <= i < |arr| ==> Convert(p, Toml.Array(arr)).items[i] == Convert(p, arr[i])
  {
  }

  /** The object binds the table's keys, each to the conversion of the table's value for it. */
  lemma ConvertTable(p: Primitives, table: seq<(string, Toml.Value)>)
    ensures Convert(p, Toml.Table(table)).obj == map k | k in Collect(table) :: Convert(p, Collect(table)[k])
  {
    var f := (x: Toml.Value) => Convert(p, x);
    var converted := seq(|table|, i requires 0 <= i < |table| => (table[i].0, Convert(p, table[i].1)));
    assert converted == MapValues(table, f);
    assert Convert(p, Toml.Table(table)).obj == Collect(converted);
    CollectMapValues(table, f);
  }

  /** For a table with distinct keys: entry `(k, x)` becomes the binding of `k` to `Convert(x)`. */
  lemma ConvertTableEntry(p: Primitives, table: seq<(string, Toml.Value)>, i: int)
    requires DistinctKeys(table) && 0 <= i < |table|
    ensures table[i].0 in Convert(p, Toml.Table(table)).obj
    ensures Convert(p, Toml.Table(table)).obj[table[i].0] == Convert(p, table[i].1)
  {
    ConvertTable(p, table);
    CollectDistinct(table);
  }

  /**
   * Conversion commutes with lookup: following a path through the converted
   * value finds exactly the conversion of what the same path finds in the
   * TOML value, and finds nothing where the TOML value has nothing.
   */
  lemma {:induction false} ConvertAt(p: Primitives, v: Toml.Value, path: seq<Selector>)
    ensures Liquid.At(Convert(p, v), path) == ConvertOption(p, Toml.At(v, path))
    decreases |path|
  {
    if path != [] {
      match path[0]
      case Index(i) =>
        if v.Array? && i < |v.arr| {
          ConvertAt(p, v.arr[i], path[1..]);
        }
      case Key(k) =>
        if v.Table? {
          ConvertTable(p, v.table);
          if k in Collect(v.table) {
            ConvertAt(p, Collect(v.table)[k], path[1..]);
          }
        }
    }
  }
}
