/**
 * Building the rendering context from the top-level TOML value: the
 * table step at the end of `parse_values`.
 */
module ContextBuilder {
  import opened Wrappers
  import opened Tables
  import Toml
  import Liquid
  import opened Conversion

  /** The error when the document's top level is not a table. */
  const NotATableMessage := "Can't parse the top level item in the TOML file as table."

  /**
   * The context a top-level value yields: its table converted, or the
   * not-a-table error. On success the context binds exactly the table's keys.
   */
  function ContextOf(p: Primitives, top: Toml.Value): (r: Result<Liquid.Context, string>)
    ensures r.Err? <==> !top.Table?
    ensures r.Err? ==> r.error == NotATableMessage
    ensures r.Ok? ==> r.value.Keys == KeysOf(top.table)
  {
    if top.Table? then Ok(Convert(p, top).obj) else Err(NotATableMessage)
  }

  /**
   * Starts from an empty context and binds each table entry's key to its
   * converted value, in iteration order.
   */
  method BuildContext(p: Primitives, top: Toml.Value) returns (r: Result<Liquid.Context, string>)
    ensures r == ContextOf(p, top)
  {
    if !top.Table? {
      return Err(NotATableMessage);
    }
    var table := top.table;
    ghost var converted := MapValues(table, (x: Toml.Value) => Convert(p, x));
    var context: Liquid.Context := map[];
    var i := 0;
    while i < |table|
      invariant 0 <= i <= |table|
      invariant context == Collect(converted[..i])
    {
      var (key, value) := table[i];
      CollectSnoc(converted, i);
      assert converted[i] == (key, Convert(p, value));
      context := context[key := Convert(p, value)];
      i := i + 1;
    }
    assert converted[..i] == converted;
    assert context == Convert(p, top).obj by {
      ConvertTable(p, table);
      CollectMapValues(table, (x: Toml.Value) => Convert(p, x));
    }
    r := Ok(context);
  }

  /** An empty top-level table gives an empty context, and no error. */
  lemma EmptyTableEmptyContext(p: Primitives)
    ensures ContextOf(p, Toml.Table([])) == Ok(map[])
  {
  }

  /** For a table with distinct keys, each key is bound to the conversion of its own value. */
  lemma ContextBindings(p: Primitives, table: seq<(string, Toml.Value)>)
    requires DistinctKeys(table)
    ensures ContextOf(p, Toml.Table(table)).Ok?
    ensures forall i :: 0 <= i < |table| ==>
      table[i].0 in ContextOf(p, Toml.Table(table)).value &&
      ContextOf(p, Toml.Table(table)).value[table[i].0] == Convert(p, table[i].1)
  {
    forall i | 0 <= i < |table|
      ensures table[i].0 in Convert(p, Toml.Table(table)).obj
      ensures Convert(p, Toml.Table(table)).obj[table[i].0] == Convert(p, table[i].1)
    {
      ConvertTableEntry(p, table, i);
    }
  }

  /**
   * The values table that the expected output of `gen_xml_with_values`
   * implies (keys in the table's iteration order): every key is bound, the string array keeps its two
   * addresses in order, and the numbers go through the f32 cast.
   */
  lemma FixtureContext(p: Primitives, floatVal: Toml.F64)
    ensures ContextOf(p, Toml.Table([
        ("array_val", Toml.Array([Toml.String("172.17.0.2"), Toml.String("172.17.0.3")])),
        ("bool_val", Toml.Boolean(true)),
        ("float_val", Toml.Float(floatVal)),
        ("int_val", Toml.Integer(123)),
        ("string_val", Toml.String("Hello"))]))
      == Ok(map[
        "array_val" := Liquid.Array([Liquid.Str("172.17.0.2"), Liquid.Str("172.17.0.3")]),
        "bool_val" := Liquid.Bool(true),
        "float_val" := Liquid.Num(p.floatAsF32(floatVal)),
        "int_val" := Liquid.Num(p.intAsF32(123)),
        "string_val" := Liquid.Str("Hello")])
  {
    var addresses := [Toml.String("172.17.0.2"), Toml.String("172.17.0.3")];
    var table := [
      ("array_val", Toml.Array(addresses)),
      ("bool_val", Toml.Boolean(true)),
      ("float_val", Toml.Float(floatVal)),
      ("int_val", Toml.Integer(123)),
      ("string_val", Toml.String("Hello"))];
    var arr := Liquid.Array([Liquid.Str("172.17.0.2"), Liquid.Str("172.17.0.3")]);
    ConvertArray(p, addresses);
    assert Convert(p, Toml.Array(addresses)) == arr;
    var entries := [
      ("array_val", arr),
      ("bool_val", Liquid.Bool(true)),
      ("float_val", Liquid.Num(p.floatAsF32(floatVal))),
      ("int_val", Liquid.Num(p.intAsF32(123))),
      ("string_val", Liquid.Str("Hello"))];
    var converted := seq(|table|, i requires 0 <= i < |table| => (table[i].0, Convert(p, table[i].1)));
    assert converted == entries;
    assert Convert(p, Toml.Table(table)).obj == Collect(converted);
    assert entries[..0] == [] && entries[..5] == entries;
    CollectSnoc(entries, 0);
    CollectSnoc(entries, 1);
    CollectSnoc(entries, 2);
    CollectSnoc(entries, 3);
    CollectSnoc(entries, 4);
  }
}
