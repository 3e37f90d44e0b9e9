/**
 * The Liquid engine's dynamic value (`liquid::Value`) and its rendering
 * context. The engine itself is not modelled.
 */
module Liquid {
  import opened Wrappers
  import opened Tables

  /** A Liquid number is an `f32`, kept as its IEEE 754 binary32 bit pattern. */
  datatype F32 = F32(bits: bv32)

  /** The five variants of a Liquid value; an object is a hash map. */
  datatype Value =
    | Num(n: F32)
    | Bool(flag: bool)
    | Str(str: string)
    | Array(items: seq<Value>)
    | Object(obj: map<string, Value>)

  /** The variables a template is rendered against (`liquid::Context`). */
  type Context = map<string, Value>

  /** The value reached from `v` along `path`, if there is one. */
  function At(v: Value, path: seq<Selector>): Option<Value>
    decreases |path|
  {
    if path == [] then Some(v)
    else match path[0]
      case Index(i) =>
        if v.Array? && i < |v.items| then At(v.items[i], path[1..]) else None
      case Key(k) =>
        if v.Object? && k in v.obj then At(v.obj[k], path[1..]) else None
  }
}
