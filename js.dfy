/** JavaScript values as the handlers see them once `JSON.parse` has run, and the
    few pieces of JavaScript semantics the handlers rely on: truthiness, property
    access that throws on `undefined` and `null`, and indexed `for` loops. */
module Js {

  datatype Option<+T> = None | Some(value: T)

  /** A JavaScript value. Numbers are integers here (see README, "Left out"). */
  datatype Value =
    | Undefined
    | Null
    | Bool(b: bool)
    | Num(n: int)
    | Str(s: string)
    | Arr(elems: seq<Value>)
    | Obj(fields: map<string, Value>)

  /** JavaScript truthiness: `undefined`, `null`, `false`, `0` and `""` are falsy;
      every array and every object is truthy, empty ones included. */
  predicate Truthy(v: Value) {
    match v
    case Undefined => false
    case Null => false
    case Bool(b) => b
    case Num(n) => n != 0
    case Str(s) => s != ""
    case Arr(_) => true
    case Obj(_) => true
  }

  predicate Nullish(v: Value) {
    v.Undefined? || v.Null?
  }

  /** Property access `v.key` on a value that is not `undefined` or `null`: an
      object yields the field or `undefined`; any other value has no such own
      property and yields `undefined`. */
  function Get(v: Value, key: string): Value
    requires !Nullish(v)
  {
    if v.Obj? && key in v.fields then v.fields[key] else Undefined
  }

  /** Property access `v.key` on any value: `None` stands for the TypeError thrown
      on `undefined` and `null`. */
  function Member(v: Value, key: string): Option<Value> {
    if Nullish(v) then None else Some(Get(v, key))
  }

  /** The elements visited by `for (i = 0; i < v.length; i++) ... v[i]`: `None` is
      the TypeError of reading `length` of `undefined` or `null`; an array yields its
      elements, a string its one-character strings, and a value without a numeric
      `length` yields no iteration at all. */
  function Indexed(v: Value): Option<seq<Value>> {
    match v
    case Undefined => None
    case Null => None
    case Arr(elems) => Some(elems)
    case Str(s) => Some(seq(|s|, i requires 0 <= i < |s| => Str([s[i]])))
    case _ => Some([])
  }
}
