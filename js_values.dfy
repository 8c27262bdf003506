/**
 * JavaScript values as they reach the translation layer: the JSON-shaped
 * data of a mapped record, plus `undefined` for a property that is missing.
 * Only the few JavaScript operations the translation code relies on are
 * modelled: truthiness, `typeof v === 'string'`, property reads, object
 * spread and array indexing.
 */
module JsValues {

  datatype Option<+T> = None | Some(value: T)

  datatype Value =
    | Undefined
    | Null
    | Bool(b: bool)
    | Num(n: real)
    | Str(s: string)
    | Arr(items: seq<Value>)
    | Obj(props: map<string, Value>)

  /** What `if (v)`, `!v` and `v || w` test. */
  predicate Truthy(v: Value) {
    match v
    case Undefined => false
    case Null => false
    case Bool(b) => b
    case Num(n) => n != 0.0
    case Str(s) => s != ""
    case Arr(_) => true
    case Obj(_) => true
  }

  /** Reading a property of these throws a TypeError. */
  predicate Nullish(v: Value) {
    v.Undefined? || v.Null?
  }

  /** `obj[key]` on a plain object: `undefined` when the key is absent. */
  function Lookup(props: map<string, Value>, key: string): Value {
    if key in props then props[key] else Undefined
  }

  /** `a[i]` on an array: `undefined` past the end. */
  function At(a: seq<Value>, i: nat): Value {
    if i < |a| then a[i] else Undefined
  }

  function Digit(d: nat): char
    requires d < 10
  {
    "0123456789"[d]
  }

  /** The property key of array index `i`: its decimal spelling. */
  function IndexKey(i: nat): string {
    if i < 10 then [Digit(i)] else IndexKey(i / 10) + [Digit(i % 10)]
  }

  /** The index-keyed own properties of an array or a string. */
  function IndexProps(items: seq<Value>): map<string, Value> {
    if items == [] then map[]
    else IndexProps(items[..|items| - 1])[IndexKey(|items| - 1) := items[|items| - 1]]
  }

  /** The own enumerable properties that the object spread `{ ...v }` copies. */
  function OwnProps(v: Value): map<string, Value> {
    match v
    case Obj(p) => p
    case Arr(items) => IndexProps(items)
    case Str(s) => IndexProps(seq(|s|, i requires 0 <= i < |s| => Str([s[i]])))
    case _ => map[]
  }

  /** `v.key` for a value that is neither `null` nor `undefined`. */
  function GetProp(v: Value, key: string): Value
    requires !Nullish(v)
  {
    Lookup(OwnProps(v), key)
  }

  /** `{ ...v, name: t }`: a new object holding every own property of `v`, with `name` set to `t`. */
  function WithName(v: Value, t: Value): (r: Value)
    ensures r.Obj?
    ensures Lookup(r.props, "name") == t
    ensures forall k :: k != "name" ==> Lookup(r.props, k) == Lookup(OwnProps(v), k)
    ensures v.Obj? ==> r.props.Keys == v.props.Keys + {"name"}
  {
    Obj(OwnProps(v)["name" := t])
  }

  /**
   * A record object. The translation routines overwrite its properties in
   * place and hand the same object back.
   */
  class JsObject {
    var props: map<string, Value>

    constructor (init: map<string, Value>)
      ensures props == init
    {
      props := init;
    }

    /** `obj.key` */
    function Get(key: string): Value
      reads this
    {
      Lookup(props, key)
    }

    /** `obj.key = v` */
    method Set(key: string, v: Value)
      modifies this
      ensures props == old(props)[key := v]
    {
      props := props[key := v];
    }
  }
}
