/** The slice of JavaScript values the state layer moves around: store states,
    plucked properties, pipe inputs and log metadata. */
module JsValues {
  import opened Wrappers

  /** A JavaScript value. Numbers are integers only (NaN and fractions are not
      modelled) and objects are plain property maps compared by value. */
  datatype Value =
    | Undefined
    | Null
    | Bool(b: bool)
    | Num(n: int)
    | Str(s: string)
    | Obj(fields: map<string, Value>)

  /** The TypeError thrown when reading a property of null or undefined. */
  datatype TypeError = CannotReadProperties(of: Value, key: string)

  /** JavaScript truthiness: `false`, `0`, `""`, `null` and `undefined` are falsy. */
  predicate Truthy(v: Value)
  {
    match v
    case Undefined => false
    case Null => false
    case Bool(b) => b
    case Num(n) => n != 0
    case Str(s) => s != ""
    case Obj(_) => true
  }

  predicate Nullish(v: Value)
  {
    v.Null? || v.Undefined?
  }

  /** `v[key]` on a value that is not null or undefined: an own property of an
      object, otherwise undefined. */
  function Member(v: Value, key: string): (r: Value)
    requires !Nullish(v)
    ensures v.Obj? && key in v.fields ==> r == v.fields[key]
    ensures !(v.Obj? && key in v.fields) ==> r == Undefined
  {
    if v.Obj? && key in v.fields then v.fields[key] else Undefined
  }

  /** `a || b` */
  function Or(a: Value, b: Value): (r: Value)
    ensures Truthy(a) ==> r == a
    ensures !Truthy(a) ==> r == b
  {
    if Truthy(a) then a else b
  }
}
