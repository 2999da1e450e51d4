/** JavaScript runtime values as the legacy task adapter observes them.
    Numbers are integers: the adapter only ever carries pixel sizes. */
module JsValues {

  /** A runtime value. `Obj` is a plain object (own enumerable properties only);
      `Func` is a function object, known only by its identity. */
  datatype Value =
    | Undefined
    | Null
    | Bool(b: bool)
    | Num(n: int)
    | Str(s: string)
    | Arr(items: seq<Value>)
    | Obj(fields: map<string, Value>)
    | Func(ref: nat)

  /** A plain object as a map from property names to values. */
  type Object = map<string, Value>

  /** JavaScript truthiness: `undefined`, `null`, `false`, `0` and `""` are falsy. */
  predicate Truthy(v: Value) {
    match v
    case Undefined => false
    case Null => false
    case Bool(b) => b
    case Num(n) => n != 0
    case Str(s) => s != ""
    case Arr(_) => true
    case Obj(_) => true
    case Func(_) => true
  }

  /** `typeof v === 'number'` */
  predicate IsNumber(v: Value) {
    v.Num?
  }

  /** Property read `o.key`: a property the object does not have reads as `undefined`. */
  function Get(o: Object, key: string): Value {
    if key in o then o[key] else Undefined
  }
}
