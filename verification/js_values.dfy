/**
  The JavaScript values the lifecycle handler inspects: the entries of a
  resource-property object, the error values handed to callbacks, and the
  truthiness test that `if (x)` and `!x` apply to them.
 */
module JsValues {

  datatype Option<+T> = None | Some(value: T)

  /** A JavaScript value. Numbers are modelled as integers. */
  datatype Value =
    | Undefined
    | Null
    | Bool(b: bool)
    | Num(n: int)
    | Str(s: string)
    | Arr(items: seq<Value>)
    | Obj(fields: map<string, Value>)

  /** A plain object used as a dictionary: property name to value. */
  type Props = map<string, Value>

  /** JavaScript truthiness: `undefined`, `null`, `false`, `0` and `""` are falsy,
      every other value (every array and object included) is truthy. */
  predicate Truthy(v: Value) {
    match v
    case Undefined => false
    case Null => false
    case Bool(b) => b
    case Num(n) => n != 0
    case Str(s) => s != ""
    case Arr(_) => true
    case Obj(_) => true
  }

  /** `v.name`: an own property of an object, `undefined` otherwise. */
  function Property(v: Value, name: string): Value {
    match v
    case Obj(fields) => if name in fields then fields[name] else Undefined
    case _ => Undefined
  }

  /** `p.name` for a dictionary `p`: `undefined` when the key is absent. */
  function Get(p: Props, name: string): Value {
    if name in p then p[name] else Undefined
  }
}
