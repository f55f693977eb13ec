/**
 * JavaScript values as index.js inspects them. Only the kind of a value
 * matters to the argument sniffing (underscore's _.isObject, _.isArray,
 * _.isString, _.isFunction) and to the `if (x)` truthiness tests, so the
 * model keeps the kind and just enough payload to carry the argument on.
 */
module JsValues {

  datatype Value =
    | Obj(id: nat)            // a plain object, known by identity (the config)
    | Arr(items: seq<string>) // an array of argument strings
    | Str(s: string)
    | Fn(id: nat)             // a function, known by identity (a callback)
    | Null
    | Undefined
    | Prim(truthy: bool)      // a number or a boolean, known by its truthiness

  /** _.isObject: true for objects, arrays and functions; false for null and strings. */
  predicate IsObject(v: Value)
  {
    v.Obj? || v.Arr? || v.Fn?
  }

  /** _.isArray */
  predicate IsArray(v: Value)
  {
    v.Arr?
  }

  /** _.isString */
  predicate IsString(v: Value)
  {
    v.Str?
  }

  /** _.isFunction */
  predicate IsFunction(v: Value)
  {
    v.Fn?
  }

  /** JavaScript truthiness: `if (v)`. */
  predicate Truthy(v: Value)
  {
    match v
    case Obj(_) => true
    case Arr(_) => true
    case Fn(_) => true
    case Str(s) => s != ""
    case Null => false
    case Undefined => false
    case Prim(t) => t
  }
}
