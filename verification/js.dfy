/**
 This module models the small part of JavaScript's value semantics that the
 sockets API inspects: truthiness (`!!v`), `typeof v == 'function'`, the
 `Object.prototype.toString` tag, property reads on plain objects, and the
 `in` operator.
 */
module Js {
  import opened Wrappers

  newtype byte = x: int | 0 <= x < 256

  /** A JavaScript value. Numbers are restricted to integers, and a function
      is known only by an identity the caller chooses. */
  datatype Value =
    | Undefined
    | Null
    | Bool(b: bool)
    | Number(n: int)
    | Str(s: string)
    | Func(id: nat)
    | Obj(fields: map<string, Value>)
    | Array(elems: seq<Value>)
    | ArrayBuffer(bytes: seq<byte>)
    | Uint8Array(view: seq<byte>)

  /** The own properties of a plain object. */
  type Fields = map<string, Value>

  /** The empty object literal `{}`. */
  const EmptyObject: Value := Obj(map[])

  /** The property read `o.key`; a missing property reads as undefined. */
  function Get(o: Fields, key: string): Value {
    if key in o then o[key] else Undefined
  }

  /** The property read `v.key` on any value, for a key that names no
      built-in property. */
  function Property(v: Value, key: string): Value {
    if v.Obj? then Get(v.fields, key) else Undefined
  }

  /** `!!v` */
  predicate Truthy(v: Value) {
    match v
    case Undefined => false
    case Null => false
    case Bool(b) => b
    case Number(n) => n != 0
    case Str(s) => s != ""
    case _ => true
  }

  /** `typeof v == 'function'` */
  predicate IsFunction(v: Value) {
    v.Func?
  }

  /** Values that are objects, as opposed to primitives. */
  predicate IsObject(v: Value) {
    v.Func? || v.Obj? || v.Array? || v.ArrayBuffer? || v.Uint8Array?
  }

  /** `Object.prototype.toString.call(v).slice(8, -1)` */
  function TypeTag(v: Value): string {
    match v
    case Undefined => "Undefined"
    case Null => "Null"
    case Bool(_) => "Boolean"
    case Number(_) => "Number"
    case Str(_) => "String"
    case Func(_) => "Function"
    case Obj(_) => "Object"
    case Array(_) => "Array"
    case ArrayBuffer(_) => "ArrayBuffer"
    case Uint8Array(_) => "Uint8Array"
  }

  /** `key in v`, for a key that names no built-in property: None where the
      operator throws a TypeError because `v` is a primitive. */
  function In(key: string, v: Value): (r: Option<bool>)
    ensures r.None? <==> !IsObject(v)
    ensures r == Some(true) <==> v.Obj? && key in v.fields
  {
    if !IsObject(v) then None
    else if v.Obj? then Some(key in v.fields)
    else Some(false)
  }

  /** Only an ArrayBuffer carries the "ArrayBuffer" tag. */
  lemma ArrayBufferTag(v: Value)
    ensures TypeTag(v) == "ArrayBuffer" <==> v.ArrayBuffer?
  {
  }
}
