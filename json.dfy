/**
 * What `json_decode($body, true)` hands the agent: JSON values with objects
 * as PHP associative arrays, together with the three ways the agent reads
 * them — PHP truthiness (`if ($v)`, `!$v`), `isset($v[$k])` and the read
 * `$v[$k]` (which is also `$v[$k] ?? null`).
 */
module Json {
  import Php

  /** A decoded JSON value (numbers other than integers are not modelled). */
  datatype Value =
    | Null
    | Bool(b: bool)
    | Int(i: int)
    | Str(s: string)
    | List(items: seq<Value>)
    | Object(fields: map<string, Value>)

  /** PHP's conversion to bool: null, false, 0, "", "0" and the empty array are false. */
  predicate Truthy(v: Value) {
    match v
    case Null => false
    case Bool(b) => b
    case Int(i) => i != 0
    case Str(s) => !Php.IsEmpty(s)
    case List(items) => items != []
    case Object(fields) => fields != map[]
  }

  /**
   * `$v[$key]` for a string key: the entry of an object, and null for a
   * missing key or for anything that is not an object (PHP warns and
   * answers null there).
   */
  function At(v: Value, key: string): Value {
    if v.Object? && key in v.fields then v.fields[key] else Null
  }

  /** `isset($v[$key])`: the key is there and its value is not null. */
  predicate IsSet(v: Value, key: string) {
    At(v, key) != Null
  }

  /** `$v[$key] ?? $default`. */
  function Coalesce(v: Value, key: string, default: Value): Value {
    if IsSet(v, key) then At(v, key) else default
  }

  /**
   * `??` answers null only for a null default, and `$v[$k] ?? null` is the
   * plain read `$v[$k]`.
   */
  lemma CoalesceNull(v: Value, key: string, default: Value)
    ensures Coalesce(v, key, default) == Null ==> default == Null
    ensures Coalesce(v, key, Null) == At(v, key)
  {
  }

  /** `isset` holds only for an object that has the key with a non-null value. */
  lemma IsSetMeansPresent(v: Value, key: string)
    ensures IsSet(v, key) <==> v.Object? && key in v.fields && v.fields[key] != Null
  {
  }

  /** A truthy read is a set one, so `if ($v[$k])` implies `isset($v[$k])`. */
  lemma TruthyIsSet(v: Value, key: string)
    ensures Truthy(At(v, key)) ==> IsSet(v, key)
  {
  }
}
