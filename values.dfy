/**
 * The open value type that params and deserialized objects are made of:
 * Ruby's nil, booleans, integers, strings, symbols, arrays and hashes.
 */
module Values {
  import opened OrderedMaps

  datatype Value =
    | Nil
    | Bool(b: bool)
    | Int(i: int)
    | Str(s: string)
    | Sym(name: string)
    | Arr(items: seq<Value>)
    | Hash(entries: seq<(Value, Value)>)

  /** The pairs of a hash, in insertion order. */
  type Entries = OMap<Value, Value>

  /** Ruby truthiness: everything except nil and false. */
  predicate Truthy(v: Value) {
    !(v.Nil? || v == Bool(false))
  }

  /** Ruby's `h[k]`: the stored value, or nil when the key is absent. */
  function Get(h: Entries, k: Value): Value {
    Lookup(h, k).GetOr(Nil)
  }
}

/** The errors a deserialization or a declaration can raise. */
module Errors {
  import opened Wrappers

  datatype Error =
    /** Deserializer::DeserializerError, carrying the class it was raised for and its message. */
    | DeserializerError(klass: string, message: string)
    /** Ruby's NoMethodError or TypeError from a Hash or Array operation (`op`) applied to a
        value that does not support it, such as `has_key?` on an Array or `each` on nil. */
    | UnsupportedOperation(op: string)
    /** A sub-deserializer named by a class that does not exist. */
    | NameError(klass: string)
    /** The nesting of `from_params` calls went deeper than the model's fuel allows. */
    | SystemStackError

  type Res<T> = Result<T, Error>
}
