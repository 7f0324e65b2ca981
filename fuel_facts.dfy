/**
 * The nesting bound is only a stand-in for Ruby's stack: a result other than
 * SystemStackError stays the same under any larger fuel, so every
 * deserialization that finishes within the bound is the one the unbounded
 * recursion would produce.
 */
module FuelFacts {
  import opened Wrappers
  import opened Values
  import opened Errors
  import opened Fields
  import opened Schemas
  import opened Engine

  /** `from_params` with more fuel gives the same result, unless it ran out of fuel. */
  lemma {:induction false} FromParamsMonotone(env: Env, klass: string, params: Value, f: nat, g: nat)
    requires f <= g
    requires FromParams(env, klass, params, f) != Failure(SystemStackError)
    ensures FromParams(env, klass, params, g) == FromParams(env, klass, params, f)
    decreases f, 6, 0
  {
    if klass in env && Truthy(params) {
      FoldMonotone(env, env[klass], params, |env[klass].attrs|, f, g);
    }
  }

  /** The nested `from_params` of a resolver, with more fuel. */
  lemma {:induction false} SubFromParamsMonotone(env: Env, d: Option<string>, input: Value, f: nat, g: nat)
    requires f <= g
    requires SubFromParams(env, d, input, f) != Failure(SystemStackError)
    ensures SubFromParams(env, d, input, g) == SubFromParams(env, d, input, f)
    decreases f, 0, 0
  {
    if d.Some? && f > 0 {
      FromParamsMonotone(env, d.value, input, f - 1, g - 1);
    }
  }

  /** The fold over the first `n` fields, with more fuel. */
  lemma {:induction false} FoldMonotone(env: Env, s: Schema, params: Value, n: nat, f: nat, g: nat)
    requires n <= |s.attrs| && f <= g
    requires Fold(env, s, params, n, f) != Failure(SystemStackError)
    ensures Fold(env, s, params, n, g) == Fold(env, s, params, n, f)
    decreases f, 4, n
  {
    if n > 0 {
      FoldMonotone(env, s, params, n - 1, f, g);
      if Fold(env, s, params, n - 1, f).Success? {
        ToHashMonotone(env, s, s.attrs[n - 1].1, params, f, g);
      }
    }
  }

  /** One field's partial hash, with more fuel. */
  lemma {:induction false} ToHashMonotone(env: Env, s: Schema, a: Attribute, params: Value, f: nat, g: nat)
    requires f <= g
    requires ToHash(env, s, a, params, f) != Failure(SystemStackError)
    ensures ToHash(env, s, a, params, g) == ToHash(env, s, a, params, f)
    decreases f, 3, 0
  {
    match a.kind
    case ValueAttribute =>
    case HasOneAssociation =>
      if params.Hash? && Truthy(Get(params.entries, Sym(a.name))) {
        SubFromParamsMonotone(env, a.opts.deserializer, Get(params.entries, a.Key()), f, g);
      }
    case HasManyAssociation =>
      if params.Hash? && OrderedMaps.HasKey(params.entries, a.Key()) {
        HasManyValueMonotone(env, a, params.entries, f, g);
      }
    case NestedAssociation =>
      SubFromParamsMonotone(env, a.opts.deserializer, params, f, g);
  }

  /** The list of a has_many, with more fuel. */
  lemma {:induction false} HasManyValueMonotone(env: Env, a: Attribute, params: Entries, f: nat, g: nat)
    requires f <= g
    requires HasManyValue(env, a, params, f) != Failure(SystemStackError)
    ensures HasManyValue(env, a, params, g) == HasManyValue(env, a, params, f)
    decreases f, 1, 0
  {
    var items := Each(Get(params, a.Key()));
    if items.Success? {
      DeserializeEachMonotone(env, a.opts.deserializer, items.value, f, g);
    }
  }

  /** The sub-results of a has_many's items, with more fuel. */
  lemma {:induction false} DeserializeEachMonotone(env: Env, d: Option<string>, items: seq<Value>, f: nat, g: nat)
    requires f <= g
    requires DeserializeEach(env, d, items, f) != Failure(SystemStackError)
    ensures DeserializeEach(env, d, items, g) == DeserializeEach(env, d, items, f)
    decreases f, 0, |items|
  {
    if items != [] {
      DeserializeEachMonotone(env, d, items[..|items| - 1], f, g);
      if DeserializeEach(env, d, items[..|items| - 1], f).Success? {
        SubFromParamsMonotone(env, d, items[|items| - 1], f, g);
      }
    }
  }
}
