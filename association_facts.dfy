/**
 * What the associations contribute: where a has_one writes its sub-result
 * (its key, the root, or the key an override names), the ordered list of a
 * has_many, and the whole-input re-deserialization of `nests`.
 */
module AssociationFacts {
  import opened Wrappers
  import opened OrderedMaps
  import opened Values
  import opened Errors
  import opened Fields
  import opened Schemas
  import opened Engine

  /** A has_one whose `params[name]` is absent, nil or false contributes nothing. */
  lemma HasOneNeedsTruthyInput(env: Env, s: Schema, a: Attribute, ps: Entries, fuel: nat)
    requires a.kind == HasOneAssociation && !Truthy(Get(ps, Sym(a.name)))
    ensures ToHash(env, s, a, Hash(ps), fuel) == Success([])
  {
  }

  /** Without an override, the sub-result of `params[key]` is written under `key`. */
  lemma HasOneDefaultTarget(env: Env, s: Schema, a: Attribute, ps: Entries, fuel: nat, sub: Entries)
    requires a.kind == HasOneAssociation && Truthy(Get(ps, Sym(a.name))) && a.name !in s.overrides
    requires SubFromParams(env, a.opts.deserializer, Get(ps, a.Key()), fuel) == Success(sub)
    ensures ToHash(env, s, a, Hash(ps), fuel) == Success([(a.Key(), Hash(sub))])
  {
  }

  /** An override returning the instance's `object` (that is, `{}`) flattens the sub-result into the root. */
  lemma HasOneFlattens(env: Env, s: Schema, a: Attribute, ps: Entries, fuel: nat, sub: Entries)
    requires a.kind == HasOneAssociation && Truthy(Get(ps, Sym(a.name)))
    requires a.name in s.overrides && s.overrides[a.name] == InitialObject
    requires SubFromParams(env, a.opts.deserializer, Get(ps, a.Key()), fuel) == Success(sub)
    ensures ToHash(env, s, a, Hash(ps), fuel) == Success(sub)
  {
  }

  /** Any other override value becomes the key the sub-result is written under. */
  lemma HasOneAliasTarget(env: Env, s: Schema, a: Attribute, ps: Entries, fuel: nat, sub: Entries)
    requires a.kind == HasOneAssociation && Truthy(Get(ps, Sym(a.name)))
    requires a.name in s.overrides && s.overrides[a.name] != InitialObject
    requires SubFromParams(env, a.opts.deserializer, Get(ps, a.Key()), fuel) == Success(sub)
    ensures ToHash(env, s, a, Hash(ps), fuel) == Success([(s.overrides[a.name], Hash(sub))])
  {
  }

  /**
   * A has_one with a `key:` different from its name is guarded by `params[name]`
   * but reads `params[key]`: when only the name was sent, the sub-deserializer
   * receives nil and raises.
   */
  lemma HasOneKeyMismatchRaises(env: Env, s: Schema, a: Attribute, ps: Entries, fuel: nat, c: string)
    requires a.kind == HasOneAssociation && a.opts.deserializer == Some(c) && c in env && fuel > 0
    requires Truthy(Get(ps, Sym(a.name))) && !HasKey(ps, a.Key())
    ensures ToHash(env, s, a, Hash(ps), fuel) == Failure(DeserializerError(c, "params cannot be nil"))
  {
    assert Get(ps, a.Key()) == Nil;
    assert FromParams(env, c, Nil, fuel - 1) == Failure(DeserializerError(c, "params cannot be nil"));
    assert SubFromParams(env, a.opts.deserializer, Nil, fuel) == Failure(DeserializerError(c, "params cannot be nil"));
  }

  /**
   * The items of a has_many deserialize one by one: the list has one
   * sub-result per item, in item order, and exists exactly when every item
   * deserializes.
   */
  lemma {:induction false} DeserializeEachElementwise(env: Env, d: Option<string>, items: seq<Value>, fuel: nat)
    ensures DeserializeEach(env, d, items, fuel).Success? <==>
      forall i :: 0 <= i < |items| ==> SubFromParams(env, d, items[i], fuel).Success?
    ensures var r := DeserializeEach(env, d, items, fuel);
      r.Success? ==> (|r.value| == |items| &&
        forall i :: 0 <= i < |items| ==> r.value[i] == Hash(SubFromParams(env, d, items[i], fuel).value))
    decreases |items|
  {
    if items != [] {
      var init := items[..|items| - 1];
      DeserializeEachElementwise(env, d, init, fuel);
      assert forall i :: 0 <= i < |init| ==> init[i] == items[i];
    }
  }

  /** The error of a has_many is that of its first item that fails. */
  lemma {:induction false} DeserializeEachFirstFailure(env: Env, d: Option<string>, items: seq<Value>, fuel: nat, j: nat)
    requires j < |items|
    requires forall i :: 0 <= i < j ==> SubFromParams(env, d, items[i], fuel).Success?
    requires SubFromParams(env, d, items[j], fuel).Failure?
    ensures DeserializeEach(env, d, items, fuel) == Failure(SubFromParams(env, d, items[j], fuel).error)
    decreases |items|
  {
    var init := items[..|items| - 1];
    assert forall i :: 0 <= i < |init| ==> init[i] == items[i];
    if j < |items| - 1 {
      DeserializeEachFirstFailure(env, d, init, fuel, j);
    } else {
      DeserializeEachElementwise(env, d, init, fuel);
    }
  }

  /** A has_many over a list writes the list of sub-results under its name, even when it is empty. */
  lemma HasManyWritesList(env: Env, s: Schema, a: Attribute, ps: Entries, fuel: nat, items: seq<Value>)
    requires a.kind == HasManyAssociation && HasKey(ps, a.Key()) && Get(ps, a.Key()) == Arr(items)
    requires forall i :: 0 <= i < |items| ==> SubFromParams(env, a.opts.deserializer, items[i], fuel).Success?
    ensures var r := ToHash(env, s, a, Hash(ps), fuel);
      r.Success? && |r.value| == 1 && r.value[0].0 == Sym(a.name) && r.value[0].1.Arr? &&
      |r.value[0].1.items| == |items| &&
      forall i :: 0 <= i < |items| ==>
        r.value[0].1.items[i] == Hash(SubFromParams(env, a.opts.deserializer, items[i], fuel).value)
  {
    DeserializeEachElementwise(env, a.opts.deserializer, items, fuel);
    assert HasManyValue(env, a, ps, fuel) == DeserializeEach(env, a.opts.deserializer, items, fuel);
  }

  /** An empty list is written as `{name => []}`, not dropped. */
  lemma HasManyEmptyList(env: Env, s: Schema, a: Attribute, ps: Entries, fuel: nat)
    requires a.kind == HasManyAssociation && HasKey(ps, a.Key()) && Get(ps, a.Key()) == Arr([])
    ensures ToHash(env, s, a, Hash(ps), fuel) == Success([(Sym(a.name), Arr([]))])
  {
    assert HasManyValue(env, a, ps, fuel) == Success([]);
  }

  /** A nil item makes the item's `from_params` raise, and the has_many with it. */
  lemma HasManyNilItemRaises(env: Env, s: Schema, a: Attribute, ps: Entries, fuel: nat, items: seq<Value>, j: nat, c: string)
    requires a.kind == HasManyAssociation && a.opts.deserializer == Some(c) && c in env && fuel > 0
    requires HasKey(ps, a.Key()) && Get(ps, a.Key()) == Arr(items)
    requires j < |items| && items[j] == Nil
    requires forall i :: 0 <= i < j ==> SubFromParams(env, a.opts.deserializer, items[i], fuel).Success?
    ensures ToHash(env, s, a, Hash(ps), fuel) == Failure(DeserializerError(c, "params cannot be nil"))
  {
    DeserializeEachFirstFailure(env, a.opts.deserializer, items, fuel, j);
    assert SubFromParams(env, a.opts.deserializer, items[j], fuel) == Failure(DeserializerError(c, "params cannot be nil"));
    assert HasManyValue(env, a, ps, fuel) == DeserializeEach(env, a.opts.deserializer, items, fuel);
  }

  /**
   * `nests` has no presence guard: the sub-deserializer receives the whole
   * input, and its result is written under the field's name.
   */
  lemma NestedSeesWholeInput(env: Env, s: Schema, a: Attribute, params: Value, fuel: nat, sub: Entries)
    requires a.kind == NestedAssociation
    requires SubFromParams(env, a.opts.deserializer, params, fuel) == Success(sub)
    ensures ToHash(env, s, a, params, fuel) == Success([(Sym(a.name), Hash(sub))])
  {
  }
}
