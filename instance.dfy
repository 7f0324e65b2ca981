/**
 * A deserializer instance (`Base.new(params)`) and its `deserialize`: a loop
 * over the registry that merges each field's partial hash into a local
 * accumulator, leaving the instance's own `object` at `{}`.
 */
module Instance {
  import opened Wrappers
  import opened OrderedMaps
  import opened Values
  import opened Errors
  import opened Fields
  import opened Schemas
  import opened Merging
  import Engine
  import DeserializeFacts
  import AssociationFacts

  class Deserializer {
    const env: Env
    const klass: string
    const fuel: nat
    var params: Value
    var obj: Value

    ghost predicate Valid()
      reads this
    {
      klass in env && Truthy(params) && obj == Engine.InitialObject
    }

    /** `initialize` once its nil check has passed: it stores the params and sets `object` to `{}`. */
    constructor (env: Env, klass: string, params: Value, fuel: nat)
      requires klass in env && Truthy(params)
      ensures Valid()
      ensures this.env == env && this.klass == klass && this.params == params && this.fuel == fuel
    {
      this.env := env;
      this.klass := klass;
      this.fuel := fuel;
      this.params := params;
      this.obj := Engine.InitialObject;
    }

    /**
     * `deserialize`: the fields in declaration order, each partial hash merged
     * into the accumulator; the first field that raises aborts. Only `params`
     * is read, and `object` is still `{}` afterwards.
     */
    method Deserialize() returns (r: Res<Entries>)
      requires Valid()
      ensures r == Engine.Deserialize(env, env[klass], params, fuel)
      ensures obj == Engine.InitialObject
    {
      var s := env[klass];
      var acc: Entries := [];
      for i := 0 to |s.attrs|
        invariant Engine.Fold(env, s, params, i, fuel) == Success(acc)
      {
        var part := ResolveField(s.attrs[i].1);
        if part.Failure? {
          DeserializeFacts.FoldAbortsOnFailure(env, s, params, i + 1, |s.attrs|, fuel);
          return Failure(part.error);
        }
        acc := MergeWith(acc, part.value);
      }
      return Success(acc);
    }

    /**
     * `Attribute#to_hash(params, self)`: the field's typed resolver applied to
     * this instance's params. It dispatches on the kind: only the has_many
     * branch runs a loop of its own, every other kind is the resolver function.
     */
    method ResolveField(a: Attribute) returns (r: Res<Entries>)
      requires Valid()
      ensures r == Engine.ToHash(env, env[klass], a, params, fuel)
    {
      if a.kind == HasManyAssociation {
        if !params.Hash? {
          return Failure(UnsupportedOperation("has_key?"));
        }
        if !HasKey(params.entries, a.Key()) {
          return Success([]);
        }
        var list := HasManyValue(env, a, params.entries, fuel);
        if list.Failure? {
          return Failure(list.error);
        }
        return Success(Engine.Tuple(a.name, Arr(list.value)));
      }
      return Engine.ToHash(env, env[klass], a, params, fuel);
    }
  }

  /** `Base.from_params(params)`: raise on nil (or false) params, else `new(params).deserialize`. */
  method FromParams(env: Env, klass: string, params: Value, fuel: nat) returns (r: Res<Entries>)
    ensures r == Engine.FromParams(env, klass, params, fuel)
  {
    if klass !in env {
      return Failure(NameError(klass));
    }
    if !Truthy(params) {
      return Failure(DeserializerError(klass, "params cannot be nil"));
    }
    var d := new Deserializer(env, klass, params, fuel);
    r := d.Deserialize();
  }

  /**
   * `HasManyAssociation#value`: `target = []`, then each element of
   * `params[key]` deserialized and appended, in order.
   */
  method HasManyValue(env: Env, a: Attribute, params: Entries, fuel: nat) returns (r: Res<seq<Value>>)
    ensures r == Engine.HasManyValue(env, a, params, fuel)
  {
    var each := Engine.Each(Get(params, a.Key()));
    if each.Failure? {
      return Failure(each.error);
    }
    var items := each.value;
    var target: seq<Value> := [];
    for i := 0 to |items|
      invariant Engine.DeserializeEach(env, a.opts.deserializer, items[..i], fuel) == Success(target)
    {
      var sub := Engine.SubFromParams(env, a.opts.deserializer, items[i], fuel);
      if sub.Failure? {
        AssociationFacts.DeserializeEachElementwise(env, a.opts.deserializer, items[..i], fuel);
        assert forall j :: 0 <= j < i ==> items[..i][j] == items[j];
        AssociationFacts.DeserializeEachFirstFailure(env, a.opts.deserializer, items, fuel, i);
        return Failure(sub.error);
      }
      assert items[..i + 1][..i] == items[..i];
      target := target + [Hash(sub.value)];
    }
    assert items[..|items|] == items;
    return Success(target);
  }
}
