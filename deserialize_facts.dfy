/**
 * Properties of `from_params` and of the ordered fold in `Base#deserialize`:
 * the nil check, fields merged in declaration order, and which keys can
 * appear in the result.
 */
module DeserializeFacts {
  import opened Wrappers
  import opened OrderedMaps
  import opened Values
  import opened Errors
  import opened Fields
  import opened Schemas
  import opened Merging
  import opened Engine

  /** Every class the env defines has a well-formed registry whose sub-deserializers exist. */
  predicate WellFormedEnv(env: Env) {
    forall c :: c in env ==>
      && WellFormed(env[c].attrs)
      && forall i :: 0 <= i < |env[c].attrs| && env[c].attrs[i].1.IsAssociation() ==>
           env[c].attrs[i].1.opts.deserializer.Some? && env[c].attrs[i].1.opts.deserializer.value in env
  }

  /** nil (or false) params raise a DeserializerError for the class. */
  lemma NilParamsRaise(env: Env, klass: string, params: Value, fuel: nat)
    requires klass in env && !Truthy(params)
    ensures FromParams(env, klass, params, fuel) == Failure(DeserializerError(klass, "params cannot be nil"))
  {
  }

  /**
   * Empty params are accepted: over a well-formed env the only way `{}` can
   * fail is a `nests` cycle exhausting the nesting depth.
   */
  lemma {:induction false} EmptyParamsAccepted(env: Env, klass: string, fuel: nat)
    requires WellFormedEnv(env) && klass in env
    ensures var r := FromParams(env, klass, Hash([]), fuel); r.Success? || r == Failure(SystemStackError)
    decreases fuel, 1, 0
  {
    EmptyParamsFold(env, klass, |env[klass].attrs|, fuel);
  }

  lemma {:induction false} EmptyParamsFold(env: Env, klass: string, n: nat, fuel: nat)
    requires WellFormedEnv(env) && klass in env && n <= |env[klass].attrs|
    ensures var r := Fold(env, env[klass], Hash([]), n, fuel); r.Success? || r == Failure(SystemStackError)
    decreases fuel, 0, n
  {
    if n > 0 {
      EmptyParamsFold(env, klass, n - 1, fuel);
      var a := env[klass].attrs[n - 1].1;
      var t := ToHash(env, env[klass], a, Hash([]), fuel);
      match a.kind {
        case ValueAttribute =>
          assert !HasKey(Hash([]).entries, a.Key());
          assert t == ValueToHash(env[klass], a, Hash([]));
        case HasOneAssociation =>
          assert Get(Hash([]).entries, Sym(a.name)) == Nil;
          assert t == HasOneToHash(env, env[klass], a, Hash([]), fuel);
        case HasManyAssociation =>
          assert !HasKey(Hash([]).entries, a.Key());
          assert t == HasManyToHash(env, a, Hash([]), fuel);
        case NestedAssociation =>
          if fuel > 0 {
            EmptyParamsAccepted(env, a.opts.deserializer.value, fuel - 1);
            assert SubFromParams(env, a.opts.deserializer, Hash([]), fuel)
              == FromParams(env, a.opts.deserializer.value, Hash([]), fuel - 1);
          }
          assert t == NestedToHash(env, a, Hash([]), fuel);
      }
    }
  }

  /** Every partial hash is a hash without duplicate keys. */
  lemma ToHashUnique(env: Env, s: Schema, a: Attribute, params: Value, fuel: nat)
    ensures var r := ToHash(env, s, a, params, fuel); r.Success? ==> UniqueKeys(r.value)
  {
  }

  /** A schema of one field deserializes to exactly that field's partial hash. */
  lemma SingleFieldSchema(env: Env, s: Schema, params: Value, fuel: nat)
    requires |s.attrs| == 1
    ensures Deserialize(env, s, params, fuel) == ToHash(env, s, s.attrs[0].1, params, fuel)
  {
    ToHashUnique(env, s, s.attrs[0].1, params, fuel);
    var r := ToHash(env, s, s.attrs[0].1, params, fuel);
    assert Deserialize(env, s, params, fuel) == Fold(env, s, params, 1, fuel);
    assert Fold(env, s, params, 0, fuel) == Success([]);
    if r.Success? {
      MergeWithIntoEmpty(r.value);
    }
  }

  /**
   * Fields are folded in declaration order: on a key that field `n` writes,
   * the result after field `n` holds the collision result of the earlier
   * value and field `n`'s value, or field `n`'s value when the key is new.
   */
  lemma FieldMergedAfterEarlierOnes(env: Env, s: Schema, params: Value, n: nat, fuel: nat,
                                    acc: Entries, part: Entries, k: Value)
    requires 0 < n <= |s.attrs|
    requires Fold(env, s, params, n - 1, fuel) == Success(acc)
    requires ToHash(env, s, s.attrs[n - 1].1, params, fuel) == Success(part)
    requires HasKey(part, k)
    ensures Fold(env, s, params, n, fuel).Success?
    ensures Lookup(Fold(env, s, params, n, fuel).value, k) ==
      if HasKey(acc, k) then Some(Resolve(Get(acc, k), Get(part, k))) else Some(Get(part, k))
  {
    ToHashUnique(env, s, s.attrs[n - 1].1, params, fuel);
    MergeWithLookup(acc, part, k);
  }

  /** The one key a field writes to, unless it is a has_one flattened into the root. */
  function DeclaredKey(s: Schema, a: Attribute): Value {
    if a.kind == HasOneAssociation then
      if a.name in s.overrides then s.overrides[a.name] else a.Key()
    else Sym(a.name)
  }

  /** A has_one whose override returns the instance's `object`. */
  predicate Flattens(s: Schema, a: Attribute) {
    a.kind == HasOneAssociation && a.name in s.overrides && s.overrides[a.name] == InitialObject
  }

  /** A field that does not flatten writes at most one pair, under its declared key. */
  lemma ToHashKeys(env: Env, s: Schema, a: Attribute, params: Value, fuel: nat)
    requires !Flattens(s, a)
    ensures var r := ToHash(env, s, a, params, fuel);
      r.Success? ==> |r.value| <= 1 && forall i :: 0 <= i < |r.value| ==> r.value[i].0 == DeclaredKey(s, a)
  {
  }

  /**
   * `k` is a key field `a` can put into the result: its declared key, or, for
   * a has_one flattened into the root, a key of the sub-result it returns.
   */
  predicate Contributes(env: Env, s: Schema, a: Attribute, params: Value, fuel: nat, k: Value) {
    if Flattens(s, a) then
      var r := ToHash(env, s, a, params, fuel); r.Success? && HasKey(r.value, k)
    else k == DeclaredKey(s, a)
  }

  /**
   * Every output key after `n` fields comes from one of them: it is the
   * declared key of a field, or a key of a flattened has_one's sub-result.
   */
  lemma {:induction false} FoldKeys(env: Env, s: Schema, params: Value, n: nat, fuel: nat, k: Value)
    requires n <= |s.attrs|
    requires Fold(env, s, params, n, fuel).Success? && HasKey(Fold(env, s, params, n, fuel).value, k)
    ensures exists i :: 0 <= i < n && Contributes(env, s, s.attrs[i].1, params, fuel, k)
  {
    var acc := Fold(env, s, params, n - 1, fuel).value;
    var a := s.attrs[n - 1].1;
    var part := ToHash(env, s, a, params, fuel).value;
    ToHashUnique(env, s, a, params, fuel);
    MergeWithHasKey(acc, part, k);
    if HasKey(acc, k) {
      FoldKeys(env, s, params, n - 1, fuel, k);
      var i :| 0 <= i < n - 1 && Contributes(env, s, s.attrs[i].1, params, fuel, k);
      assert 0 <= i < n && Contributes(env, s, s.attrs[i].1, params, fuel, k);
    } else if Flattens(s, a) {
      assert Contributes(env, s, s.attrs[n - 1].1, params, fuel, k);
    } else {
      ToHashKeys(env, s, a, params, fuel);
      assert part[0].0 == k;
      assert Contributes(env, s, s.attrs[n - 1].1, params, fuel, k);
    }
  }

  /**
   * Keys no field produces never reach the result. In particular an input key
   * that is no field's output key (such as `:i_shouldnt_be_here`) is dropped,
   * unless a flattened has_one's sub-result brings it back in.
   */
  lemma UndeclaredKeysDropped(env: Env, s: Schema, params: Value, fuel: nat, k: Value)
    requires forall i :: 0 <= i < |s.attrs| ==> !Contributes(env, s, s.attrs[i].1, params, fuel, k)
    ensures var r := Deserialize(env, s, params, fuel); r.Success? ==> !HasKey(r.value, k)
  {
    var r := Deserialize(env, s, params, fuel);
    if r.Success? && HasKey(r.value, k) {
      FoldKeys(env, s, params, |s.attrs|, fuel, k);
    }
  }

  /** A field that raises aborts the whole deserialization: no partial result is returned. */
  lemma {:induction false} FoldAbortsOnFailure(env: Env, s: Schema, params: Value, i: nat, m: nat, fuel: nat)
    requires i <= m <= |s.attrs|
    requires Fold(env, s, params, i, fuel).Failure?
    ensures Fold(env, s, params, m, fuel) == Fold(env, s, params, i, fuel)
    decreases m
  {
    if m > i {
      FoldAbortsOnFailure(env, s, params, i, m - 1, fuel);
    }
  }

  /** The field results merged left to right, as `deserialize` accumulates them. */
  function MergeAll(parts: seq<Entries>): Entries {
    if parts == [] then [] else MergeWith(MergeAll(parts[..|parts| - 1]), parts[|parts| - 1])
  }

  /** When every field succeeds, the result is the left-to-right merge of their partial hashes. */
  lemma {:induction false} FoldOfParts(env: Env, s: Schema, params: Value, n: nat, fuel: nat, parts: seq<Entries>)
    requires n <= |s.attrs| && |parts| == n
    requires forall i :: 0 <= i < n ==> ToHash(env, s, s.attrs[i].1, params, fuel) == Success(parts[i])
    ensures Fold(env, s, params, n, fuel) == Success(MergeAll(parts))
  {
    if n > 0 {
      FoldOfParts(env, s, params, n - 1, fuel, parts[..n - 1]);
    }
  }
}
