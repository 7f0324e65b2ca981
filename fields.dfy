/**
 * Field specifications (Deserializer::Attribute::Attribute): the resolver kind,
 * the field's name and its declaration options.
 */
module Fields {
  import opened Wrappers
  import opened Values

  /** The typed resolver an attribute builds when it is resolved. */
  datatype Kind =
    | ValueAttribute
    | HasOneAssociation
    | HasManyAssociation
    | NestedAssociation

  /**
   * The options of a declaration: `key:` (the input key), `ignore_empty:`,
   * `convert_with:` (the name of a converter method) and `deserializer:`
   * (the name of the sub-deserializer class). For `ignore_empty:`,
   * `convert_with:` and `deserializer:` an option given as nil or false reads
   * like an absent one; `key:` is read with `fetch`, so an explicit `key: nil`
   * is `Some(Nil)`.
   */
  datatype Opts = Opts(
    key: Option<Value>,
    ignoreEmpty: bool,
    convertWith: Option<string>,
    deserializer: Option<string>)

  /** The empty options hash `{}`. */
  const NoOpts := Opts(None, false, None, None)

  /** A declared field: the resolver kind, the output name (a symbol) and the options. */
  datatype Attribute = Attribute(kind: Kind, name: string, opts: Opts) {

    /** The input key: `opts[:key]` when given, the field's name otherwise. */
    function Key(): Value {
      opts.key.GetOr(Sym(name))
    }

    predicate IsAssociation() {
      kind != ValueAttribute
    }
  }
}

/**
 * The class-level registry `__attrs`: an insertion-ordered map from each
 * field's input key to its Attribute, and the schema a deserializer class
 * presents to the engine.
 */
module Schemas {
  import opened Wrappers
  import opened OrderedMaps
  import opened Values
  import opened Fields

  type Registry = OMap<Value, Attribute>

  /**
   * A deserializer class as the engine sees it: its registry, the values its
   * user-defined zero-argument methods return (consulted as has_one target
   * overrides) and its one-argument methods (consulted as converters).
   */
  datatype Schema = Schema(
    attrs: Registry,
    overrides: map<string, Value>,
    converters: map<string, Value -> Value>)

  /** The deserializer classes that exist, by name. */
  type Env = map<string, Schema>

  /**
   * What every registry built by the declarations satisfies: each entry is
   * stored under its attribute's key, no key occurs twice, and every
   * association names a sub-deserializer.
   */
  predicate WellFormed(reg: Registry) {
    && UniqueKeys(reg)
    && (forall i :: 0 <= i < |reg| ==> reg[i].0 == reg[i].1.Key())
    && (forall i :: 0 <= i < |reg| ==> reg[i].1.IsAssociation() ==> reg[i].1.opts.deserializer.Some?)
  }

  /** `__attrs.merge attribute.key => attribute`. */
  function Register(reg: Registry, a: Attribute): Registry {
    Put(reg, a.Key(), a)
  }

  /** `permitted_params`: the registry's keys, in declaration order. */
  function PermittedParams(reg: Registry): seq<Value> {
    Keys(reg)
  }

  /** `attributes(*names)`: each name registered in turn as a plain value attribute with `{}` options. */
  function RegisterAll(reg: Registry, names: seq<string>): Registry
    decreases |names|
  {
    if names == [] then reg
    else Register(RegisterAll(reg, names[..|names| - 1]), Attribute(ValueAttribute, names[|names| - 1], NoOpts))
  }

  /** A declaration changes the entry under its own key and no other. */
  lemma {:induction false} RegisterLookup(reg: Registry, a: Attribute, k: Value)
    ensures Lookup(Register(reg, a), k) == if k == a.Key() then Some(a) else Lookup(reg, k)
  {
    PutLookup(reg, a.Key(), a, k);
  }

  /**
   * A declaration keeps the declaration order: re-declaring an existing key
   * keeps its position, a new key goes last.
   */
  lemma {:induction false} RegisterOrder(reg: Registry, a: Attribute)
    ensures PermittedParams(Register(reg, a)) ==
      if a.Key() in PermittedParams(reg) then PermittedParams(reg) else PermittedParams(reg) + [a.Key()]
  {
    PutKeys(reg, a.Key(), a);
    assert HasKey(reg, a.Key()) <==> a.Key() in Keys(reg);
  }

  /** Every declaration that is accepted keeps the registry well formed. */
  lemma {:induction false} RegisterWellFormed(reg: Registry, a: Attribute)
    requires WellFormed(reg)
    requires a.IsAssociation() ==> a.opts.deserializer.Some?
    ensures WellFormed(Register(reg, a))
  {
    var r := Register(reg, a);
    PutUnique(reg, a.Key(), a);
    PutKeys(reg, a.Key(), a);
    forall i | 0 <= i < |r| ensures r[i].0 == r[i].1.Key() && (r[i].1.IsAssociation() ==> r[i].1.opts.deserializer.Some?) {
      var ks := Keys(r);
      PutLookup(reg, a.Key(), a, r[i].0);
      LookupUnique(r, i);
      if r[i].0 != a.Key() {
        LookupFound(reg, r[i].0);
      }
    }
  }

  /** In a map without duplicate keys, looking up the key of pair `i` gives pair `i`'s value. */
  lemma {:induction false} LookupUnique<V>(m: OMap<Value, V>, i: nat)
    requires UniqueKeys(m) && i < |m|
    ensures Lookup(m, m[i].0) == Some(m[i].1)
  {
    if i > 0 {
      var t := m[1..];
      assert t[i - 1] == m[i];
      assert UniqueKeys(t);
      LookupUnique(t, i - 1);
    }
  }

  /** A successful lookup retrieves a pair that is in the map. */
  lemma {:induction false} LookupFound<V>(m: OMap<Value, V>, k: Value)
    requires HasKey(m, k)
    ensures exists i :: 0 <= i < |m| && m[i] == (k, Lookup(m, k).value)
  {
    if m[0].0 != k {
      var t := m[1..];
      assert HasKey(t, k) by {
        var i :| 0 <= i < |m| && m[i].0 == k;
        assert t[i - 1] == m[i];
      }
      LookupFound(t, k);
      var j :| 0 <= j < |t| && t[j] == (k, Lookup(t, k).value);
      assert m[j + 1] == t[j];
    } else {
      assert m[0] == (k, Lookup(m, k).value);
    }
  }

  /**
   * `attributes(a, b, ...)` with distinct new names registers exactly those
   * names, in argument order, each as a value attribute with empty options.
   */
  lemma {:induction false} RegisterAllFresh(names: seq<string>)
    requires forall i, j :: 0 <= i < j < |names| ==> names[i] != names[j]
    ensures RegisterAll([], names) == seq(|names|, i requires 0 <= i < |names| => (Sym(names[i]), Attribute(ValueAttribute, names[i], NoOpts)))
    decreases |names|
  {
    if names != [] {
      var init := names[..|names| - 1];
      RegisterAllFresh(init);
      var prev := RegisterAll([], init);
      var last := names[|names| - 1];
      forall i | 0 <= i < |prev| ensures prev[i].0 != Sym(last) {
        assert names[i] != last;
      }
      assert !HasKey(prev, Sym(last));
      PutAppends(prev, Sym(last), Attribute(ValueAttribute, last, NoOpts));
      assert RegisterAll([], names) == prev + [(Sym(last), Attribute(ValueAttribute, last, NoOpts))];
    }
  }
}
