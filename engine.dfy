/**
 * The deserialization engine as functions: `from_params`, the ordered fold of
 * `Base#deserialize`, and the typed resolvers of value attributes and of
 * has_one, has_many and nested associations. Associations recurse into other
 * deserializers (and `nests` on the same input), so every nested `from_params`
 * spends one unit of `fuel`; running out stands for Ruby's SystemStackError.
 */
module Engine {
  import opened Wrappers
  import opened OrderedMaps
  import opened Values
  import opened Errors
  import opened Fields
  import opened Schemas
  import opened Merging

  /** The symbol a value resolver returns to have its field dropped. */
  const Ignore: Value := Sym("ignore")

  /**
   * The instance's `object`: `initialize` sets it to `{}` and nothing assigns
   * it again, because `deserialize` accumulates into a local of the same name.
   */
  const InitialObject: Value := Hash([])

  /** `empty?` of a value attribute: nil, false, "", {} and []. */
  predicate IsEmpty(v: Value) {
    !Truthy(v) || v == Str("") || v == Hash([]) || v == Arr([])
  }

  /**
   * `ValueAttribute#value`: the raw input under the key, or `:ignore` when
   * `ignore_empty` is set and the raw value is empty, or the converter's result
   * when `convert_with` names a method the class defines.
   */
  function ValueOf(s: Schema, a: Attribute, params: Entries): Value {
    var raw := Get(params, a.Key());
    if a.opts.ignoreEmpty && IsEmpty(raw) then Ignore
    else if a.opts.convertWith.Some? && a.opts.convertWith.value in s.converters then
      s.converters[a.opts.convertWith.value](raw)
    else raw
  }

  /** `Attribute::Base#tuple`: `{}` for `:ignore`, `{name => value}` otherwise. */
  function Tuple(name: string, v: Value): Entries {
    if v == Ignore then [] else [(Sym(name), v)]
  }

  /** `Attribute::Base#to_hash` for a value attribute: nothing unless the key is present. */
  function ValueToHash(s: Schema, a: Attribute, params: Value): Res<Entries> {
    if !params.Hash? then Failure(UnsupportedOperation("has_key?"))
    else if !HasKey(params.entries, a.Key()) then Success([])
    else Success(Tuple(a.name, ValueOf(s, a, params.entries)))
  }

  /**
   * Where a has_one writes its sub-result: under `key` when the class defines
   * no method of the field's name; flattened into the result when that method
   * returns the instance's `object`; under the returned value otherwise.
   */
  function HasOneTarget(s: Schema, a: Attribute, value: Entries): Entries {
    if a.name in s.overrides then
      var target := s.overrides[a.name];
      if target == InitialObject then value else [(target, Hash(value))]
    else [(a.Key(), Hash(value))]
  }

  /** `HasOneAssociation#to_hash`: guarded by `params[name]`, reads `params[key]`. */
  function HasOneToHash(env: Env, s: Schema, a: Attribute, params: Value, fuel: nat): Res<Entries>
    decreases fuel, 2, 0
  {
    if !params.Hash? then Failure(UnsupportedOperation("[]"))
    else if !Truthy(Get(params.entries, Sym(a.name))) then Success([])
    else
      match SubFromParams(env, a.opts.deserializer, Get(params.entries, a.Key()), fuel)
      case Failure(e) => Failure(e)
      case Success(value) => Success(HasOneTarget(s, a, value))
  }

  /** What `v.each` yields: an Array's elements, a Hash's `[key, value]` pairs. */
  function Each(v: Value): Res<seq<Value>> {
    match v
    case Arr(items) => Success(items)
    case Hash(es) => Success(seq(|es|, i requires 0 <= i < |es| => Arr([es[i].0, es[i].1])))
    case _ => Failure(UnsupportedOperation("each"))
  }

  /** The sub-results of the elements, in order; the first element that raises aborts. */
  function DeserializeEach(env: Env, d: Option<string>, items: seq<Value>, fuel: nat): Res<seq<Value>>
    decreases fuel, 0, |items|
  {
    if items == [] then Success([])
    else
      match DeserializeEach(env, d, items[..|items| - 1], fuel)
      case Failure(e) => Failure(e)
      case Success(done) =>
        match SubFromParams(env, d, items[|items| - 1], fuel)
        case Failure(e) => Failure(e)
        case Success(r) => Success(done + [Hash(r)])
  }

  /** `HasManyAssociation#value`: every element of `params[key]` deserialized, in order. */
  function HasManyValue(env: Env, a: Attribute, params: Entries, fuel: nat): Res<seq<Value>>
    decreases fuel, 1, 0
  {
    match Each(Get(params, a.Key()))
    case Failure(e) => Failure(e)
    case Success(items) => DeserializeEach(env, a.opts.deserializer, items, fuel)
  }

  /** `Attribute::Base#to_hash` for a has_many: nothing unless the key is present. */
  function HasManyToHash(env: Env, a: Attribute, params: Value, fuel: nat): Res<Entries>
    decreases fuel, 2, 0
  {
    if !params.Hash? then Failure(UnsupportedOperation("has_key?"))
    else if !HasKey(params.entries, a.Key()) then Success([])
    else
      match HasManyValue(env, a, params.entries, fuel)
      case Failure(e) => Failure(e)
      case Success(list) => Success(Tuple(a.name, Arr(list)))
  }

  /** `NestedAssociation#to_hash`: the whole input re-deserialized, under `name`. */
  function NestedToHash(env: Env, a: Attribute, params: Value, fuel: nat): Res<Entries>
    decreases fuel, 2, 0
  {
    match SubFromParams(env, a.opts.deserializer, params, fuel)
    case Failure(e) => Failure(e)
    case Success(value) => Success([(Sym(a.name), Hash(value))])
  }

  /** `Attribute#to_hash`: the typed resolver of the field's kind, applied to the params. */
  function ToHash(env: Env, s: Schema, a: Attribute, params: Value, fuel: nat): Res<Entries>
    decreases fuel, 3, 0
  {
    match a.kind
    case ValueAttribute => ValueToHash(s, a, params)
    case HasOneAssociation => HasOneToHash(env, s, a, params, fuel)
    case HasManyAssociation => HasManyToHash(env, a, params, fuel)
    case NestedAssociation => NestedToHash(env, a, params, fuel)
  }

  /** The result after the first `n` fields of the registry, in declaration order. */
  function Fold(env: Env, s: Schema, params: Value, n: nat, fuel: nat): (r: Res<Entries>)
    requires n <= |s.attrs|
    ensures r.Success? ==> UniqueKeys(r.value)
    decreases fuel, 4, n
  {
    if n == 0 then Success([])
    else
      match Fold(env, s, params, n - 1, fuel)
      case Failure(e) => Failure(e)
      case Success(acc) =>
        match ToHash(env, s, s.attrs[n - 1].1, params, fuel)
        case Failure(e) => Failure(e)
        case Success(part) =>
          MergeWithUnique(acc, part);
          Success(MergeWith(acc, part))
  }

  /** `Base#deserialize`: every field of the registry folded into a fresh hash. */
  function Deserialize(env: Env, s: Schema, params: Value, fuel: nat): (r: Res<Entries>)
    ensures r.Success? ==> UniqueKeys(r.value)
    decreases fuel, 5, 0
  {
    Fold(env, s, params, |s.attrs|, fuel)
  }

  /** `Base.from_params`: nil (or false) params raise; anything else is deserialized. */
  function FromParams(env: Env, klass: string, params: Value, fuel: nat): (r: Res<Entries>)
    ensures r.Success? ==> UniqueKeys(r.value)
    decreases fuel, 6, 0
  {
    if klass !in env then Failure(NameError(klass))
    else if !Truthy(params) then Failure(DeserializerError(klass, "params cannot be nil"))
    else Deserialize(env, env[klass], params, fuel)
  }

  /** `deserializer.from_params(input)` from inside a resolver, one nesting level deeper. */
  function SubFromParams(env: Env, d: Option<string>, input: Value, fuel: nat): (r: Res<Entries>)
    ensures r.Success? ==> UniqueKeys(r.value)
    decreases fuel, 0, 0
  {
    if d.None? then Failure(UnsupportedOperation("from_params"))
    else if fuel == 0 then Failure(SystemStackError)
    else FromParams(env, d.value, input, fuel - 1)
  }
}
