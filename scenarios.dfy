/**
 * The deserializers of the gem's test suite, declared as schemas, and the
 * outcomes its tests expect, proved of the model. `HasManyDeserializer`,
 * `NestableDeserializer` and its inner deserializer are not among the test's
 * class definitions; they are declared here as the expected outputs imply.
 */
module Scenarios {
  import opened Wrappers
  import opened OrderedMaps
  import opened Values
  import opened Errors
  import opened Fields
  import opened Schemas
  import opened Merging
  import opened Engine
  import opened DeserializeFacts
  import opened Attributable

  function Val(name: string): Attribute {
    Attribute(ValueAttribute, name, NoOpts)
  }

  function KeyedVal(name: string, key: string): Attribute {
    Attribute(ValueAttribute, name, NoOpts.(key := Some(Sym(key))))
  }

  function Emptiable(name: string, ignoreEmpty: bool, key: Option<Value>): Attribute {
    Attribute(ValueAttribute, name, NoOpts.(key := key, ignoreEmpty := ignoreEmpty))
  }

  function One(name: string, d: string): Attribute {
    Attribute(HasOneAssociation, name, NoOpts.(deserializer := Some(d)))
  }

  function Many(name: string, d: string): Attribute {
    Attribute(HasManyAssociation, name, NoOpts.(deserializer := Some(d)))
  }

  function Nest(name: string, d: string): Attribute {
    Attribute(NestedAssociation, name, NoOpts.(deserializer := Some(d)))
  }

  function Entry(a: Attribute): (Value, Attribute) {
    (a.Key(), a)
  }

  /** `attributes :user_id, :text` */
  const Basic: Schema := Schema([Entry(Val("user_id")), Entry(Val("text"))], map[], map[])

  /** `attribute :user_id, key: :user` and `attribute :text` */
  const AttributeSchema: Schema := Schema([Entry(KeyedVal("user_id", "user")), Entry(Val("text"))], map[], map[])

  /** `attribute :internal, key: :external` and `has_one :params, deserializer: BasicDeserializer` */
  const VanillaHasOne: Schema :=
    Schema([Entry(KeyedVal("internal", "external")), Entry(One("params", "BasicDeserializer"))], map[], map[])

  /** Two pairs of value attributes, with and without `ignore_empty`, with and without a key. */
  const EmptiableSchema: Schema :=
    Schema([Entry(Emptiable("emptiable", true, None)), Entry(Emptiable("nonemptiable", false, None)),
            Entry(Emptiable("emptiable_with_key", true, Some(Sym("empty")))),
            Entry(Emptiable("nonemptiable_with_key", false, Some(Sym("non_empty"))))], map[], map[])

  /** `has_one :thing` with `def thing; :user_info; end` */
  const HasOneWithTarget: Schema :=
    Schema([Entry(KeyedVal("internal", "external")), Entry(One("thing", "BasicDeserializer"))],
           map["thing" := Sym("user_info")], map[])

  /** `attributes :attr1, :attr2` */
  const OtherThing: Schema := Schema([Entry(Val("attr1")), Entry(Val("attr2"))], map[], map[])

  /** Two has_ones whose methods both return `:user_info`. */
  const Tricksy: Schema :=
    Schema([Entry(KeyedVal("internal", "external")), Entry(One("thing", "BasicDeserializer")),
            Entry(One("other_thing", "OtherThingDeserializer"))],
           map["thing" := Sym("user_info"), "other_thing" := Sym("user_info")], map[])

  /** Two has_ones, the second one's method returning the first one's name. */
  const ExtraTricksy: Schema :=
    Schema([Entry(KeyedVal("internal", "external")), Entry(One("thing", "BasicDeserializer")),
            Entry(One("other_thing", "OtherThingDeserializer"))],
           map["other_thing" := Sym("thing")], map[])

  /** Two has_ones whose methods both return `object`, the instance's `{}`. */
  const HasOneWithObjectTarget: Schema :=
    Schema([Entry(KeyedVal("internal", "external")), Entry(One("thing", "BasicDeserializer")),
            Entry(One("other_thing", "OtherThingDeserializer"))],
           map["thing" := InitialObject, "other_thing" := InitialObject], map[])

  /** `attribute :id` and `has_many :attributes, deserializer: AttributeDeserializer` */
  const HasManySchema: Schema :=
    Schema([Entry(Val("id")), Entry(Many("attributes", "AttributeDeserializer"))], map[], map[])

  /** `attribute :name, key: :attr_1` and `attribute :attr_2` */
  const NestedObject: Schema := Schema([Entry(KeyedVal("name", "attr_1")), Entry(Val("attr_2"))], map[], map[])

  /** `attributes :id, :attr_1` and `nests :nested_object, deserializer: NestedObjectDeserializer` */
  const Nestable: Schema :=
    Schema([Entry(Val("id")), Entry(Val("attr_1")), Entry(Nest("nested_object", "NestedObjectDeserializer"))],
           map[], map[])

  const Env: Env := map[
    "BasicDeserializer" := Basic,
    "AttributeDeserializer" := AttributeSchema,
    "VanillaHasOneDeserializer" := VanillaHasOne,
    "EmptiableAttributeDeserializer" := EmptiableSchema,
    "HasOneWithTargetDeserializer" := HasOneWithTarget,
    "OtherThingDeserializer" := OtherThing,
    "TricksyDeserializer" := Tricksy,
    "ExtraTricksyDeserializer" := ExtraTricksy,
    "HasOneWithObjectTargetDeserializer" := HasOneWithObjectTarget,
    "HasManyDeserializer" := HasManySchema,
    "NestedObjectDeserializer" := NestedObject,
    "NestableDeserializer" := Nestable]


  /** The class `name` is declared in `env` with schema `s`. */
  ghost predicate Defines(env: Env, name: string, s: Schema) {
    name in env && env[name] == s
  }

  /** Every test class is in the environment of the test suite. */
  lemma EnvDefinesAll()
    ensures Defines(Env, "BasicDeserializer", Basic)
    ensures Defines(Env, "AttributeDeserializer", AttributeSchema)
    ensures Defines(Env, "VanillaHasOneDeserializer", VanillaHasOne)
    ensures Defines(Env, "EmptiableAttributeDeserializer", EmptiableSchema)
    ensures Defines(Env, "HasOneWithTargetDeserializer", HasOneWithTarget)
    ensures Defines(Env, "OtherThingDeserializer", OtherThing)
    ensures Defines(Env, "TricksyDeserializer", Tricksy)
    ensures Defines(Env, "ExtraTricksyDeserializer", ExtraTricksy)
    ensures Defines(Env, "HasOneWithObjectTargetDeserializer", HasOneWithObjectTarget)
    ensures Defines(Env, "HasManyDeserializer", HasManySchema)
    ensures Defines(Env, "NestedObjectDeserializer", NestedObject)
    ensures Defines(Env, "NestableDeserializer", Nestable)
  {
  }

  // Test inputs and outputs.

  /** The `@params` of the test setup. */
  const TestParams: Value := Hash([(Sym("user"), Int(6)), (Sym("user_id"), Int(6)), (Sym("text"), Str("text")),
                                   (Sym("i_sholdnt_be_here"), Sym("should_i_now"))])

  const BasicOut: Entries := [(Sym("user_id"), Int(6)), (Sym("text"), Str("text"))]

  /** `{ attr1: :blah, attr2: :blech }` */
  const OtherParams: Value := Hash([(Sym("attr1"), Sym("blah")), (Sym("attr2"), Sym("blech"))])

  const OtherOut: Entries := [(Sym("attr1"), Sym("blah")), (Sym("attr2"), Sym("blech"))]

  const InternalOut: Entries := [(Sym("internal"), Sym("thing"))]

  /** The input of the has_one tests with a target: `external`, `thing` and `other_thing`. */
  const ThingParams: Value := Hash([(Sym("external"), Sym("thing")), (Sym("thing"), TestParams),
                                    (Sym("other_thing"), OtherParams)])

  // Steps of the engine, stated once for the scenarios below.

  /** The class is found and the params not nil: `from_params` is the fold over all fields. */
  lemma Top(env: Env, name: string, s: Schema, params: Value, fuel: nat)
    requires Defines(env, name, s) && Truthy(params)
    ensures FromParams(env, name, params, fuel) == Fold(env, s, params, |s.attrs|, fuel)
  {
  }

  /** One more field of the fold. */
  lemma Step(env: Env, s: Schema, params: Value, n: nat, fuel: nat, acc: Entries, part: Entries)
    requires 0 < n <= |s.attrs|
    requires Fold(env, s, params, n - 1, fuel) == Success(acc)
    requires ToHash(env, s, s.attrs[n - 1].1, params, fuel) == Success(part)
    ensures Fold(env, s, params, n, fuel) == Success(MergeWith(acc, part))
  {
  }

  /** A plain value attribute whose key is present copies the value under its name. */
  lemma ValueField(env: Env, s: Schema, a: Attribute, params: Value, fuel: nat, v: Value)
    requires a.kind == ValueAttribute && !a.opts.ignoreEmpty && a.opts.convertWith.None?
    requires params.Hash? && Lookup(params.entries, a.Key()) == Some(v) && v != Ignore
    ensures ToHash(env, s, a, params, fuel) == Success([(Sym(a.name), v)])
  {
  }

  /** A has_one whose guard passes stores the sub-result at its target. */
  lemma HasOneField(env: Env, s: Schema, a: Attribute, params: Value, fuel: nat, sub: Entries)
    requires a.kind == HasOneAssociation && a.opts.deserializer.Some? && fuel >= 1
    requires params.Hash? && Truthy(Get(params.entries, Sym(a.name)))
    requires FromParams(env, a.opts.deserializer.value, Get(params.entries, a.Key()), fuel - 1) == Success(sub)
    ensures ToHash(env, s, a, params, fuel) == Success(HasOneTarget(s, a, sub))
  {
    assert SubFromParams(env, a.opts.deserializer, Get(params.entries, a.Key()), fuel) == Success(sub);
    assert HasOneToHash(env, s, a, params, fuel) == Success(HasOneTarget(s, a, sub));
  }

  /** Two fields with disjoint results: the result is their concatenation. */
  lemma FoldTwo(env: Env, s: Schema, params: Value, fuel: nat, p0: Entries, p1: Entries)
    requires |s.attrs| == 2
    requires ToHash(env, s, s.attrs[0].1, params, fuel) == Success(p0)
    requires ToHash(env, s, s.attrs[1].1, params, fuel) == Success(p1)
    requires UniqueKeys(p0) && UniqueKeys(p1)
    requires forall i, j :: 0 <= i < |p0| && 0 <= j < |p1| ==> p0[i].0 != p1[j].0
    ensures Fold(env, s, params, 2, fuel) == Success(p0 + p1)
  {
    Step(env, s, params, 1, fuel, [], p0);
    MergeWithIntoEmpty(p0);
    Step(env, s, params, 2, fuel, p0, p1);
    MergeWithDisjoint(p0, p1);
  }

  // The tests.

  lemma TestParamsLookups()
    ensures Lookup(TestParams.entries, Sym("user_id")) == Some(Int(6))
    ensures Lookup(TestParams.entries, Sym("text")) == Some(Str("text"))
    ensures Lookup(TestParams.entries, Sym("user")) == Some(Int(6))
  {
  }

  lemma NoNilParams(env: Env, fuel: nat)
    requires Defines(env, "BasicDeserializer", Basic)
    ensures FromParams(env, "BasicDeserializer", Nil, fuel)
         == Failure(DeserializerError("BasicDeserializer", "params cannot be nil"))
  {
  }

  lemma PermittedParamsInOrder()
    ensures Schemas.PermittedParams(Basic.attrs) == [Sym("user_id"), Sym("text")]
    ensures Schemas.PermittedParams(AttributeSchema.attrs) == [Sym("user"), Sym("text")]
  {
  }

  /** Any input holding `user_id` and `text`: exactly those two, in declaration order. */
  lemma BasicOn(env: Env, params: Value, fuel: nat, u: Value, t: Value)
    requires Defines(env, "BasicDeserializer", Basic)
    requires params.Hash? && u != Ignore && t != Ignore
    requires Lookup(params.entries, Sym("user_id")) == Some(u) && Lookup(params.entries, Sym("text")) == Some(t)
    ensures FromParams(env, "BasicDeserializer", params, fuel) == Success([(Sym("user_id"), u), (Sym("text"), t)])
  {
    ValueField(env, Basic, Val("user_id"), params, fuel, u);
    ValueField(env, Basic, Val("text"), params, fuel, t);
    Top(env, "BasicDeserializer", Basic, params, fuel);
    FoldTwo(env, Basic, params, fuel, [(Sym("user_id"), u)], [(Sym("text"), t)]);
    assert |Basic.attrs| == 2;
    assert [(Sym("user_id"), u)] + [(Sym("text"), t)] == [(Sym("user_id"), u), (Sym("text"), t)];
  }

  /** Only the declared keys come through. */
  lemma BasicFromParams(env: Env, fuel: nat)
    requires Defines(env, "BasicDeserializer", Basic)
    ensures FromParams(env, "BasicDeserializer", TestParams, fuel) == Success(BasicOut)
  {
    TestParamsLookups();
    BasicOn(env, TestParams, fuel, Int(6), Str("text"));
  }

  /** nil and false inputs are copied, not dropped. */
  lemma FalseAndNilKept(env: Env, fuel: nat)
    requires Defines(env, "BasicDeserializer", Basic)
    ensures FromParams(env, "BasicDeserializer",
                       Hash([(Sym("user_id"), Nil), (Sym("text"), Bool(false)),
                             (Sym("i_sholdnt_be_here"), Sym("should_i_now"))]), fuel)
         == Success([(Sym("user_id"), Nil), (Sym("text"), Bool(false))])
  {
    BasicOn(env, Hash([(Sym("user_id"), Nil), (Sym("text"), Bool(false)),
                       (Sym("i_sholdnt_be_here"), Sym("should_i_now"))]), fuel, Nil, Bool(false));
  }

  /** Any input holding `user` and `text`: `user_id` is read from `:user`. */
  lemma AttributeOn(env: Env, params: Value, fuel: nat, u: Value, t: Value)
    requires Defines(env, "AttributeDeserializer", AttributeSchema)
    requires params.Hash? && u != Ignore && t != Ignore
    requires Lookup(params.entries, Sym("user")) == Some(u) && Lookup(params.entries, Sym("text")) == Some(t)
    ensures FromParams(env, "AttributeDeserializer", params, fuel) == Success([(Sym("user_id"), u), (Sym("text"), t)])
  {
    ValueField(env, AttributeSchema, KeyedVal("user_id", "user"), params, fuel, u);
    ValueField(env, AttributeSchema, Val("text"), params, fuel, t);
    Top(env, "AttributeDeserializer", AttributeSchema, params, fuel);
    FoldTwo(env, AttributeSchema, params, fuel, [(Sym("user_id"), u)], [(Sym("text"), t)]);
    assert |AttributeSchema.attrs| == 2;
    assert [(Sym("user_id"), u)] + [(Sym("text"), t)] == [(Sym("user_id"), u), (Sym("text"), t)];
  }

  /** The undeclared key is absent from the result. */
  lemma AttributeWithKey(env: Env, fuel: nat)
    requires Defines(env, "AttributeDeserializer", AttributeSchema)
    ensures FromParams(env, "AttributeDeserializer", TestParams, fuel) == Success(BasicOut)
    ensures Get(BasicOut, Sym("i_shouldnt_be_here")) == Nil
  {
    TestParamsLookups();
    AttributeOn(env, TestParams, fuel, Int(6), Str("text"));
  }

  /** `has_one :params` with no method of that name: the sub-result is stored under `:params`. */
  lemma VanillaHasOneOn(env: Env, params: Value, fuel: nat, ext: Value, inner: Value, b: Entries)
    requires Defines(env, "VanillaHasOneDeserializer", VanillaHasOne) && fuel >= 1
    requires params.Hash? && ext != Ignore && Truthy(inner)
    requires Lookup(params.entries, Sym("external")) == Some(ext) && Lookup(params.entries, Sym("params")) == Some(inner)
    requires FromParams(env, "BasicDeserializer", inner, fuel - 1) == Success(b)
    ensures FromParams(env, "VanillaHasOneDeserializer", params, fuel)
         == Success([(Sym("internal"), ext), (Sym("params"), Hash(b))])
  {
    var s := VanillaHasOne;
    ValueField(env, s, KeyedVal("internal", "external"), params, fuel, ext);
    HasOneField(env, s, One("params", "BasicDeserializer"), params, fuel, b);
    assert HasOneTarget(s, One("params", "BasicDeserializer"), b) == [(Sym("params"), Hash(b))];
    Top(env, "VanillaHasOneDeserializer", s, params, fuel);
    FoldTwo(env, s, params, fuel, [(Sym("internal"), ext)], [(Sym("params"), Hash(b))]);
    assert |s.attrs| == 2;
    assert [(Sym("internal"), ext)] + [(Sym("params"), Hash(b))] == [(Sym("internal"), ext), (Sym("params"), Hash(b))];
  }

  lemma HasOne(env: Env, fuel: nat)
    requires Defines(env, "VanillaHasOneDeserializer", VanillaHasOne) && Defines(env, "BasicDeserializer", Basic)
    requires fuel >= 1
    ensures FromParams(env, "VanillaHasOneDeserializer",
                       Hash([(Sym("external"), Sym("thing")), (Sym("params"), TestParams)]), fuel)
         == Success([(Sym("internal"), Sym("thing")), (Sym("params"), Hash(BasicOut))])
  {
    BasicFromParams(env, fuel - 1);
    VanillaHasOneOn(env, Hash([(Sym("external"), Sym("thing")), (Sym("params"), TestParams)]), fuel,
                    Sym("thing"), TestParams, BasicOut);
  }

  /** An input with `external` and a `thing` that `BasicDeserializer` turns into `b`. */
  ghost predicate ThingInput(env: Env, params: Value, fuel: nat, ext: Value, b: Entries) {
    && fuel >= 1 && params.Hash? && ext != Ignore
    && Lookup(params.entries, Sym("external")) == Some(ext)
    && Truthy(Get(params.entries, Sym("thing")))
    && FromParams(env, "BasicDeserializer", Get(params.entries, Sym("thing")), fuel - 1) == Success(b)
  }

  /** An input with an `other_thing` that `OtherThingDeserializer` turns into `o`. */
  ghost predicate OtherThingInput(env: Env, params: Value, fuel: nat, o: Entries) {
    && fuel >= 1 && params.Hash?
    && Truthy(Get(params.entries, Sym("other_thing")))
    && FromParams(env, "OtherThingDeserializer", Get(params.entries, Sym("other_thing")), fuel - 1) == Success(o)
  }

  /** `has_one :thing` with `def thing; :user_info; end`: the sub-result goes under `:user_info`. */
  lemma HasOneWithTargetOn(env: Env, params: Value, fuel: nat, ext: Value, b: Entries)
    requires Defines(env, "HasOneWithTargetDeserializer", HasOneWithTarget)
    requires ThingInput(env, params, fuel, ext, b)
    ensures FromParams(env, "HasOneWithTargetDeserializer", params, fuel)
         == Success([(Sym("internal"), ext), (Sym("user_info"), Hash(b))])
  {
    var s := HasOneWithTarget;
    ValueField(env, s, KeyedVal("internal", "external"), params, fuel, ext);
    HasOneField(env, s, One("thing", "BasicDeserializer"), params, fuel, b);
    var p0, p1 := [(Sym("internal"), ext)], [(Sym("user_info"), Hash(b))];
    assert HasOneTarget(s, One("thing", "BasicDeserializer"), b) == p1;
    Top(env, "HasOneWithTargetDeserializer", s, params, fuel);
    FoldTwo(env, s, params, fuel, p0, p1);
    assert |s.attrs| == 2;
    assert p0 + p1 == [(Sym("internal"), ext), (Sym("user_info"), Hash(b))];
  }

  /** Three fields, each merged in turn. */
  lemma FoldThree(env: Env, s: Schema, params: Value, fuel: nat, p0: Entries, p1: Entries, p2: Entries)
    requires |s.attrs| == 3
    requires ToHash(env, s, s.attrs[0].1, params, fuel) == Success(p0)
    requires ToHash(env, s, s.attrs[1].1, params, fuel) == Success(p1)
    requires ToHash(env, s, s.attrs[2].1, params, fuel) == Success(p2)
    ensures Fold(env, s, params, 3, fuel) == Success(MergeWith(MergeWith(MergeWith([], p0), p1), p2))
  {
    Step(env, s, params, 1, fuel, [], p0);
    Step(env, s, params, 2, fuel, MergeWith([], p0), p1);
    Step(env, s, params, 3, fuel, MergeWith(MergeWith([], p0), p1), p2);
  }

  /** Two has_ones written under the same key `k` after a value field: the sub-results are merged at `k`. */
  lemma CollideAt(ext: Value, k: Value, b: Entries, o: Entries)
    requires k != Sym("internal")
    ensures MergeWith(MergeWith(MergeWith([], [(Sym("internal"), ext)]), [(k, Hash(b))]), [(k, Hash(o))])
         == [(Sym("internal"), ext), (k, Hash(Merge(b, o)))]
  {
    var p0, p1, p2 := [(Sym("internal"), ext)], [(k, Hash(b))], [(k, Hash(o))];
    MergeWithIntoEmpty(p0);
    MergeWithDisjoint(p0, p1);
    var acc := p0 + p1;
    assert Lookup(acc, k) == Some(Hash(b));
    assert Put(acc, k, Hash(Merge(b, o))) == [(Sym("internal"), ext), (k, Hash(Merge(b, o)))];
  }

  /** Both has_ones target `:user_info`: their sub-results are merged there. */
  lemma TricksyOn(env: Env, params: Value, fuel: nat, ext: Value, b: Entries, o: Entries)
    requires Defines(env, "TricksyDeserializer", Tricksy) && ThingInput(env, params, fuel, ext, b) && OtherThingInput(env, params, fuel, o)
    ensures FromParams(env, "TricksyDeserializer", params, fuel)
         == Success([(Sym("internal"), ext), (Sym("user_info"), Hash(Merge(b, o)))])
  {
    var s := Tricksy;
    ValueField(env, s, KeyedVal("internal", "external"), params, fuel, ext);
    HasOneField(env, s, One("thing", "BasicDeserializer"), params, fuel, b);
    HasOneField(env, s, One("other_thing", "OtherThingDeserializer"), params, fuel, o);
    assert HasOneTarget(s, One("thing", "BasicDeserializer"), b) == [(Sym("user_info"), Hash(b))];
    assert HasOneTarget(s, One("other_thing", "OtherThingDeserializer"), o) == [(Sym("user_info"), Hash(o))];
    Top(env, "TricksyDeserializer", s, params, fuel);
    FoldThree(env, s, params, fuel, [(Sym("internal"), ext)], [(Sym("user_info"), Hash(b))], [(Sym("user_info"), Hash(o))]);
    CollideAt(ext, Sym("user_info"), b, o);
    assert |s.attrs| == 3;
  }

  /** The second has_one targets the first one's key: their sub-results are merged under `:thing`. */
  lemma ExtraTricksyOn(env: Env, params: Value, fuel: nat, ext: Value, b: Entries, o: Entries)
    requires Defines(env, "ExtraTricksyDeserializer", ExtraTricksy) && ThingInput(env, params, fuel, ext, b) && OtherThingInput(env, params, fuel, o)
    ensures FromParams(env, "ExtraTricksyDeserializer", params, fuel)
         == Success([(Sym("internal"), ext), (Sym("thing"), Hash(Merge(b, o)))])
  {
    var s := ExtraTricksy;
    ValueField(env, s, KeyedVal("internal", "external"), params, fuel, ext);
    HasOneField(env, s, One("thing", "BasicDeserializer"), params, fuel, b);
    HasOneField(env, s, One("other_thing", "OtherThingDeserializer"), params, fuel, o);
    assert HasOneTarget(s, One("thing", "BasicDeserializer"), b) == [(Sym("thing"), Hash(b))];
    assert HasOneTarget(s, One("other_thing", "OtherThingDeserializer"), o) == [(Sym("thing"), Hash(o))];
    Top(env, "ExtraTricksyDeserializer", s, params, fuel);
    FoldThree(env, s, params, fuel, [(Sym("internal"), ext)], [(Sym("thing"), Hash(b))], [(Sym("thing"), Hash(o))]);
    CollideAt(ext, Sym("thing"), b, o);
    assert |s.attrs| == 3;
  }

  /** Both has_ones return `object`: their sub-results are merged into the top level. */
  lemma ObjectTargetOn(env: Env, params: Value, fuel: nat, ext: Value, b: Entries, o: Entries)
    requires Defines(env, "HasOneWithObjectTargetDeserializer", HasOneWithObjectTarget)
    requires ThingInput(env, params, fuel, ext, b) && OtherThingInput(env, params, fuel, o)
    ensures FromParams(env, "HasOneWithObjectTargetDeserializer", params, fuel)
         == Success(MergeWith(MergeWith([(Sym("internal"), ext)], b), o))
  {
    var s := HasOneWithObjectTarget;
    ValueField(env, s, KeyedVal("internal", "external"), params, fuel, ext);
    HasOneField(env, s, One("thing", "BasicDeserializer"), params, fuel, b);
    HasOneField(env, s, One("other_thing", "OtherThingDeserializer"), params, fuel, o);
    var p0 := [(Sym("internal"), ext)];
    assert HasOneTarget(s, One("thing", "BasicDeserializer"), b) == b;
    assert HasOneTarget(s, One("other_thing", "OtherThingDeserializer"), o) == o;
    Top(env, "HasOneWithObjectTargetDeserializer", s, params, fuel);
    Step(env, s, params, 1, fuel, [], p0);
    MergeWithIntoEmpty(p0);
    Step(env, s, params, 2, fuel, p0, b);
    Step(env, s, params, 3, fuel, MergeWith(p0, b), o);
    assert |s.attrs| == 3;
  }

  /** Any input holding `attr1` and `attr2`. */
  lemma OtherThingOn(env: Env, params: Value, fuel: nat, x: Value, y: Value)
    requires Defines(env, "OtherThingDeserializer", OtherThing)
    requires params.Hash? && x != Ignore && y != Ignore
    requires Lookup(params.entries, Sym("attr1")) == Some(x) && Lookup(params.entries, Sym("attr2")) == Some(y)
    ensures FromParams(env, "OtherThingDeserializer", params, fuel) == Success([(Sym("attr1"), x), (Sym("attr2"), y)])
  {
    ValueField(env, OtherThing, Val("attr1"), params, fuel, x);
    ValueField(env, OtherThing, Val("attr2"), params, fuel, y);
    Top(env, "OtherThingDeserializer", OtherThing, params, fuel);
    FoldTwo(env, OtherThing, params, fuel, [(Sym("attr1"), x)], [(Sym("attr2"), y)]);
    assert |OtherThing.attrs| == 2;
    assert [(Sym("attr1"), x)] + [(Sym("attr2"), y)] == [(Sym("attr1"), x), (Sym("attr2"), y)];
  }

  lemma ThingParamsLookups()
    ensures Lookup(ThingParams.entries, Sym("external")) == Some(Sym("thing"))
    ensures Lookup(ThingParams.entries, Sym("thing")) == Some(TestParams)
    ensures Lookup(ThingParams.entries, Sym("other_thing")) == Some(OtherParams)
    ensures Lookup(OtherParams.entries, Sym("attr1")) == Some(Sym("blah"))
    ensures Lookup(OtherParams.entries, Sym("attr2")) == Some(Sym("blech"))
  {
    var e := ThingParams.entries;
    assert Lookup(e[1..], Sym("thing")) == Some(TestParams);
    assert Lookup(e[2..], Sym("other_thing")) == Some(OtherParams);
    assert Lookup(e[1..], Sym("other_thing")) == Some(OtherParams);
  }

  /** The input of the merging tests, with the sub-results its has_ones produce. */
  lemma ThingParamsSubResults(env: Env, fuel: nat)
    requires Defines(env, "BasicDeserializer", Basic) && Defines(env, "OtherThingDeserializer", OtherThing)
    requires fuel >= 1
    ensures ThingInput(env, ThingParams, fuel, Sym("thing"), BasicOut)
    ensures OtherThingInput(env, ThingParams, fuel, OtherOut)
  {
    ThingParamsLookups();
    BasicFromParams(env, fuel - 1);
    OtherThingOn(env, OtherParams, fuel - 1, Sym("blah"), Sym("blech"));
  }

  /** The two sub-results have no key in common, so merging them concatenates them. */
  lemma BasicOtherDisjoint()
    ensures Merge(BasicOut, OtherOut) == BasicOut + OtherOut
    ensures MergeWith(MergeWith(InternalOut, BasicOut), OtherOut) == InternalOut + BasicOut + OtherOut
  {
    MergeDisjoint(BasicOut, OtherOut);
    MergeWithDisjoint(InternalOut, BasicOut);
    var acc := InternalOut + BasicOut;
    assert acc == [(Sym("internal"), Sym("thing")), (Sym("user_id"), Int(6)), (Sym("text"), Str("text"))];
    MergeWithDisjoint(acc, OtherOut);
  }

  lemma HasOneWithKeyTarget(env: Env, fuel: nat)
    requires Defines(env, "HasOneWithTargetDeserializer", HasOneWithTarget) && Defines(env, "BasicDeserializer", Basic)
    requires fuel >= 1
    ensures FromParams(env, "HasOneWithTargetDeserializer",
                       Hash([(Sym("external"), Sym("thing")), (Sym("thing"), TestParams)]), fuel)
         == Success(InternalOut + [(Sym("user_info"), Hash(BasicOut))])
  {
    var params := Hash([(Sym("external"), Sym("thing")), (Sym("thing"), TestParams)]);
    assert Lookup(params.entries, Sym("thing")) == Some(TestParams);
    BasicFromParams(env, fuel - 1);
    HasOneWithTargetOn(env, params, fuel, Sym("thing"), BasicOut);
    assert [(Sym("internal"), Sym("thing")), (Sym("user_info"), Hash(BasicOut))]
        == InternalOut + [(Sym("user_info"), Hash(BasicOut))];
  }

  lemma CombineTwoHasOnesIntoThirdKey(env: Env, fuel: nat)
    requires Defines(env, "TricksyDeserializer", Tricksy)
    requires Defines(env, "BasicDeserializer", Basic) && Defines(env, "OtherThingDeserializer", OtherThing)
    requires fuel >= 1
    ensures FromParams(env, "TricksyDeserializer", ThingParams, fuel)
         == Success(InternalOut + [(Sym("user_info"), Hash(BasicOut + OtherOut))])
  {
    ThingParamsSubResults(env, fuel);
    TricksyOn(env, ThingParams, fuel, Sym("thing"), BasicOut, OtherOut);
    BasicOtherDisjoint();
    assert [(Sym("internal"), Sym("thing")), (Sym("user_info"), Hash(BasicOut + OtherOut))]
        == InternalOut + [(Sym("user_info"), Hash(BasicOut + OtherOut))];
  }

  lemma MergeHasOneIntoAnother(env: Env, fuel: nat)
    requires Defines(env, "ExtraTricksyDeserializer", ExtraTricksy)
    requires Defines(env, "BasicDeserializer", Basic) && Defines(env, "OtherThingDeserializer", OtherThing)
    requires fuel >= 1
    ensures FromParams(env, "ExtraTricksyDeserializer", ThingParams, fuel)
         == Success(InternalOut + [(Sym("thing"), Hash(BasicOut + OtherOut))])
  {
    ThingParamsSubResults(env, fuel);
    ExtraTricksyOn(env, ThingParams, fuel, Sym("thing"), BasicOut, OtherOut);
    BasicOtherDisjoint();
    assert [(Sym("internal"), Sym("thing")), (Sym("thing"), Hash(BasicOut + OtherOut))]
        == InternalOut + [(Sym("thing"), Hash(BasicOut + OtherOut))];
  }

  lemma MergeHasOneIntoObject(env: Env, fuel: nat)
    requires Defines(env, "HasOneWithObjectTargetDeserializer", HasOneWithObjectTarget)
    requires Defines(env, "BasicDeserializer", Basic) && Defines(env, "OtherThingDeserializer", OtherThing)
    requires fuel >= 1
    ensures FromParams(env, "HasOneWithObjectTargetDeserializer", ThingParams, fuel)
         == Success(InternalOut + BasicOut + OtherOut)
  {
    ThingParamsSubResults(env, fuel);
    ObjectTargetOn(env, ThingParams, fuel, Sym("thing"), BasicOut, OtherOut);
    BasicOtherDisjoint();
    assert [(Sym("internal"), Sym("thing"))] == InternalOut;
  }

  /** Four fields, each merged in turn. */
  lemma FoldFour(env: Env, s: Schema, params: Value, fuel: nat, p0: Entries, p1: Entries, p2: Entries, p3: Entries)
    requires |s.attrs| == 4
    requires ToHash(env, s, s.attrs[0].1, params, fuel) == Success(p0)
    requires ToHash(env, s, s.attrs[1].1, params, fuel) == Success(p1)
    requires ToHash(env, s, s.attrs[2].1, params, fuel) == Success(p2)
    requires ToHash(env, s, s.attrs[3].1, params, fuel) == Success(p3)
    ensures Fold(env, s, params, 4, fuel) == Success(MergeWith(MergeWith(MergeWith(MergeWith([], p0), p1), p2), p3))
  {
    Step(env, s, params, 1, fuel, [], p0);
    Step(env, s, params, 2, fuel, MergeWith([], p0), p1);
    Step(env, s, params, 3, fuel, MergeWith(MergeWith([], p0), p1), p2);
    Step(env, s, params, 4, fuel, MergeWith(MergeWith(MergeWith([], p0), p1), p2), p3);
  }

  /** The part field `i` of the emptiable schema contributes when only field `j`'s key is given. */
  function EmptiablePart(i: nat, j: nat, v: Value): Entries
    requires i < 4 && j < 4
  {
    var a := EmptiableSchema.attrs[i].1;
    if i != j || (a.opts.ignoreEmpty && IsEmpty(v)) then [] else [(Sym(a.name), v)]
  }

  lemma EmptiableKeysDistinct()
    ensures forall i, j :: 0 <= i < j < 4 ==> EmptiableSchema.attrs[i].0 != EmptiableSchema.attrs[j].0
    ensures forall i :: 0 <= i < 4 ==> EmptiableSchema.attrs[i].0 == EmptiableSchema.attrs[i].1.Key()
    ensures forall i :: 0 <= i < 4 ==> EmptiableSchema.attrs[i].1.kind == ValueAttribute
    ensures forall i :: 0 <= i < 4 ==> EmptiableSchema.attrs[i].1.opts.convertWith.None?
    ensures |EmptiableSchema.attrs| == 4
  {
  }

  lemma EmptiableField(env: Env, fuel: nat, i: nat, j: nat, v: Value)
    requires i < 4 && j < 4 && v != Ignore
    ensures ToHash(env, EmptiableSchema, EmptiableSchema.attrs[i].1, Hash([(EmptiableSchema.attrs[j].0, v)]), fuel)
         == Success(EmptiablePart(i, j, v))
  {
    EmptiableKeysDistinct();
    var a := EmptiableSchema.attrs[i].1;
    var ps := [(EmptiableSchema.attrs[j].0, v)];
    if i == j {
      assert Get(ps, a.Key()) == v;
    } else {
      assert !HasKey(ps, a.Key());
    }
  }

  /**
   * A single declared key given to the emptiable deserializer: its field is
   * dropped exactly when it sets `ignore_empty` and the value is empty.
   */
  lemma EmptiableSingleKey(env: Env, fuel: nat, j: nat, v: Value)
    requires Defines(env, "EmptiableAttributeDeserializer", EmptiableSchema) && j < 4 && v != Ignore
    ensures var a := EmptiableSchema.attrs[j].1;
      FromParams(env, "EmptiableAttributeDeserializer", Hash([(a.Key(), v)]), fuel)
        == Success(if a.opts.ignoreEmpty && IsEmpty(v) then [] else [(Sym(a.name), v)])
  {
    EmptiableKeysDistinct();
    var params := Hash([(EmptiableSchema.attrs[j].0, v)]);
    EmptiableField(env, fuel, 0, j, v);
    EmptiableField(env, fuel, 1, j, v);
    EmptiableField(env, fuel, 2, j, v);
    EmptiableField(env, fuel, 3, j, v);
    Top(env, "EmptiableAttributeDeserializer", EmptiableSchema, params, fuel);
    FoldFour(env, EmptiableSchema, params, fuel,
             EmptiablePart(0, j, v), EmptiablePart(1, j, v), EmptiablePart(2, j, v), EmptiablePart(3, j, v));
  }

  /** The empty values the tests iterate over: `[false, nil, "", [], {}]`. */
  const EmptyValues: seq<Value> := [Bool(false), Nil, Str(""), Arr([]), Hash([])]

  /** A key that none of the four fields reads contributes nothing. */
  lemma EmptiableUndeclaredKey(env: Env, fuel: nat, k: Value, v: Value)
    requires Defines(env, "EmptiableAttributeDeserializer", EmptiableSchema)
    requires forall i :: 0 <= i < |EmptiableSchema.attrs| ==> EmptiableSchema.attrs[i].0 != k
    ensures FromParams(env, "EmptiableAttributeDeserializer", Hash([(k, v)]), fuel) == Success([])
  {
    EmptiableKeysDistinct();
    var params := Hash([(k, v)]);
    forall i | 0 <= i < 4
      ensures ToHash(env, EmptiableSchema, EmptiableSchema.attrs[i].1, params, fuel) == Success([])
    {
      assert !HasKey(params.entries, EmptiableSchema.attrs[i].1.Key());
    }
    Top(env, "EmptiableAttributeDeserializer", EmptiableSchema, params, fuel);
    FoldFour(env, EmptiableSchema, params, fuel, [], [], [], []);
  }

  lemma IgnoreEmptyOption(env: Env, fuel: nat, v: Value)
    requires Defines(env, "EmptiableAttributeDeserializer", EmptiableSchema) && v in EmptyValues
    ensures FromParams(env, "EmptiableAttributeDeserializer", Hash([(Sym("emptiable"), Bool(true))]), fuel)
         == Success([(Sym("emptiable"), Bool(true))])
    ensures FromParams(env, "EmptiableAttributeDeserializer", Hash([(Sym("nonemptiable"), Bool(true))]), fuel)
         == Success([(Sym("nonemptiable"), Bool(true))])
    ensures FromParams(env, "EmptiableAttributeDeserializer", Hash([(Sym("emptiable"), v)]), fuel) == Success([])
    ensures FromParams(env, "EmptiableAttributeDeserializer", Hash([(Sym("nonemptiable"), v)]), fuel)
         == Success([(Sym("nonemptiable"), v)])
  {
    assert EmptiableSchema.attrs[0].1.Key() == Sym("emptiable");
    assert EmptiableSchema.attrs[1].1.Key() == Sym("nonemptiable");
    EmptiableSingleKey(env, fuel, 0, Bool(true));
    EmptiableSingleKey(env, fuel, 1, Bool(true));
    EmptiableSingleKey(env, fuel, 0, v);
    EmptiableSingleKey(env, fuel, 1, v);
  }

  lemma IgnoreEmptyWithKey(env: Env, fuel: nat, v: Value)
    requires Defines(env, "EmptiableAttributeDeserializer", EmptiableSchema) && v in EmptyValues
    ensures FromParams(env, "EmptiableAttributeDeserializer", Hash([(Sym("empty"), Bool(true))]), fuel)
         == Success([(Sym("emptiable_with_key"), Bool(true))])
    ensures FromParams(env, "EmptiableAttributeDeserializer", Hash([(Sym("non_empty"), Bool(true))]), fuel)
         == Success([(Sym("nonemptiable_with_key"), Bool(true))])
    ensures FromParams(env, "EmptiableAttributeDeserializer", Hash([(Sym("key"), v)]), fuel) == Success([])
    ensures FromParams(env, "EmptiableAttributeDeserializer", Hash([(Sym("non_empty"), v)]), fuel)
         == Success([(Sym("nonemptiable_with_key"), v)])
  {
    assert EmptiableSchema.attrs[2].1.Key() == Sym("empty");
    assert EmptiableSchema.attrs[3].1.Key() == Sym("non_empty");
    EmptiableSingleKey(env, fuel, 2, Bool(true));
    EmptiableSingleKey(env, fuel, 3, Bool(true));
    EmptiableSingleKey(env, fuel, 3, v);
    EmptiableUndeclaredKey(env, fuel, Sym("key"), v);
  }

  /** A has_many over a two-element array: both elements deserialized, in order. */
  lemma HasManyOfTwo(env: Env, s: Schema, a: Attribute, params: Value, fuel: nat, x1: Value, x2: Value, r1: Entries, r2: Entries)
    requires a.kind == HasManyAssociation && params.Hash?
    requires Lookup(params.entries, a.Key()) == Some(Arr([x1, x2]))
    requires SubFromParams(env, a.opts.deserializer, x1, fuel) == Success(r1)
    requires SubFromParams(env, a.opts.deserializer, x2, fuel) == Success(r2)
    ensures ToHash(env, s, a, params, fuel) == Success([(Sym(a.name), Arr([Hash(r1), Hash(r2)]))])
  {
    var d := a.opts.deserializer;
    assert [x1, x2][..1] == [x1] && [x1][..0] == [];
    assert DeserializeEach(env, d, [], fuel) == Success([]);
    assert [] + [Hash(r1)] == [Hash(r1)];
    assert DeserializeEach(env, d, [x1], fuel) == Success([Hash(r1)]);
    assert [Hash(r1)] + [Hash(r2)] == [Hash(r1), Hash(r2)];
    assert DeserializeEach(env, d, [x1, x2], fuel) == Success([Hash(r1), Hash(r2)]);
    assert HasManyValue(env, a, params.entries, fuel) == Success([Hash(r1), Hash(r2)]);
  }

  /** `id` copied, `attributes` deserialized element by element with `AttributeDeserializer`. */
  lemma HasManyOn(env: Env, params: Value, fuel: nat, id: Value, x1: Value, x2: Value, r1: Entries, r2: Entries)
    requires Defines(env, "HasManyDeserializer", HasManySchema) && fuel >= 1
    requires params.Hash? && id != Ignore
    requires Lookup(params.entries, Sym("id")) == Some(id)
    requires Lookup(params.entries, Sym("attributes")) == Some(Arr([x1, x2]))
    requires FromParams(env, "AttributeDeserializer", x1, fuel - 1) == Success(r1)
    requires FromParams(env, "AttributeDeserializer", x2, fuel - 1) == Success(r2)
    ensures FromParams(env, "HasManyDeserializer", params, fuel)
         == Success([(Sym("id"), id), (Sym("attributes"), Arr([Hash(r1), Hash(r2)]))])
  {
    var s := HasManySchema;
    ValueField(env, s, Val("id"), params, fuel, id);
    HasManyOfTwo(env, s, Many("attributes", "AttributeDeserializer"), params, fuel, x1, x2, r1, r2);
    var p0, p1 := [(Sym("id"), id)], [(Sym("attributes"), Arr([Hash(r1), Hash(r2)]))];
    Top(env, "HasManyDeserializer", s, params, fuel);
    FoldTwo(env, s, params, fuel, p0, p1);
    assert |s.attrs| == 2;
    assert p0 + p1 == [(Sym("id"), id), (Sym("attributes"), Arr([Hash(r1), Hash(r2)]))];
  }

  lemma SupportsHasMany(env: Env, fuel: nat)
    requires Defines(env, "HasManyDeserializer", HasManySchema)
    requires Defines(env, "AttributeDeserializer", AttributeSchema) && fuel >= 1
    ensures FromParams(env, "HasManyDeserializer",
                       Hash([(Sym("id"), Int(1)),
                             (Sym("attributes"), Arr([Hash([(Sym("user"), Int(6)), (Sym("text"), Str("lol"))]),
                                                      Hash([(Sym("user"), Int(6)), (Sym("text"), Str("something"))])]))]), fuel)
         == Success([(Sym("id"), Int(1)),
                     (Sym("attributes"), Arr([Hash([(Sym("user_id"), Int(6)), (Sym("text"), Str("lol"))]),
                                              Hash([(Sym("user_id"), Int(6)), (Sym("text"), Str("something"))])]))])
  {
    var x1 := Hash([(Sym("user"), Int(6)), (Sym("text"), Str("lol"))]);
    var x2 := Hash([(Sym("user"), Int(6)), (Sym("text"), Str("something"))]);
    var params := Hash([(Sym("id"), Int(1)), (Sym("attributes"), Arr([x1, x2]))]);
    AttributeOn(env, x1, fuel - 1, Int(6), Str("lol"));
    AttributeOn(env, x2, fuel - 1, Int(6), Str("something"));
    HasManyOn(env, params, fuel, Int(1), x1, x2,
              [(Sym("user_id"), Int(6)), (Sym("text"), Str("lol"))],
              [(Sym("user_id"), Int(6)), (Sym("text"), Str("something"))]);
  }

  /** `{}` to a has_many deserializer: neither field's key is present. */
  lemma HasManyHandlesNoInput(env: Env, fuel: nat)
    requires Defines(env, "HasManyDeserializer", HasManySchema)
    ensures FromParams(env, "HasManyDeserializer", Hash([]), fuel) == Success([])
  {
    var s := HasManySchema;
    assert ToHash(env, s, s.attrs[0].1, Hash([]), fuel) == Success([]);
    assert ToHash(env, s, s.attrs[1].1, Hash([]), fuel) == Success([]);
    Top(env, "HasManyDeserializer", s, Hash([]), fuel);
    FoldTwo(env, s, Hash([]), fuel, [], []);
    assert |s.attrs| == 2;
  }

  /** `{}` to a has_one deserializer: the value key is absent and the has_one's guard fails. */
  lemma HasOneHandlesNoInput(env: Env, fuel: nat)
    requires Defines(env, "VanillaHasOneDeserializer", VanillaHasOne)
    ensures FromParams(env, "VanillaHasOneDeserializer", Hash([]), fuel) == Success([])
  {
    var s := VanillaHasOne;
    assert ToHash(env, s, s.attrs[0].1, Hash([]), fuel) == Success([]);
    assert ToHash(env, s, s.attrs[1].1, Hash([]), fuel) == Success([]);
    Top(env, "VanillaHasOneDeserializer", s, Hash([]), fuel);
    FoldTwo(env, s, Hash([]), fuel, [], []);
    assert |s.attrs| == 2;
  }

  /** Any input holding `attr_1` and `attr_2`: `name` is read from `:attr_1`. */
  lemma NestedObjectOn(env: Env, params: Value, fuel: nat, x: Value, y: Value)
    requires Defines(env, "NestedObjectDeserializer", NestedObject)
    requires params.Hash? && x != Ignore && y != Ignore
    requires Lookup(params.entries, Sym("attr_1")) == Some(x) && Lookup(params.entries, Sym("attr_2")) == Some(y)
    ensures FromParams(env, "NestedObjectDeserializer", params, fuel) == Success([(Sym("name"), x), (Sym("attr_2"), y)])
  {
    ValueField(env, NestedObject, KeyedVal("name", "attr_1"), params, fuel, x);
    ValueField(env, NestedObject, Val("attr_2"), params, fuel, y);
    Top(env, "NestedObjectDeserializer", NestedObject, params, fuel);
    FoldTwo(env, NestedObject, params, fuel, [(Sym("name"), x)], [(Sym("attr_2"), y)]);
    assert |NestedObject.attrs| == 2;
    assert [(Sym("name"), x)] + [(Sym("attr_2"), y)] == [(Sym("name"), x), (Sym("attr_2"), y)];
  }

  /** `nests` hands the whole input to the inner deserializer and stores its result under the field's name. */
  lemma NestableOn(env: Env, params: Value, fuel: nat, id: Value, a1: Value, inner: Entries)
    requires Defines(env, "NestableDeserializer", Nestable) && fuel >= 1
    requires params.Hash? && id != Ignore && a1 != Ignore
    requires Lookup(params.entries, Sym("id")) == Some(id) && Lookup(params.entries, Sym("attr_1")) == Some(a1)
    requires FromParams(env, "NestedObjectDeserializer", params, fuel - 1) == Success(inner)
    ensures FromParams(env, "NestableDeserializer", params, fuel)
         == Success([(Sym("id"), id), (Sym("attr_1"), a1), (Sym("nested_object"), Hash(inner))])
  {
    var s := Nestable;
    ValueField(env, s, Val("id"), params, fuel, id);
    ValueField(env, s, Val("attr_1"), params, fuel, a1);
    var p0, p1, p2 := [(Sym("id"), id)], [(Sym("attr_1"), a1)], [(Sym("nested_object"), Hash(inner))];
    assert SubFromParams(env, Some("NestedObjectDeserializer"), params, fuel) == Success(inner);
    assert ToHash(env, s, s.attrs[2].1, params, fuel) == Success(p2);
    Top(env, "NestableDeserializer", s, params, fuel);
    FoldThree(env, s, params, fuel, p0, p1, p2);
    NestableMerge(id, a1, Hash(inner));
    assert |s.attrs| == 3;
  }

  lemma NestableMerge(id: Value, a1: Value, n: Value)
    ensures MergeWith(MergeWith(MergeWith([], [(Sym("id"), id)]), [(Sym("attr_1"), a1)]), [(Sym("nested_object"), n)])
         == [(Sym("id"), id), (Sym("attr_1"), a1), (Sym("nested_object"), n)]
  {
    var p0, p1, p2 := [(Sym("id"), id)], [(Sym("attr_1"), a1)], [(Sym("nested_object"), n)];
    MergeWithIntoEmpty(p0);
    MergeWithDisjoint(p0, p1);
    MergeWithDisjoint(p0 + p1, p2);
    assert p0 + p1 + p2 == [(Sym("id"), id), (Sym("attr_1"), a1), (Sym("nested_object"), n)];
  }

  lemma SupportsNested(env: Env, fuel: nat)
    requires Defines(env, "NestableDeserializer", Nestable)
    requires Defines(env, "NestedObjectDeserializer", NestedObject) && fuel >= 1
    ensures FromParams(env, "NestableDeserializer",
                       Hash([(Sym("id"), Int(1)), (Sym("attr_1"), Str("blah")), (Sym("attr_2"), Str("something"))]), fuel)
         == Success([(Sym("id"), Int(1)), (Sym("attr_1"), Str("blah")),
                     (Sym("nested_object"), Hash([(Sym("name"), Str("blah")), (Sym("attr_2"), Str("something"))]))])
  {
    var params := Hash([(Sym("id"), Int(1)), (Sym("attr_1"), Str("blah")), (Sym("attr_2"), Str("something"))]);
    NestedObjectOn(env, params, fuel - 1, Str("blah"), Str("something"));
    NestableOn(env, params, fuel, Int(1), Str("blah"), [(Sym("name"), Str("blah")), (Sym("attr_2"), Str("something"))]);
  }

  /** `{}` to a nesting deserializer still yields the nested key, holding the inner deserializer's `{}`. */
  lemma NestedHandlesNoInput(env: Env, fuel: nat)
    requires Defines(env, "NestableDeserializer", Nestable)
    requires Defines(env, "NestedObjectDeserializer", NestedObject) && fuel >= 1
    ensures FromParams(env, "NestableDeserializer", Hash([]), fuel) == Success([(Sym("nested_object"), Hash([]))])
  {
    var s, n := Nestable, NestedObject;
    assert ToHash(env, n, n.attrs[0].1, Hash([]), fuel - 1) == Success([]);
    assert ToHash(env, n, n.attrs[1].1, Hash([]), fuel - 1) == Success([]);
    Top(env, "NestedObjectDeserializer", n, Hash([]), fuel - 1);
    FoldTwo(env, n, Hash([]), fuel - 1, [], []);
    assert |n.attrs| == 2;
    assert FromParams(env, "NestedObjectDeserializer", Hash([]), fuel - 1) == Success([]);
    assert SubFromParams(env, Some("NestedObjectDeserializer"), Hash([]), fuel) == Success([]);
    var p2 := [(Sym("nested_object"), Hash([]))];
    assert ToHash(env, s, s.attrs[0].1, Hash([]), fuel) == Success([]);
    assert ToHash(env, s, s.attrs[1].1, Hash([]), fuel) == Success([]);
    assert ToHash(env, s, s.attrs[2].1, Hash([]), fuel) == Success(p2);
    Top(env, "NestableDeserializer", s, Hash([]), fuel);
    FoldThree(env, s, Hash([]), fuel, [], [], p2);
    assert |s.attrs| == 3;
  }

  // The class bodies, declared through the DSL.

  /** `attributes :user_id, :text` builds `BasicDeserializer`'s registry; `permitted_params` lists its keys. */
  method DeclareBasic() returns (sch: Schema, ks: seq<Value>)
    ensures sch == Basic
    ensures ks == [Sym("user_id"), Sym("text")]
  {
    var d := new Definition("BasicDeserializer", map[], map[]);
    d.Attributes(["user_id", "text"]);
    RegisterAllFresh(["user_id", "text"]);
    sch := d.AsSchema();
    ks := d.PermittedParams();
  }

  /** `attribute :user_id, key: :user` then `attribute :text`: the keys are the input keys. */
  method DeclareAttribute() returns (sch: Schema, ks: seq<Value>)
    ensures sch == AttributeSchema
    ensures ks == [Sym("user"), Sym("text")]
  {
    var d := new Definition("AttributeDeserializer", map[], map[]);
    d.Attribute("user_id", NoOpts.(key := Some(Sym("user"))));
    assert d.attrs == [Entry(KeyedVal("user_id", "user"))];
    d.Attribute("text", NoOpts);
    PutAppends([Entry(KeyedVal("user_id", "user"))], Sym("text"), Val("text"));
    sch := d.AsSchema();
    ks := d.PermittedParams();
  }

  /** The class body of `VanillaHasOneDeserializer` builds the schema the has_one tests use. */
  method DeclareVanillaHasOne() returns (sch: Schema, ks: seq<Value>, r: Outcome<Error>)
    ensures sch == VanillaHasOne
    ensures ks == [Sym("external"), Sym("params")] && r == Pass
  {
    var d := new Definition("VanillaHasOneDeserializer", map[], map[]);
    d.Attribute("internal", NoOpts.(key := Some(Sym("external"))));
    assert d.attrs == [Entry(KeyedVal("internal", "external"))];
    r := d.HasOne("params", NoOpts.(deserializer := Some("BasicDeserializer")));
    PutAppends([Entry(KeyedVal("internal", "external"))], Sym("params"), One("params", "BasicDeserializer"));
    sch := d.AsSchema();
    ks := d.PermittedParams();
  }

  /**
   * `has_one`, `nests` and `has_many` without a deserializer, and any
   * `belongs_to`, raise on `BasicDeserializer` and leave its fields as they were.
   */
  method AssociationsNeedDeserializer() returns (one: Outcome<Error>, nested: Outcome<Error>,
                                                 many: Outcome<Error>, belongs: Outcome<Error>, sch: Schema, ks: seq<Value>)
    ensures one == Fail(DeserializerError("BasicDeserializer", "has_one associations need a deserilaizer"))
    ensures nested == Fail(DeserializerError("BasicDeserializer", "nested associations need a deserilaizer"))
    ensures many == Fail(DeserializerError("BasicDeserializer", "has_many associations need a deserilaizer"))
    ensures belongs == Fail(DeserializerError("BasicDeserializer", "belongs_to is unsupported."))
    ensures sch == Basic && ks == [Sym("user_id"), Sym("text")]
  {
    var d := new Definition("BasicDeserializer", map[], map[]);
    d.Attributes(["user_id", "text"]);
    RegisterAllFresh(["user_id", "text"]);
    one := d.HasOne("splosion", NoOpts);
    belongs := d.BelongsTo([Sym("explody")]);
    nested := d.Nests("splosion", NoOpts);
    many := d.HasMany("splosions", NoOpts);
    sch := d.AsSchema();
    ks := d.PermittedParams();
  }
}
