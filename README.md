# deserializer: a verified model

A model of the core of the Ruby gem `deserializer`. The gem turns an incoming params hash into the hash a model expects. A deserializer class declares its fields with a small class-level DSL: `attribute`, `attributes`, `has_one`, `has_many`, `nests` and `belongs_to`. The declarations build an insertion-ordered registry, `__attrs`. `from_params` then walks that registry in declaration order. Each field's typed resolver produces a partial hash, and every partial hash is merged into the result. When two fields write the same key, two hashes are combined one level deep; otherwise the later value wins. `Deserializer::JsonApi` first unwraps a JSON:API document envelope.

The model is organised as follows:

- `wrappers.dfy`: `Option`, `Result` and `Outcome`.
- `ordered_maps.dfy`: Ruby's insertion-ordered `Hash`. A stored key keeps its position, a new key is appended, and `merge` stores pair by pair.
- `values.dfy`: the open value type of params and results (nil, booleans, integers, strings, symbols, arrays, hashes), Ruby truthiness, and the errors.
- `fields.dfy`: field specifications (`Attribute::Attribute`) and the class registry with its declaration operations.
- `merging.dfy`: the `merge!` with its collision block, as `Base#deserialize` uses it.
- `engine.dfy`: `from_params`, the ordered fold of `deserialize`, and the resolvers of value attributes and of has_one, has_many and nested associations. These are mutually recursive functions.
- `attributable.dfy`: the DSL, as a class `Definition` whose methods reassign the registry.
- `instance.dfy`: a deserializer instance, as a class `Deserializer`. Its loop-based `deserialize` and the loop of `HasManyAssociation#value` are methods proved equal to the engine's functions.
- `json_api.dfy`: `JsonApi.from_params`.
- `value_attribute_facts.dfy`, `association_facts.dfy`, `deserialize_facts.dfy`, `fuel_facts.dfy`: properties of the resolvers, of the fold and of the nesting bound.
- `scenarios.dfy`: the test suite's deserializer classes as schemas, with the outcomes the tests expect proved of the model.

Modelling choices:

- **Keys.** Symbols are `Sym(name)`. A Ruby hash is an association list with unique keys.
- **User-defined methods.** A class's user-defined zero-argument methods (the has_one target overrides, such as `def thing; :user_info; end`) are a map from method name to returned value. Its converter methods are a map from name to function.
- **The instance's `object`.** `deserialize` accumulates into a local variable named `object`, so the instance's `object` stays the `{}` set by `initialize`. An override "returning `object`" is therefore the value `{}`.
- **Nesting depth.** Every nested `from_params` spends one unit of `fuel`. Running out of fuel stands for Ruby's `SystemStackError`, which a self-nesting class would hit.
- **Errors.** Errors are values of a datatype:
  - `DeserializerError(class, message)`, with the gem's exact messages (including its spelling "deserilaizer");
  - `UnsupportedOperation(op)`, for the `NoMethodError`/`TypeError` Ruby raises when a hash operation meets a non-hash (for example `nil.each` in a has_many);
  - `NameError` for an unknown sub-deserializer class;
  - `SystemStackError`.

## Model

| member | source | states |
|---|---|---|
| OrderedMaps.Keys | lib/deserializer/base.rb:17-19 | `Hash#keys`: one key per pair, in iteration order |
| OrderedMaps.Lookup | lib/deserializer/attribute/base.rb:21-24 | `h[k]`/`has_key?`: no value exactly when the key is absent |
| OrderedMaps.Put | lib/deserializer/attributable.rb:18 | `h.merge(k => v)` grows the hash only when `k` is new |
| OrderedMaps.PutKeys | lib/deserializer/attributable.rb:18 | storing keeps the existing key order, and a new key goes last |
| OrderedMaps.PutLookup | lib/deserializer/attributable.rb:18 | after storing, `k` gives `v` and every other key is unchanged |
| OrderedMaps.PutAppends | lib/deserializer/attributable.rb:18 | storing an absent key appends its pair at the end |
| OrderedMaps.PutUnique | lib/deserializer/attributable.rb:18 | storing never creates a duplicate key |
| OrderedMaps.MergeLookup | lib/deserializer/base.rb:33 | `a.merge(b)`: keys of `b` take `b`'s value, others keep `a`'s |
| OrderedMaps.MergeUnique | lib/deserializer/base.rb:33 | `a.merge(b)` never creates a duplicate key |
| Schemas.RegisterLookup | lib/deserializer/attributable.rb:16-19 | a declaration adds or replaces exactly the entry under `attribute.key`; all other entries are unchanged |
| Schemas.RegisterOrder | lib/deserializer/attributable.rb:16-19 | re-declaring an existing key keeps its position; a new key is appended to `permitted_params` |
| Schemas.RegisterWellFormed | lib/deserializer/attributable.rb:21-28 | an accepted declaration keeps the registry keyed by `attribute.key`, duplicate-free and with a deserializer on every association |
| Schemas.LookupUnique | lib/deserializer/attribute/base.rb:21-24 | in a hash without duplicates, the key of pair `i` finds pair `i`'s value |
| Schemas.LookupFound | lib/deserializer/attribute/base.rb:21-24 | a found value comes from a pair of the hash |
| Schemas.RegisterAllFresh | lib/deserializer/attributable.rb:9-14 | `attributes(a, b, ...)` with distinct names registers exactly those names, in argument order, as value attributes with `{}` options |
| Merging.MergeWithLookup | lib/deserializer/base.rb:29-37 | after `merge!` with the block, a colliding key holds the block's result, a new key holds the partial hash's value, and other keys are unchanged |
| Merging.MergeWithHasKey | lib/deserializer/base.rb:29-37 | the merged keys are exactly the accumulator's keys plus the partial hash's keys |
| Merging.MergeWithUnique | lib/deserializer/base.rb:29-37 | the merge never creates a duplicate key |
| Merging.MergeWithIntoEmpty | lib/deserializer/base.rb:26-30 | merging into the fresh `{}` gives the partial hash unchanged |
| Merging.MergeDisjoint | lib/deserializer/base.rb:33 | `old.merge(new)` without shared keys appends `new`'s pairs after `old`'s |
| Merging.MergeWithDisjoint | lib/deserializer/base.rb:29-37 | a partial hash whose keys are all new is appended in order |
| Merging.CollidingHashesCombine | lib/deserializer/base.rb:32-33 | two hashes under one key become `old.merge(new)`: keys of both, and the newer value wins inside |
| Merging.CollisionOtherwiseReplaces | lib/deserializer/base.rb:34-35 | when either side of a collision is not a hash, the new value replaces the old |
| Merging.HashesMergeExample | lib/deserializer/base.rb:32-33 | `{a: {x: 1}}` then `{a: {y: 2}}` gives `{a: {x: 1, y: 2}}` |
| Merging.MergeIsOneLevelDeep | lib/deserializer/base.rb:32-33 | the combination is not recursive: inner hashes under a shared inner key are replaced, not merged |
| OrderedMaps.Merge | lib/deserializer/base.rb:33 | Ruby's `old.merge(new)`: `MergeLookup` states that `new`'s keys take `new`'s values and the rest keep `old`'s, `MergeUnique` that no key is duplicated, `Merging.MergeDisjoint` that disjoint hashes are concatenated |
| Fields.Attribute.Key | lib/deserializer/attribute/attribute.rb:10-12 | `opts.fetch :key, name`: the registry key of a declaration (`Schemas.RegisterLookup`), the key `permitted_params` reports (`Attributable.Definition.PermittedParams`) and the input key every resolver reads (`ValueAttributeFacts.ReadUnderKeyWrittenUnderName`, `AssociationFacts.HasOneDefaultTarget`) |
| Schemas.Register | lib/deserializer/attributable.rb:18 | `__attrs.merge attribute.key => attribute`: `RegisterLookup` states it changes only the entry under the key, `RegisterOrder` that a re-declaration keeps its slot and a new key goes last, `RegisterWellFormed` that it keeps the registry well formed |
| Schemas.RegisterAll | lib/deserializer/attributable.rb:9-14 | `attributes(*names)`: `RegisterAllFresh` states that distinct new names are registered in argument order as value attributes with `{}` options; `Attributable.Definition.Attributes` is its loop |
| Schemas.PermittedParams | lib/deserializer/base.rb:17-19 | `__attrs.keys`: `RegisterOrder` states how each declaration extends it; `Attributable.Definition.PermittedParams` states it is the input keys in declaration order |
| Merging.Resolve | lib/deserializer/base.rb:30-37 | the collision block: `CollidingHashesCombine` states that two hashes become `old.merge(new)`, `CollisionOtherwiseReplaces` that anything else takes the new value, `MergeIsOneLevelDeep` that inner hashes are not merged |
| Merging.MergeWith | lib/deserializer/base.rb:30-37 | `object.merge!(part) { ... }`: `MergeWithLookup` states the value of every key afterwards, `MergeWithHasKey` the key set, `MergeWithUnique` duplicate-freeness, `MergeWithDisjoint` and `MergeWithIntoEmpty` that new keys are appended in order |
| Engine.IsEmpty | lib/deserializer/attribute/value_attribute.rb:25-30 | `empty?`: nil, false, `""`, `{}` and `[]`; `ValueAttributeFacts.IgnoreEmptyDropsExactlyEmpty` states that under `ignore_empty` a present field is dropped if and only if its value is empty, `IgnoreEmptyDropsEmpty` the drop for each of the five, `NonEmptyKeptUnderIgnoreEmpty` that any other value is written, and `Scenarios.IgnoreEmptyOption` shows both on concrete input |
| Engine.ValueOf | lib/deserializer/attribute/value_attribute.rb:5-21 | `ValueAttribute#value`: `ValueAttributeFacts.IgnoreEmptyDropsEmpty` (empty check first, before any converter), `ConverterApplied` (a defined converter's result is written), `RawValueKept` and `MissingConverterKeepsRaw` (the raw value when no defined converter applies), `NonEmptyKeptUnderIgnoreEmpty` and `MissingConverterWritesRaw` (that raw value written under `name`); the three cases cover every input |
| Engine.Tuple | lib/deserializer/attribute/base.rb:35-42 | `tuple`: `ValueAttributeFacts.IgnoredValueDropped` states that a resolved value equal to `:ignore` gives `{}`, `ResolvedValueKept` that any other resolved value gives exactly `{name => value}`, whatever the options |
| Engine.ValueToHash | lib/deserializer/attribute/base.rb:21-24 | `to_hash` of a value attribute: `ValueAttributeFacts.AbsentKeyContributesNothing` states the presence guard, `ReadUnderKeyWrittenUnderName` that the result holds at most one pair under `name` and depends only on the input under `key` |
| Engine.HasOneTarget | lib/deserializer/attribute/has_one_association.rb:9-31 | the target resolution: `AssociationFacts.HasOneDefaultTarget` (no method: under `key`), `HasOneFlattens` (a method returning `object`: the sub-result itself), `HasOneAliasTarget` (any other value: under that value) |
| Engine.HasOneToHash | lib/deserializer/attribute/has_one_association.rb:5-32 | `HasOneAssociation#to_hash`: `AssociationFacts.HasOneNeedsTruthyInput` states the guard on `params[name]`, `HasOneKeyMismatchRaises` that `params[key]` is what the sub-deserializer receives, and the three target lemmas where the result goes |
| Engine.Each | lib/deserializer/attribute/has_many_association.rb:7 | what `params[key].each` yields: an array's elements, a hash's pairs, and an error on anything else (`nil.each` included); `AssociationFacts.HasManyWritesList` states the array case |
| Engine.DeserializeEach | lib/deserializer/attribute/has_many_association.rb:6-10 | the `each` loop's sub-results: `AssociationFacts.DeserializeEachElementwise` states one sub-result per item in order, exactly when every item succeeds, `DeserializeEachFirstFailure` that the first failing item's error is raised |
| Engine.HasManyValue | lib/deserializer/attribute/has_many_association.rb:5-11 | `HasManyAssociation#value`: `Instance.HasManyValue`, the `target <<` loop, is proved equal to it |
| Engine.HasManyToHash | lib/deserializer/attribute/base.rb:21-24 | `to_hash` of a has_many: `ValueAttributeFacts.AbsentKeyContributesNothing` states the presence guard, `AssociationFacts.HasManyWritesList` and `HasManyEmptyList` that the list is written under `name`, `HasManyNilItemRaises` that a nil item raises |
| Engine.NestedToHash | lib/deserializer/attribute/nested_association.rb:5-7 | `NestedAssociation#to_hash`: `AssociationFacts.NestedSeesWholeInput` states that the whole input is deserialized and written under `name`, with no guard |
| Engine.ToHash | lib/deserializer/attribute/attribute.rb:14-17 | `Attribute#to_hash`: the typed resolver of the field's kind; `Instance.Deserializer.ResolveField` is proved equal to it, `DeserializeFacts.ToHashUnique` and `ToHashKeys` state that its result is duplicate-free and, unless a has_one flattens, at most one pair under the field's declared output key |
| JsonApi.FromParams | lib/deserializer/json_api.rb:5-14 | `JsonApi.from_params`: `DataHashHandled` states what is yielded and deserialized, `MissingDataIsEmpty` the `\|\| {}` default, `MissingAttributesRaise` the nil case, `YieldIndependentOfDeserialization` when the block is called, `OnlyAttributesMatter` and `MalformedDocumentRaises` the rest |
| Attributable.Definition.AsSchema | lib/deserializer/base.rb:29 | the class's registry, with its fixed overrides and converters, as `deserialize` reads it through `self.class.__attrs`; `Scenarios.DeclareBasic`, `DeclareAttribute`, `DeclareVanillaHasOne` and `AssociationsNeedDeserializer` state that the DSL builds exactly the schemas the other scenarios evaluate |
| Engine.Fold | lib/deserializer/base.rb:29-38 | the accumulated result after any prefix of the fields is a hash without duplicate keys |
| Engine.Deserialize | lib/deserializer/base.rb:24-40 | `deserialize` returns a hash without duplicate keys |
| Engine.FromParams | lib/deserializer/base.rb:13-15 | `from_params` returns a hash without duplicate keys |
| Engine.SubFromParams | lib/deserializer/attribute/has_one_association.rb:7 | a nested `deserializer.from_params` returns a hash without duplicate keys |
| ValueAttributeFacts.AbsentKeyContributesNothing | lib/deserializer/attribute/base.rb:21-24 | a value or has_many field whose key is not in `params` contributes `{}` |
| ValueAttributeFacts.PresentValueCopied | lib/deserializer/attribute/value_attribute.rb:5-21 | without `ignore_empty` or `convert_with`, a present key gives `{name => params[key]}`, nil and false included |
| ValueAttributeFacts.IgnoreEmptyDropsEmpty | lib/deserializer/attribute/value_attribute.rb:8-10 | with `ignore_empty`, nil, false, `""`, `{}` and `[]` are dropped |
| ValueAttributeFacts.ConverterApplied | lib/deserializer/attribute/value_attribute.rb:12-16 | a `convert_with` method the class defines is applied to the raw value, and its result is written |
| ValueAttributeFacts.MissingConverterKeepsRaw | lib/deserializer/attribute/value_attribute.rb:12-20 | a `convert_with` naming a method the class lacks leaves the raw value |
| ValueAttributeFacts.LiteralIgnoreDropped | lib/deserializer/attribute/base.rb:35-42 | for a field without `convert_with`, a raw value that is the symbol `:ignore` is dropped as well |
| ValueAttributeFacts.IgnoredValueDropped | lib/deserializer/attribute/base.rb:35-42 | any resolved value equal to `:ignore`, from the input or from a converter, drops the field |
| ValueAttributeFacts.ConverterIgnoreDropped | lib/deserializer/attribute/value_attribute.rb:12-16 | a converter that returns `:ignore` drops the field |
| ValueAttributeFacts.RawValueKept | lib/deserializer/attribute/value_attribute.rb:5-21 | when no converter the class defines is named and the value is not dropped as empty, `value` is the raw input under `key` |
| ValueAttributeFacts.ResolvedValueKept | lib/deserializer/attribute/base.rb:35-42 | a present field whose resolved value is not `:ignore` gives exactly `{name => value}`, with any options |
| ValueAttributeFacts.NonEmptyKeptUnderIgnoreEmpty | lib/deserializer/attribute/value_attribute.rb:5-21 | without `convert_with`, a present non-empty value is written under `name` as sent, with `ignore_empty` on or off |
| ValueAttributeFacts.IgnoreEmptyDropsExactlyEmpty | lib/deserializer/attribute/value_attribute.rb:8-10 | under `ignore_empty` and without `convert_with`, a present field is dropped if and only if its value is empty |
| ValueAttributeFacts.MissingConverterWritesRaw | lib/deserializer/attribute/value_attribute.rb:12-20 | a `convert_with` naming a method the class lacks writes the raw value under `name` |
| ValueAttributeFacts.ReadUnderKeyWrittenUnderName | lib/deserializer/attribute/base.rb:31-42 | a value field writes at most one pair, always under `name`, and depends only on the input under `key` |
| AssociationFacts.HasOneNeedsTruthyInput | lib/deserializer/attribute/has_one_association.rb:6 | a has_one whose `params[name]` is absent, nil or false contributes `{}` |
| AssociationFacts.HasOneDefaultTarget | lib/deserializer/attribute/has_one_association.rb:29-30 | with no method of that name, the sub-result of `params[key]` is written under `key` |
| AssociationFacts.HasOneFlattens | lib/deserializer/attribute/has_one_association.rb:18-19 | an override returning the instance's `object` returns the sub-result itself, at the top level |
| AssociationFacts.HasOneAliasTarget | lib/deserializer/attribute/has_one_association.rb:26-27 | any other override value `t` gives `{t => sub_result}` |
| AssociationFacts.HasOneKeyMismatchRaises | lib/deserializer/attribute/has_one_association.rb:6-7 | with `key` different from `name`, a truthy `params[name]` and no `params[key]`, the nested `from_params(nil)` raises |
| AssociationFacts.DeserializeEachElementwise | lib/deserializer/attribute/has_many_association.rb:6-10 | the list exists exactly when every item deserializes; then it has one sub-result per item, in item order |
| AssociationFacts.DeserializeEachFirstFailure | lib/deserializer/attribute/has_many_association.rb:7-8 | a has_many raises the error of its first failing item |
| AssociationFacts.HasManyWritesList | lib/deserializer/attribute/has_many_association.rb:5-11 | a has_many over a list writes exactly `{name => [sub-results in order]}` |
| AssociationFacts.HasManyEmptyList | lib/deserializer/attribute/has_many_association.rb:5-11 | an empty list gives `{name => []}` and is not dropped |
| AssociationFacts.HasManyNilItemRaises | lib/deserializer/attribute/has_many_association.rb:8 | a nil item makes the item's `from_params` raise, and the has_many with it |
| AssociationFacts.NestedSeesWholeInput | lib/deserializer/attribute/nested_association.rb:5-7 | `nests` has no presence guard: the whole input goes to the sub-deserializer, and its result is written under `name` |
| DeserializeFacts.NilParamsRaise | lib/deserializer/base.rb:47-50 | nil (or false) params raise `DeserializerError` for the class, with "params cannot be nil" |
| DeserializeFacts.EmptyParamsAccepted | lib/deserializer/base.rb:47-54 | `{}` is accepted by any class of a well-formed environment; the only possible failure is exhausting the nesting depth |
| DeserializeFacts.EmptyParamsFold | lib/deserializer/base.rb:29-38 | every prefix of the fold over `{}` succeeds or exhausts the nesting depth |
| DeserializeFacts.ToHashUnique | lib/deserializer/attribute/attribute.rb:14-17 | every partial hash is a hash without duplicate keys |
| DeserializeFacts.SingleFieldSchema | lib/deserializer/base.rb:24-40 | a one-field class deserializes to exactly that field's partial hash |
| DeserializeFacts.FieldMergedAfterEarlierOnes | lib/deserializer/base.rb:29-37 | fields are folded in declaration order: on a key that field `n` writes, the result holds the collision of the earlier value with field `n`'s value |
| DeserializeFacts.ToHashKeys | lib/deserializer/attribute/base.rb:35-42 | a field that does not flatten writes at most one pair, under its declared key |
| DeserializeFacts.FoldKeys | lib/deserializer/base.rb:29-38 | every output key of the result comes from some field: it is that field's declared output key (its `name`, its has_one key or target), or a key of a flattened has_one's sub-result |
| DeserializeFacts.UndeclaredKeysDropped | lib/deserializer/base.rb:24-40 | a key that no field produces as an output key (and that no flattened has_one's sub-result holds) never appears in the result; an input key that is nobody's output key is dropped |
| DeserializeFacts.FoldAbortsOnFailure | lib/deserializer/base.rb:29-38 | a field that raises aborts the whole deserialization with its error |
| DeserializeFacts.FoldOfParts | lib/deserializer/base.rb:26-39 | when every field succeeds, the result is the left-to-right `merge!` of the partial hashes, starting from `{}` |
| FuelFacts.FromParamsMonotone | lib/deserializer/base.rb:13-15 | any `from_params` result other than a stack overflow is unchanged under a larger nesting bound |
| FuelFacts.SubFromParamsMonotone | lib/deserializer/attribute/has_one_association.rb:7 | the same for a nested `from_params` |
| FuelFacts.FoldMonotone | lib/deserializer/base.rb:29-38 | the same for the fold over the fields |
| FuelFacts.ToHashMonotone | lib/deserializer/attribute/attribute.rb:14-17 | the same for one field's partial hash |
| FuelFacts.HasManyValueMonotone | lib/deserializer/attribute/has_many_association.rb:5-11 | the same for a has_many's list |
| FuelFacts.DeserializeEachMonotone | lib/deserializer/attribute/has_many_association.rb:6-10 | the same for the items of a has_many |
| Attributable.Definition.constructor | lib/deserializer/base.rb:7-8 | a new class starts with the empty registry |
| Attributable.Definition.PermittedParams | lib/deserializer/base.rb:17-19 | `permitted_params` is exactly the registry's input keys (`attribute.key`), in declaration order |
| Attributable.Definition.Attribute | lib/deserializer/attributable.rb:16-19 | `attribute(name, opts)` stores a value attribute under its key |
| Attributable.Definition.Attributes | lib/deserializer/attributable.rb:9-14 | `attributes(*names)` registers each name in turn, in argument order, with `{}` options |
| Attributable.Definition.HasOne | lib/deserializer/attributable.rb:21-28 | without `deserializer:` it raises "has_one associations need a deserilaizer" and leaves the registry unchanged; otherwise it stores a has_one under its key |
| Attributable.Definition.HasMany | lib/deserializer/attributable.rb:30-37 | the same for has_many, with its message |
| Attributable.Definition.Nests | lib/deserializer/attributable.rb:43-50 | the same for nests, with its message |
| Attributable.Definition.BelongsTo | lib/deserializer/attributable.rb:39-41 | `belongs_to` raises whatever its arguments and leaves the registry unchanged |
| Instance.Deserializer.constructor | lib/deserializer/base.rb:47-54 | `initialize` past its nil check stores the params and sets `object` to `{}` |
| Instance.Deserializer.Deserialize | lib/deserializer/base.rb:24-40 | the loop over the registry, merging each partial hash into a local accumulator, returns the engine's `deserialize` result and leaves `object` at `{}` |
| Instance.Deserializer.ResolveField | lib/deserializer/attribute/attribute.rb:14-17 | `attr.to_hash(params, self)` is the field's typed resolver applied to this instance's params |
| Instance.FromParams | lib/deserializer/base.rb:13-15 | `new(params).deserialize`, raising first on nil params, is the engine's `from_params` |
| Instance.HasManyValue | lib/deserializer/attribute/has_many_association.rb:5-11 | the `target <<` loop over `params[key].each` is the engine's ordered list of sub-results |
| JsonApi.DataParams | lib/deserializer/json_api.rb:6 | `params[:data] \|\| {}` fails exactly when the document or a truthy `data` is not a hash |
| JsonApi.DataHashHandled | lib/deserializer/json_api.rb:5-14 | with a hash `data`, the block receives `data[:id]` and `data[:type]`, and `data[:attributes]` is deserialized with the class |
| JsonApi.MissingDataIsEmpty | lib/deserializer/json_api.rb:6 | a missing, nil or false `data` behaves exactly like `data: {}` |
| JsonApi.MissingAttributesRaise | lib/deserializer/json_api.rb:13 | a missing `attributes` (or a missing `data`) leads to `from_params(nil)`, which raises |
| JsonApi.YieldIndependentOfDeserialization | lib/deserializer/json_api.rb:7-10 | the block is called whenever one is given, before and independently of the deserialization |
| JsonApi.OnlyAttributesMatter | lib/deserializer/json_api.rb:13 | only `data[:attributes]` reaches the class's schema |
| JsonApi.MalformedDocumentRaises | lib/deserializer/json_api.rb:6-8 | a document or `data` that is not a hash raises before the block is called |
| Scenarios.EnvDefinesAll | test/lib/deserializers.rb:1-83 | the test suite's classes, with their fields and methods |
| Scenarios.NoNilParams | test/unit/deserializer_test.rb:13-17 | `BasicDeserializer.from_params(nil)` raises `DeserializerError` |
| Scenarios.PermittedParamsInOrder | test/unit/deserializer_test.rb:23-25 | `permitted_params` are `[:user_id, :text]` and, with `key: :user`, `[:user, :text]` |
| Scenarios.BasicOn | test/lib/deserializers.rb:1-4 | any input holding `user_id` and `text` gives exactly those two, in declaration order |
| Scenarios.BasicFromParams | test/unit/deserializer_test.rb:19-21 | the test params give `{user_id: 6, text: "text"}`; the undeclared key is dropped |
| Scenarios.FalseAndNilKept | test/unit/deserializer_test.rb:27-33 | `user_id: nil, text: false` are copied, not dropped |
| Scenarios.AttributeOn | test/lib/deserializers.rb:6-9 | `user_id` is read from `:user` and written under `:user_id` |
| Scenarios.AttributeWithKey | test/unit/deserializer_test.rb:39-45 | `AttributeDeserializer` gives `{user_id: 6, text: "text"}` |
| Scenarios.VanillaHasOneOn | test/lib/deserializers.rb:11-16 | `has_one :params` without a method of that name writes under `:params` |
| Scenarios.HasOne | test/unit/deserializer_test.rb:75-79 | the has_one test's expected hash |
| Scenarios.HasOneWithTargetOn | test/lib/deserializers.rb:26-34 | `def thing; :user_info; end` sends the sub-result to `:user_info` |
| Scenarios.TricksyOn | test/lib/deserializers.rb:41-55 | both has_ones aimed at `:user_info` are merged there |
| Scenarios.ExtraTricksyOn | test/lib/deserializers.rb:57-67 | a has_one aimed at another's key is merged into it |
| Scenarios.ObjectTargetOn | test/lib/deserializers.rb:69-83 | has_ones returning `object` are flattened into the top level |
| Scenarios.OtherThingOn | test/lib/deserializers.rb:36-39 | any input holding `attr1` and `attr2` gives exactly those |
| Scenarios.ThingParamsSubResults | test/unit/deserializer_test.rb:87-111 | the sub-deserializers turn the test's `thing` and `other_thing` into the expected inner hashes |
| Scenarios.BasicOtherDisjoint | test/unit/deserializer_test.rb:93-97 | the two sub-results share no key, so merging them concatenates them |
| Scenarios.HasOneWithKeyTarget | test/unit/deserializer_test.rb:87-91 | the expected `{internal: ..., user_info: {...}}` |
| Scenarios.CombineTwoHasOnesIntoThirdKey | test/unit/deserializer_test.rb:93-97 | the expected hash, both sub-results merged under `:user_info` |
| Scenarios.MergeHasOneIntoAnother | test/unit/deserializer_test.rb:100-104 | the expected hash, `other_thing`'s result merged into `:thing` |
| Scenarios.MergeHasOneIntoObject | test/unit/deserializer_test.rb:107-111 | the expected hash, both sub-results flattened into the top level |
| Scenarios.EmptiableSingleKey | test/lib/deserializers.rb:18-24 | one declared key alone: dropped exactly when its field sets `ignore_empty` and the value is empty |
| Scenarios.EmptiableUndeclaredKey | test/lib/deserializers.rb:18-24 | a key no field reads gives `{}` |
| Scenarios.IgnoreEmptyOption | test/unit/deserializer_test.rb:47-57 | `true` passes both fields; each empty value is dropped by `emptiable` and kept by `nonemptiable` |
| Scenarios.IgnoreEmptyWithKey | test/unit/deserializer_test.rb:59-69 | the same when the input keys are aliased with `key:` |
| Scenarios.HasManyOn | test/unit/deserializer_test.rb:159-164 | `id` copied, `attributes` deserialized item by item in order |
| Scenarios.SupportsHasMany | test/unit/deserializer_test.rb:159-164 | the has_many test's expected hash |
| Scenarios.HasManyHandlesNoInput | test/unit/deserializer_test.rb:166-168 | `{}` gives `{}` for a has_many class |
| Scenarios.HasOneHandlesNoInput | test/unit/deserializer_test.rb:170-172 | `{}` gives `{}` for a has_one class |
| Scenarios.NestedObjectOn | test/unit/deserializer_test.rb:146-151 | the inner class reads `name` from `:attr_1` and copies `attr_2` |
| Scenarios.NestableOn | test/unit/deserializer_test.rb:146-151 | the whole input goes to the inner class; `attr_1` is seen by both the outer and the inner class |
| Scenarios.SupportsNested | test/unit/deserializer_test.rb:146-151 | the nested test's expected hash |
| Scenarios.NestedHandlesNoInput | test/unit/deserializer_test.rb:174-176 | `{}` gives `{nested_object: {}}` |
| Scenarios.DeclareBasic | test/unit/deserializer_test.rb:23-25 | `attributes :user_id, :text` builds `BasicDeserializer`'s schema, `Basic`, and its `permitted_params` are `[:user_id, :text]` |
| Scenarios.DeclareAttribute | test/unit/deserializer_test.rb:35-37 | `attribute :user_id, key: :user` then `attribute :text` builds `AttributeDeserializer`'s schema, `AttributeSchema`, with `permitted_params` `[:user, :text]` |
| Scenarios.DeclareVanillaHasOne | test/lib/deserializers.rb:11-16 | the class body builds the has_one class's schema, `VanillaHasOne`, and the has_one is accepted |
| Scenarios.AssociationsNeedDeserializer | test/unit/deserializer_test.rb:81-85 | has_one, nests and has_many without a deserializer, and belongs_to, raise with their messages, and the schema is still `Basic` |

## Left out

- Ruby reflection: `respond_to?` and `send` are not modelled. A class's zero-argument methods are constant values in a map, and its converters are functions in a map. A method whose result depends on the instance's state other than `object` cannot be expressed.
- `respond_to?` ignores protected methods, so the `params` accessor never counts as a has_one target override. It does see every public method a class inherits: `object` (`lib/deserializer/base.rb:22`), `deserialize` and `Object`'s own methods such as `hash`, so `has_one :object` would find its target equal to `object` and flatten its value into the result (`lib/deserializer/attribute/has_one_association.rb:9-19`). In the model only the methods in a class's override map count, and a has_one named after an inherited method is written under its key like any other.
- ActiveSupport `Concern` and `class_attribute` inheritance are not modelled. Each class's registry starts empty, as `Base`'s does.
- `lib/deserializer/associatable.rb` is an earlier registry that nothing includes, so it is not modelled. The autoload files `lib/deserializer.rb` and `lib/deserializer/attribute.rb` are plumbing and are not modelled either.
- `DeserializerError`'s message formatting (`"Klass: msg"`) is not modelled. An error carries the class name and the message as separate fields.
- Deserializer classes are referred to by name, so an unknown class name is a `NameError` value. The gem passes the class object itself.
- Engine.SubFromParams: a nested `deserializer.from_params(...)` always runs `Base.from_params` on the raw input. When the sub-deserializer is a `Deserializer::JsonApi` subclass, Ruby dispatches to the JSON:API override instead, which first unwraps `data` and `attributes`; nested JSON:API deserializers are not modelled.
- The nesting depth of `from_params` is bounded by `fuel` instead of Ruby's stack. `FuelFacts` shows that any result other than the bound's `SystemStackError` is the same under every larger bound.
- Field names are always symbols: `Fields.Attribute` holds the name as a string and the registry key and result key are `Sym(name)`. A declaration with a string name, such as `attribute "x"`, which Ruby would register and write under the string, cannot be expressed.
- Indexing arrays, strings or integers with a symbol is not modelled. Ruby's `Array#[]`, `String#[]` and `Integer#[]` raise there or return bits. Every operation on a non-hash is modelled as one `UnsupportedOperation` error.
- The converter methods of the conversion tests (`test/unit/deserializer_test.rb:119-138`) are not part of this model. Their class definitions are not in the test classes file. Converters in general are arbitrary functions, whose effect is stated by `ValueAttributeFacts.ConverterApplied` and by `MissingConverterKeepsRaw`.
- `HasManyDeserializer`, `NestableDeserializer` and its inner deserializer are used by the tests but defined nowhere in the test classes file. The scenarios declare them as the expected outputs imply.
- The block given to `JsonApi.from_params` is not called. The model records the `(id, type)` pair it would receive, and the block's own effects are outside the model.
- The other `from_params` defaults (`params = {}` when called without an argument) are not modelled, because every call in the model passes its params explicitly.
- The has_one guard reads `params[name]` but the sub-deserializer receives `params[key]`. This is modelled as written (`AssociationFacts.HasOneKeyMismatchRaises`). The collision block merges one level only, and so does the model (`Merging.MergeIsOneLevelDeep`).
- Engine.Fold: its own contract states only that the result has unique keys. What each step computes is stated by `DeserializeFacts.FieldMergedAfterEarlierOnes`, `FoldOfParts` and `FoldKeys`, and by `Instance.Deserializer.Deserialize`.
