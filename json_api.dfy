/**
 * `JsonApi.from_params`: the JSON:API document envelope. It reads `data`
 * (falling back to `{}`), yields `data.id` and `data.type` to the caller's
 * block when one is given, then deserializes only `data.attributes` with the
 * ordinary `from_params` of the same class. Relationships and links are ignored.
 */
module JsonApi {
  import opened Wrappers
  import opened OrderedMaps
  import opened Values
  import opened Errors
  import opened Schemas
  import Engine

  /** What one call does: the pair handed to the block (if any), and the deserialized hash or error. */
  datatype Call = Call(yielded: Option<(Value, Value)>, result: Res<Entries>)

  const DataKey: Value := Sym("data")
  const IdKey: Value := Sym("id")
  const TypeKey: Value := Sym("type")
  const AttributesKey: Value := Sym("attributes")

  /** `params[:data] || {}`; indexing something that is not a hash raises. */
  function DataParams(params: Value): (r: Res<Entries>)
    ensures r.Failure? <==> !params.Hash? || (Truthy(Get(params.entries, DataKey)) && !Get(params.entries, DataKey).Hash?)
    ensures r.Failure? ==> r.error == UnsupportedOperation("[]")
  {
    if !params.Hash? then Failure(UnsupportedOperation("[]"))
    else
      var data := Get(params.entries, DataKey);
      if !Truthy(data) then Success([])
      else if data.Hash? then Success(data.entries)
      else Failure(UnsupportedOperation("[]"))
  }

  function FromParams(env: Env, cls: string, params: Value, blockGiven: bool, fuel: nat): Call {
    match DataParams(params)
    case Failure(e) => Call(None, Failure(e))
    case Success(dp) =>
      Call(if blockGiven then Some((Get(dp, IdKey), Get(dp, TypeKey))) else None,
           Engine.FromParams(env, cls, Get(dp, AttributesKey), fuel))
  }

  /** A document whose `data` is a hash: the block sees its id and type, and only its attributes are deserialized. */
  lemma DataHashHandled(env: Env, cls: string, params: Value, blockGiven: bool, fuel: nat)
    requires params.Hash? && Get(params.entries, DataKey).Hash?
    ensures var dp := Get(params.entries, DataKey).entries;
      && FromParams(env, cls, params, blockGiven, fuel).yielded
           == (if blockGiven then Some((Get(dp, IdKey), Get(dp, TypeKey))) else None)
      && FromParams(env, cls, params, blockGiven, fuel).result
           == Engine.FromParams(env, cls, Get(dp, AttributesKey), fuel)
  {
  }

  /** A missing (or nil/false) `data` behaves exactly like `data: {}`. */
  lemma MissingDataIsEmpty(env: Env, cls: string, params: Value, blockGiven: bool, fuel: nat)
    requires params.Hash? && !Truthy(Get(params.entries, DataKey))
    ensures FromParams(env, cls, params, blockGiven, fuel)
         == FromParams(env, cls, Hash([(DataKey, Hash([]))]), blockGiven, fuel)
    ensures FromParams(env, cls, params, blockGiven, fuel).yielded
         == (if blockGiven then Some((Nil, Nil)) else None)
  {
    assert Get([(DataKey, Hash([]))], DataKey) == Hash([]);
  }

  /** Without `attributes` the inner `from_params` is called with nil and raises. */
  lemma MissingAttributesRaise(env: Env, cls: string, params: Value, blockGiven: bool, fuel: nat)
    requires cls in env
    requires DataParams(params).Success? && !Truthy(Get(DataParams(params).value, AttributesKey))
    ensures FromParams(env, cls, params, blockGiven, fuel).result
         == Failure(DeserializerError(cls, "params cannot be nil"))
  {
  }

  /**
   * The block is called before deserializing and whatever the outcome:
   * what it is handed does not depend on the schemas, the fuel or `attributes`.
   */
  lemma YieldIndependentOfDeserialization(env1: Env, env2: Env, cls1: string, cls2: string,
                                          params: Value, fuel1: nat, fuel2: nat)
    requires DataParams(params).Success?
    ensures FromParams(env1, cls1, params, true, fuel1).yielded
         == FromParams(env2, cls2, params, true, fuel2).yielded
    ensures FromParams(env1, cls1, params, true, fuel1).yielded.Some?
    ensures FromParams(env1, cls1, params, false, fuel1).yielded.None?
  {
  }

  /** Everything in `data` besides `attributes` (id, type, relationships, links) is ignored by the deserialization. */
  lemma OnlyAttributesMatter(env: Env, cls: string, params: Value, blockGiven: bool, fuel: nat)
    requires DataParams(params).Success?
    ensures var attrs := Get(DataParams(params).value, AttributesKey);
      FromParams(env, cls, params, blockGiven, fuel).result
        == FromParams(env, cls, Hash([(DataKey, Hash([(AttributesKey, attrs)]))]), false, fuel).result
  {
    var attrs := Get(DataParams(params).value, AttributesKey);
    var inner := Hash([(AttributesKey, attrs)]);
    assert Get([(DataKey, inner)], DataKey) == inner;
    assert Get(inner.entries, AttributesKey) == attrs;
  }

  /** A `data` that is present but not a hash, or a document that is not a hash, raises and yields nothing. */
  lemma MalformedDocumentRaises(env: Env, cls: string, params: Value, blockGiven: bool, fuel: nat)
    requires !params.Hash? || (Truthy(Get(params.entries, DataKey)) && !Get(params.entries, DataKey).Hash?)
    ensures FromParams(env, cls, params, blockGiven, fuel) == Call(None, Failure(UnsupportedOperation("[]")))
  {
  }
}
