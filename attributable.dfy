/**
 * The class-level declaration DSL of a deserializer: `attribute`,
 * `attributes`, `has_one`, `has_many`, `nests` and `belongs_to`, each
 * reassigning the class's `__attrs` registry.
 */
module Attributable {
  import opened Wrappers
  import opened OrderedMaps
  import opened Values
  import opened Errors
  import opened Fields
  import opened Schemas

  /**
   * A deserializer class under construction. Its user-defined methods are
   * fixed when the class is created: the zero-argument ones by the value they
   * return, the converters by their function.
   */
  class Definition {
    const klass: string
    const overrides: map<string, Value>
    const converters: map<string, Value -> Value>
    var attrs: Registry

    ghost predicate Valid()
      reads this
    {
      WellFormed(attrs)
    }

    /** A class whose registry is still the empty `__attrs` it inherits from Base. */
    constructor (klass: string, overrides: map<string, Value>, converters: map<string, Value -> Value>)
      ensures Valid() && attrs == []
      ensures this.klass == klass && this.overrides == overrides && this.converters == converters
    {
      this.klass := klass;
      this.overrides := overrides;
      this.converters := converters;
      attrs := [];
    }

    /** The class as the engine sees it. */
    function AsSchema(): Schema
      reads this
    {
      Schema(attrs, overrides, converters)
    }

    /** `permitted_params`: the input keys of the declared fields, in declaration order. */
    function PermittedParams(): (ks: seq<Value>)
      requires Valid()
      reads this
      ensures |ks| == |attrs|
      ensures forall i :: 0 <= i < |attrs| ==> ks[i] == attrs[i].1.Key()
    {
      Schemas.PermittedParams(attrs)
    }

    /** `attribute(name, opts)`: a plain value field under its key. */
    method Attribute(name: string, opts: Opts)
      requires Valid()
      modifies this
      ensures Valid()
      ensures attrs == Register(old(attrs), Fields.Attribute(ValueAttribute, name, opts))
    {
      RegisterWellFormed(attrs, Fields.Attribute(ValueAttribute, name, opts));
      attrs := Register(attrs, Fields.Attribute(ValueAttribute, name, opts));
    }

    /** `attributes(*names)`: each name declared in turn with empty options. */
    method Attributes(names: seq<string>)
      requires Valid()
      modifies this
      ensures Valid()
      ensures attrs == RegisterAll(old(attrs), names)
    {
      for i := 0 to |names|
        invariant Valid()
        invariant attrs == RegisterAll(old(attrs), names[..i])
      {
        assert names[..i + 1][..i] == names[..i];
        Attribute(names[i], NoOpts);
      }
      assert names[..|names|] == names;
    }

    /** `has_one(name, opts)`: refused without a `deserializer:`, before the registry is touched. */
    method HasOne(name: string, opts: Opts) returns (r: Outcome<Error>)
      requires Valid()
      modifies this
      ensures Valid()
      ensures opts.deserializer.None? ==>
        r == Fail(DeserializerError(klass, "has_one associations need a deserilaizer")) && attrs == old(attrs)
      ensures opts.deserializer.Some? ==>
        r == Pass && attrs == Register(old(attrs), Fields.Attribute(HasOneAssociation, name, opts))
    {
      if opts.deserializer.None? {
        return Fail(DeserializerError(klass, "has_one associations need a deserilaizer"));
      }
      RegisterWellFormed(attrs, Fields.Attribute(HasOneAssociation, name, opts));
      attrs := Register(attrs, Fields.Attribute(HasOneAssociation, name, opts));
      return Pass;
    }

    /** `has_many(name, opts)`: refused without a `deserializer:`, before the registry is touched. */
    method HasMany(name: string, opts: Opts) returns (r: Outcome<Error>)
      requires Valid()
      modifies this
      ensures Valid()
      ensures opts.deserializer.None? ==>
        r == Fail(DeserializerError(klass, "has_many associations need a deserilaizer")) && attrs == old(attrs)
      ensures opts.deserializer.Some? ==>
        r == Pass && attrs == Register(old(attrs), Fields.Attribute(HasManyAssociation, name, opts))
    {
      if opts.deserializer.None? {
        return Fail(DeserializerError(klass, "has_many associations need a deserilaizer"));
      }
      RegisterWellFormed(attrs, Fields.Attribute(HasManyAssociation, name, opts));
      attrs := Register(attrs, Fields.Attribute(HasManyAssociation, name, opts));
      return Pass;
    }

    /** `nests(name, opts)`: refused without a `deserializer:`, before the registry is touched. */
    method Nests(name: string, opts: Opts) returns (r: Outcome<Error>)
      requires Valid()
      modifies this
      ensures Valid()
      ensures opts.deserializer.None? ==>
        r == Fail(DeserializerError(klass, "nested associations need a deserilaizer")) && attrs == old(attrs)
      ensures opts.deserializer.Some? ==>
        r == Pass && attrs == Register(old(attrs), Fields.Attribute(NestedAssociation, name, opts))
    {
      if opts.deserializer.None? {
        return Fail(DeserializerError(klass, "nested associations need a deserilaizer"));
      }
      RegisterWellFormed(attrs, Fields.Attribute(NestedAssociation, name, opts));
      attrs := Register(attrs, Fields.Attribute(NestedAssociation, name, opts));
      return Pass;
    }

    /** `belongs_to(*args)`: always refused, whatever the arguments; the registry is untouched. */
    method BelongsTo(args: seq<Value>) returns (r: Outcome<Error>)
      ensures r == Fail(DeserializerError(klass, "belongs_to is unsupported."))
    {
      return Fail(DeserializerError(klass, "belongs_to is unsupported."));
    }
  }
}
