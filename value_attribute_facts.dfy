/**
 * What a plain value attribute contributes: nothing when its input key is
 * absent, otherwise `{name => value}` read under the key, with `ignore_empty`
 * dropping empty values before any converter runs.
 */
module ValueAttributeFacts {
  import opened Wrappers
  import opened OrderedMaps
  import opened Values
  import opened Fields
  import opened Schemas
  import opened Engine

  /** A field whose key was not sent contributes nothing, whatever its options. */
  lemma AbsentKeyContributesNothing(env: Env, s: Schema, a: Attribute, ps: Entries, fuel: nat)
    requires a.kind == ValueAttribute || a.kind == HasManyAssociation
    requires !HasKey(ps, a.Key())
    ensures ToHash(env, s, a, Hash(ps), fuel) == Success([])
  {
  }

  /** Without `ignore_empty` or a converter, a present key is copied, nil and false included. */
  lemma PresentValueCopied(env: Env, s: Schema, a: Attribute, ps: Entries, fuel: nat)
    requires a.kind == ValueAttribute && !a.opts.ignoreEmpty && a.opts.convertWith.None?
    requires HasKey(ps, a.Key()) && Get(ps, a.Key()) != Ignore
    ensures ToHash(env, s, a, Hash(ps), fuel) == Success([(Sym(a.name), Get(ps, a.Key()))])
  {
  }

  /** With `ignore_empty`, nil, false, "", {} and [] are dropped, before any converter. */
  lemma IgnoreEmptyDropsEmpty(env: Env, s: Schema, a: Attribute, ps: Entries, fuel: nat)
    requires a.kind == ValueAttribute && a.opts.ignoreEmpty
    requires Get(ps, a.Key()) in [Nil, Bool(false), Str(""), Hash([]), Arr([])]
    ensures ToHash(env, s, a, Hash(ps), fuel) == Success([])
  {
  }

  /** A converter the class defines is applied to the raw value, and its result is written. */
  lemma ConverterApplied(env: Env, s: Schema, a: Attribute, ps: Entries, fuel: nat, m: string)
    requires a.kind == ValueAttribute && a.opts.convertWith == Some(m) && m in s.converters
    requires HasKey(ps, a.Key())
    requires !(a.opts.ignoreEmpty && IsEmpty(Get(ps, a.Key())))
    requires s.converters[m](Get(ps, a.Key())) != Ignore
    ensures ToHash(env, s, a, Hash(ps), fuel) == Success([(Sym(a.name), s.converters[m](Get(ps, a.Key())))])
  {
  }

  /** A `convert_with` naming a method the class lacks leaves the raw value. */
  lemma MissingConverterKeepsRaw(s: Schema, a: Attribute, ps: Entries, m: string)
    requires a.opts.convertWith == Some(m) && m !in s.converters
    requires !(a.opts.ignoreEmpty && IsEmpty(Get(ps, a.Key())))
    ensures ValueOf(s, a, ps) == Get(ps, a.Key())
  {
  }

  /** A raw input that is the symbol `:ignore` itself is dropped as well. */
  lemma LiteralIgnoreDropped(env: Env, s: Schema, a: Attribute, ps: Entries, fuel: nat)
    requires a.kind == ValueAttribute && a.opts.convertWith.None?
    requires Get(ps, a.Key()) == Ignore
    ensures ToHash(env, s, a, Hash(ps), fuel) == Success([])
  {
  }

  /**
   * Whatever produces it, the raw input or a converter, a resolved value equal
   * to `:ignore` drops the field.
   */
  lemma IgnoredValueDropped(env: Env, s: Schema, a: Attribute, ps: Entries, fuel: nat)
    requires a.kind == ValueAttribute && ValueOf(s, a, ps) == Ignore
    ensures ToHash(env, s, a, Hash(ps), fuel) == Success([])
  {
  }

  /** A converter that returns `:ignore` drops the field as well. */
  lemma ConverterIgnoreDropped(env: Env, s: Schema, a: Attribute, ps: Entries, fuel: nat, m: string)
    requires a.kind == ValueAttribute && a.opts.convertWith == Some(m) && m in s.converters
    requires !(a.opts.ignoreEmpty && IsEmpty(Get(ps, a.Key())))
    requires s.converters[m](Get(ps, a.Key())) == Ignore
    ensures ToHash(env, s, a, Hash(ps), fuel) == Success([])
  {
    IgnoredValueDropped(env, s, a, ps, fuel);
  }

  /** Without a converter the class defines, and when not dropped as empty, the value is the raw input. */
  lemma RawValueKept(s: Schema, a: Attribute, ps: Entries)
    requires a.opts.convertWith.None? || a.opts.convertWith.value !in s.converters
    requires !(a.opts.ignoreEmpty && IsEmpty(Get(ps, a.Key())))
    ensures ValueOf(s, a, ps) == Get(ps, a.Key())
  {
  }

  /**
   * The positive half of `Tuple`: a present key whose resolved value is not
   * `:ignore` gives exactly `{name => value}`, whatever the options.
   */
  lemma ResolvedValueKept(env: Env, s: Schema, a: Attribute, ps: Entries, fuel: nat)
    requires a.kind == ValueAttribute && HasKey(ps, a.Key()) && ValueOf(s, a, ps) != Ignore
    ensures ToHash(env, s, a, Hash(ps), fuel) == Success([(Sym(a.name), ValueOf(s, a, ps))])
  {
  }

  /**
   * With `ignore_empty` on or off and no converter, a present value that is
   * not empty (and not `:ignore`) is written as it was sent.
   */
  lemma NonEmptyKeptUnderIgnoreEmpty(env: Env, s: Schema, a: Attribute, ps: Entries, fuel: nat)
    requires a.kind == ValueAttribute && a.opts.convertWith.None?
    requires HasKey(ps, a.Key()) && !IsEmpty(Get(ps, a.Key())) && Get(ps, a.Key()) != Ignore
    ensures ToHash(env, s, a, Hash(ps), fuel) == Success([(Sym(a.name), Get(ps, a.Key()))])
  {
    RawValueKept(s, a, ps);
    ResolvedValueKept(env, s, a, ps, fuel);
  }

  /**
   * Under `ignore_empty` and without a converter, a present field is dropped
   * exactly when its value is empty: both directions of the option.
   */
  lemma IgnoreEmptyDropsExactlyEmpty(env: Env, s: Schema, a: Attribute, ps: Entries, fuel: nat)
    requires a.kind == ValueAttribute && a.opts.ignoreEmpty && a.opts.convertWith.None?
    requires HasKey(ps, a.Key()) && Get(ps, a.Key()) != Ignore
    ensures ToHash(env, s, a, Hash(ps), fuel) == Success([]) <==> IsEmpty(Get(ps, a.Key()))
  {
    if !IsEmpty(Get(ps, a.Key())) {
      NonEmptyKeptUnderIgnoreEmpty(env, s, a, ps, fuel);
    }
  }

  /** A `convert_with` naming a method the class lacks writes the raw value under the name. */
  lemma MissingConverterWritesRaw(env: Env, s: Schema, a: Attribute, ps: Entries, fuel: nat, m: string)
    requires a.kind == ValueAttribute && a.opts.convertWith == Some(m) && m !in s.converters
    requires HasKey(ps, a.Key()) && !(a.opts.ignoreEmpty && IsEmpty(Get(ps, a.Key())))
    requires Get(ps, a.Key()) != Ignore
    ensures ToHash(env, s, a, Hash(ps), fuel) == Success([(Sym(a.name), Get(ps, a.Key()))])
  {
    MissingConverterKeepsRaw(s, a, ps, m);
    ResolvedValueKept(env, s, a, ps, fuel);
  }

  /**
   * A value attribute contributes at most one pair, always under its name,
   * and what it holds depends only on the input under its key.
   */
  lemma ReadUnderKeyWrittenUnderName(env: Env, s: Schema, a: Attribute, ps: Entries, qs: Entries, fuel: nat)
    requires a.kind == ValueAttribute
    requires HasKey(ps, a.Key()) == HasKey(qs, a.Key()) && Get(ps, a.Key()) == Get(qs, a.Key())
    ensures ToHash(env, s, a, Hash(ps), fuel) == ToHash(env, s, a, Hash(qs), fuel)
    ensures var r := ToHash(env, s, a, Hash(ps), fuel);
      r.Success? && |r.value| <= 1 && forall i :: 0 <= i < |r.value| ==> r.value[i].0 == Sym(a.name)
  {
  }
}
