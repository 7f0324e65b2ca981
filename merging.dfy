/**
 * How `Base#deserialize` folds each field's partial hash into the result:
 * `object.merge!(partial) { |key, old, new| ... }`. On a key collision two
 * hashes are combined with a one-level `old.merge(new)`; otherwise the newer
 * value replaces the older one.
 */
module Merging {
  import opened Wrappers
  import opened OrderedMaps
  import opened Values

  /** The collision block: both hashes gives `old.merge(new)`, anything else gives `new`. */
  function Resolve(older: Value, newer: Value): Value {
    if older.Hash? && newer.Hash? then Hash(Merge(older.entries, newer.entries)) else newer
  }

  /** `acc.merge!(part)` with the collision block, visiting `part`'s pairs in order. */
  function MergeWith(acc: Entries, part: Entries): Entries
    decreases part
  {
    if part == [] then acc
    else
      var (k, v) := part[0];
      var stored := match Lookup(acc, k) case Some(o) => Resolve(o, v) case None => v;
      MergeWith(Put(acc, k, stored), part[1..])
  }

  /**
   * After the merge, a key of `part` holds the collision result when the
   * accumulator already had it and `part`'s value otherwise; every other key
   * keeps the accumulator's value.
   */
  lemma {:induction false} MergeWithLookup(acc: Entries, part: Entries, k: Value)
    requires UniqueKeys(part)
    ensures Lookup(MergeWith(acc, part), k) ==
      if !HasKey(part, k) then Lookup(acc, k)
      else if HasKey(acc, k) then Some(Resolve(Get(acc, k), Get(part, k)))
      else Some(Get(part, k))
    decreases part
  {
    if part != [] {
      var (k0, v0) := part[0];
      var t := part[1..];
      assert forall i :: 1 <= i < |part| ==> part[i] == t[i - 1];
      assert UniqueKeys(t);
      var stored := match Lookup(acc, k0) case Some(o) => Resolve(o, v0) case None => v0;
      MergeWithLookup(Put(acc, k0, stored), t, k);
      PutLookup(acc, k0, stored, k);
      if k == k0 {
        assert !HasKey(t, k);
      }
    }
  }

  /** The merged keys are the accumulator's keys and `part`'s keys, nothing else. */
  lemma {:induction false} MergeWithHasKey(acc: Entries, part: Entries, k: Value)
    requires UniqueKeys(part)
    ensures HasKey(MergeWith(acc, part), k) <==> HasKey(acc, k) || HasKey(part, k)
  {
    MergeWithLookup(acc, part, k);
  }

  /** The merge never introduces a duplicate key. */
  lemma {:induction false} MergeWithUnique(acc: Entries, part: Entries)
    requires UniqueKeys(acc)
    ensures UniqueKeys(MergeWith(acc, part))
    decreases part
  {
    if part != [] {
      var (k, v) := part[0];
      var stored := match Lookup(acc, k) case Some(o) => Resolve(o, v) case None => v;
      PutUnique(acc, k, stored);
      MergeWithUnique(Put(acc, k, stored), part[1..]);
    }
  }

  /** Merging into an empty accumulator gives the partial hash unchanged. */
  lemma MergeWithIntoEmpty(part: Entries)
    requires UniqueKeys(part)
    ensures MergeWith([], part) == part
  {
    MergeWithDisjoint([], part);
  }

  /** `a.merge(b)` of hashes without a common key appends `b`'s pairs after `a`'s. */
  lemma {:induction false} MergeDisjoint(a: Entries, b: Entries)
    requires UniqueKeys(b)
    requires forall i, j :: 0 <= i < |a| && 0 <= j < |b| ==> a[i].0 != b[j].0
    ensures Merge(a, b) == a + b
    decreases b
  {
    if b != [] {
      var (k, v) := b[0];
      var t := b[1..];
      assert forall j :: 1 <= j < |b| ==> b[j] == t[j - 1];
      forall i | 0 <= i < |a| ensures a[i].0 != k {
        assert a[i].0 != b[0].0;
      }
      PutAppends(a, k, v);
      var a' := a + [(k, v)];
      forall i, j | 0 <= i < |a'| && 0 <= j < |t| ensures a'[i].0 != t[j].0 {
        if i < |a| {
          assert a'[i] == a[i] && t[j] == b[j + 1];
        } else {
          assert a'[i] == b[0] && t[j] == b[j + 1];
        }
      }
      MergeDisjoint(a', t);
      assert a' + t == a + b;
    }
  }

  /** Merging pairs whose keys are all new appends them in order. */
  lemma {:induction false} MergeWithDisjoint(acc: Entries, part: Entries)
    requires UniqueKeys(part)
    requires forall i, j :: 0 <= i < |acc| && 0 <= j < |part| ==> acc[i].0 != part[j].0
    ensures MergeWith(acc, part) == acc + part
    decreases part
  {
    if part != [] {
      var (k, v) := part[0];
      var t := part[1..];
      assert forall j :: 1 <= j < |part| ==> part[j] == t[j - 1];
      forall i | 0 <= i < |acc| ensures acc[i].0 != k {
        assert acc[i].0 != part[0].0;
      }
      PutAppends(acc, k, v);
      var acc' := acc + [(k, v)];
      forall i, j | 0 <= i < |acc'| && 0 <= j < |t| ensures acc'[i].0 != t[j].0 {
        if i < |acc| {
          assert acc'[i] == acc[i] && t[j] == part[j + 1];
        } else {
          assert acc'[i] == part[0] && t[j] == part[j + 1];
        }
      }
      MergeWithDisjoint(acc', t);
      assert acc' + t == acc + part;
    }
  }

  /** Two hashes written under one key end up as one hash: `old.merge(new)`. */
  lemma CollidingHashesCombine(acc: Entries, k: Value, older: Entries, newer: Entries)
    requires Lookup(acc, k) == Some(Hash(older))
    ensures Lookup(MergeWith(acc, [(k, Hash(newer))]), k) == Some(Hash(Merge(older, newer)))
  {
    MergeWithLookup(acc, [(k, Hash(newer))], k);
  }

  /** When either side of a collision is not a hash, the newer value replaces the older one. */
  lemma CollisionOtherwiseReplaces(acc: Entries, k: Value, v: Value)
    requires HasKey(acc, k) && !(Get(acc, k).Hash? && v.Hash?)
    ensures Lookup(MergeWith(acc, [(k, v)]), k) == Some(v)
  {
    MergeWithLookup(acc, [(k, v)], k);
  }

  /** `{a: {x: 1}}` followed by `{a: {y: 2}}` gives `{a: {x: 1, y: 2}}`. */
  lemma HashesMergeExample()
    ensures MergeWith([(Sym("a"), Hash([(Sym("x"), Int(1))]))], [(Sym("a"), Hash([(Sym("y"), Int(2))]))])
      == [(Sym("a"), Hash([(Sym("x"), Int(1)), (Sym("y"), Int(2))]))]
  {
    var inner: Entries := [(Sym("x"), Int(1))];
    var extra: Entries := [(Sym("y"), Int(2))];
    var acc: Entries := [(Sym("a"), Hash(inner))];
    assert Lookup(acc, Sym("a")) == Some(Hash(inner));
    assert Put(inner, Sym("y"), Int(2)) == inner + extra;
    assert Merge(inner, extra) == inner + extra;
    assert Resolve(Hash(inner), Hash(extra)) == Hash(inner + extra);
    assert Put(acc, Sym("a"), Hash(inner + extra)) == [(Sym("a"), Hash(inner + extra))];
    var part: Entries := [(Sym("a"), Hash(extra))];
    assert part[1..] == [];
    assert MergeWith(acc, part) == MergeWith(Put(acc, Sym("a"), Hash(inner + extra)), []);
    assert inner + extra == [(Sym("x"), Int(1)), (Sym("y"), Int(2))];
  }

  /**
   * The combination is one level deep: `{a: {b: {x: 1}}}` followed by
   * `{a: {b: {y: 2}}}` gives `{a: {b: {y: 2}}}`, the inner hashes are not merged.
   */
  lemma MergeIsOneLevelDeep()
    ensures MergeWith([(Sym("a"), Hash([(Sym("b"), Hash([(Sym("x"), Int(1))]))]))],
                      [(Sym("a"), Hash([(Sym("b"), Hash([(Sym("y"), Int(2))]))]))])
      == [(Sym("a"), Hash([(Sym("b"), Hash([(Sym("y"), Int(2))]))]))]
  {
    var older: Entries := [(Sym("b"), Hash([(Sym("x"), Int(1))]))];
    var newer: Entries := [(Sym("b"), Hash([(Sym("y"), Int(2))]))];
    var acc: Entries := [(Sym("a"), Hash(older))];
    assert Lookup(acc, Sym("a")) == Some(Hash(older));
    assert Put(older, Sym("b"), Hash([(Sym("y"), Int(2))])) == newer;
    assert Merge(older, newer) == newer;
    assert Resolve(Hash(older), Hash(newer)) == Hash(newer);
    assert Put(acc, Sym("a"), Hash(newer)) == [(Sym("a"), Hash(newer))];
  }
}
