/**
 * Insertion-ordered maps with the semantics of Ruby's Hash: a key that is
 * stored again keeps its original position, a new key is appended, and
 * `a.merge(b)` stores every pair of `b` into `a` in `b`'s order.
 * Both the input/output hashes and the class-level field registry are such maps.
 */
module OrderedMaps {
  import opened Wrappers

  type OMap<K, V> = seq<(K, V)>

  /** The keys, in iteration order (Ruby's `Hash#keys`). */
  function Keys<K, V>(m: OMap<K, V>): (ks: seq<K>)
    ensures |ks| == |m|
    ensures forall i :: 0 <= i < |m| ==> ks[i] == m[i].0
  {
    seq(|m|, i requires 0 <= i < |m| => m[i].0)
  }

  /** Ruby's `Hash#has_key?`. */
  predicate HasKey<K(==, !new), V>(m: OMap<K, V>, k: K) {
    exists i :: 0 <= i < |m| && m[i].0 == k
  }

  /** No key occurs twice: every Ruby hash has this shape. */
  predicate UniqueKeys<K(==, !new), V>(m: OMap<K, V>) {
    forall i, j :: 0 <= i < j < |m| ==> m[i].0 != m[j].0
  }

  /** The value stored under `k`, if any (the first pair with that key). */
  function Lookup<K(==, !new), V>(m: OMap<K, V>, k: K): (r: Option<V>)
    ensures r.None? <==> !HasKey(m, k)
  {
    if m == [] then None
    else if m[0].0 == k then Some(m[0].1)
    else
      assert forall i :: 1 <= i < |m| ==> m[i] == m[1..][i - 1];
      Lookup(m[1..], k)
  }

  /** Store `v` under `k` (Ruby's `h.merge(k => v)`): in place if `k` is present, appended otherwise. */
  function Put<K(==, !new), V>(m: OMap<K, V>, k: K, v: V): (r: OMap<K, V>)
    ensures |r| == if HasKey(m, k) then |m| else |m| + 1
  {
    if m == [] then [(k, v)]
    else if m[0].0 == k then [(k, v)] + m[1..]
    else
      assert forall i :: 1 <= i < |m| ==> m[i] == m[1..][i - 1];
      [m[0]] + Put(m[1..], k, v)
  }

  /** Ruby's `a.merge(b)`: the pairs of `b` stored into `a`, one by one, in order. */
  function Merge<K(==, !new), V>(a: OMap<K, V>, b: OMap<K, V>): OMap<K, V>
    decreases b
  {
    if b == [] then a else Merge(Put(a, b[0].0, b[0].1), b[1..])
  }

  /** Storing a key keeps the order of the existing keys and appends a new one. */
  lemma {:induction false} PutKeys<K(!new), V>(m: OMap<K, V>, k: K, v: V)
    ensures Keys(Put(m, k, v)) == if HasKey(m, k) then Keys(m) else Keys(m) + [k]
  {
    if m != [] && m[0].0 != k {
      PutKeys(m[1..], k, v);
      assert HasKey(m, k) <==> HasKey(m[1..], k) by {
        assert forall i :: 1 <= i < |m| ==> m[i] == m[1..][i - 1];
      }
      assert Keys(m) == [m[0].0] + Keys(m[1..]);
    }
  }

  /** After storing `v` under `k`, `k` gives `v` and every other key is unaffected. */
  lemma {:induction false} PutLookup<K(!new), V>(m: OMap<K, V>, k: K, v: V, k': K)
    ensures Lookup(Put(m, k, v), k') == if k' == k then Some(v) else Lookup(m, k')
  {
    if m != [] && m[0].0 != k {
      PutLookup(m[1..], k, v, k');
    }
  }

  /** Storing a key that is absent appends its pair. */
  lemma {:induction false} PutAppends<K(!new), V>(m: OMap<K, V>, k: K, v: V)
    requires !HasKey(m, k)
    ensures Put(m, k, v) == m + [(k, v)]
  {
    if m != [] {
      var t := m[1..];
      assert !HasKey(t, k) by {
        forall i | 0 <= i < |t| ensures t[i].0 != k {
          assert t[i] == m[i + 1];
        }
      }
      PutAppends(t, k, v);
    }
  }

  /** Storing never introduces a duplicate key. */
  lemma {:induction false} PutUnique<K(!new), V>(m: OMap<K, V>, k: K, v: V)
    requires UniqueKeys(m)
    ensures UniqueKeys(Put(m, k, v))
  {
    PutKeys(m, k, v);
    var r := Put(m, k, v);
    var ks := Keys(r);
    if HasKey(m, k) {
      assert Keys(r) == Keys(m);
    } else {
      assert ks == Keys(m) + [k];
      forall i, j | 0 <= i < j < |r| ensures r[i].0 != r[j].0 {
        assert ks[i] == r[i].0 && ks[j] == r[j].0;
        if j == |m| {
          assert ks[i] == m[i].0;
        } else {
          assert ks[i] == m[i].0 && ks[j] == m[j].0;
        }
      }
    }
  }

  /** `a.merge(b)`: keys of `b` take `b`'s values, all other keys keep `a`'s. */
  lemma {:induction false} MergeLookup<K(!new), V>(a: OMap<K, V>, b: OMap<K, V>, k: K)
    requires UniqueKeys(b)
    ensures Lookup(Merge(a, b), k) == if HasKey(b, k) then Lookup(b, k) else Lookup(a, k)
    decreases b
  {
    if b != [] {
      var t := b[1..];
      assert forall i :: 1 <= i < |b| ==> b[i] == t[i - 1];
      assert UniqueKeys(t);
      MergeLookup(Put(a, b[0].0, b[0].1), t, k);
      PutLookup(a, b[0].0, b[0].1, k);
      if k == b[0].0 {
        assert !HasKey(t, k);
      }
    }
  }

  /** `a.merge(b)` never introduces a duplicate key. */
  lemma {:induction false} MergeUnique<K(!new), V>(a: OMap<K, V>, b: OMap<K, V>)
    requires UniqueKeys(a)
    ensures UniqueKeys(Merge(a, b))
    decreases b
  {
    if b != [] {
      PutUnique(a, b[0].0, b[0].1);
      MergeUnique(Put(a, b[0].0, b[0].1), b[1..]);
    }
  }
}
