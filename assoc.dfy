/**
 * Insertion-ordered dictionaries, standing for a JavaScript object used as a
 * map over ordinary (non-integer) names: `for ... in` visits keys in the
 * order they were first added, and assigning to an existing key keeps its
 * position. Names an object inherits from `Object.prototype` are not
 * modelled: here a key is present only once it is put.
 */
module Assoc {
  import opened Wrappers

  type Assoc<K, V> = seq<(K, V)>

  function Keys<K, V>(m: Assoc<K, V>): (ks: seq<K>)
    ensures |ks| == |m| && forall i :: 0 <= i < |m| ==> ks[i] == m[i].0
  {
    if m == [] then [] else [m[0].0] + Keys(m[1..])
  }

  /** Each key appears once. */
  predicate UniqueKeys<K(==), V>(m: Assoc<K, V>)
  {
    forall i, j :: 0 <= i < j < |m| ==> m[i].0 != m[j].0
  }

  /** `obj[k]`, absent when the key was never added. */
  function Get<K(==), V>(m: Assoc<K, V>, k: K): (r: Option<V>)
    ensures r.None? <==> forall i :: 0 <= i < |m| ==> m[i].0 != k
  {
    if m == [] then None else if m[0].0 == k then Some(m[0].1) else Get(m[1..], k)
  }

  /** `obj[k] = v`: replaces the value in place, or adds the key at the end. */
  function Put<K(==), V>(m: Assoc<K, V>, k: K, v: V): (r: Assoc<K, V>)
    ensures |r| == |m| || |r| == |m| + 1
  {
    if m == [] then [(k, v)]
    else if m[0].0 == k then [(k, v)] + m[1..]
    else [m[0]] + Put(m[1..], k, v)
  }

  lemma {:induction false} GetPut<K, V>(m: Assoc<K, V>, k: K, v: V, j: K)
    ensures Get(Put(m, k, v), j) == if j == k then Some(v) else Get(m, j)
    decreases |m|
  {
    if m != [] && m[0].0 != k {
      GetPut(m[1..], k, v, j);
    }
  }

  lemma {:induction false} PutKeepsUnique<K, V>(m: Assoc<K, V>, k: K, v: V)
    requires UniqueKeys(m)
    ensures UniqueKeys(Put(m, k, v))
    ensures forall i :: 0 <= i < |Put(m, k, v)| ==> Put(m, k, v)[i].0 == k || Get(m, Put(m, k, v)[i].0).Some?
    decreases |m|
  {
    if m != [] && m[0].0 != k {
      PutKeepsUnique(m[1..], k, v);
      var r := Put(m, k, v);
      assert r == [m[0]] + Put(m[1..], k, v);
      forall i | 0 < i < |r| ensures r[i].0 != m[0].0 {
        var t := r[i].0;
        if t != k {
          assert Get(m[1..], t).Some?;
        }
      }
    }
  }

  /** Putting a key that is not present appends it. */
  lemma {:induction false} PutNew<K, V>(m: Assoc<K, V>, k: K, v: V)
    requires Get(m, k).None?
    ensures Put(m, k, v) == m + [(k, v)]
    decreases |m|
  {
    if m != [] {
      PutNew(m[1..], k, v);
      assert [m[0]] + (m[1..] + [(k, v)]) == m + [(k, v)];
    }
  }

  /** `delete obj[k]` */
  function Remove<K(==), V>(m: Assoc<K, V>, k: K): (r: Assoc<K, V>)
    ensures |r| <= |m|
  {
    if m == [] then [] else if m[0].0 == k then Remove(m[1..], k) else [m[0]] + Remove(m[1..], k)
  }

  lemma {:induction false} GetRemove<K, V>(m: Assoc<K, V>, k: K, j: K)
    ensures Get(Remove(m, k), j) == if j == k then None else Get(m, j)
    decreases |m|
  {
    if m != [] {
      GetRemove(m[1..], k, j);
    }
  }

  /** A key is looked up in the first table, then in the second. */
  lemma {:induction false} GetConcat<K, V>(a: Assoc<K, V>, b: Assoc<K, V>, k: K)
    ensures Get(a + b, k) == if Get(a, k).Some? then Get(a, k) else Get(b, k)
    decreases |a|
  {
    if a == [] {
      assert a + b == b;
    } else {
      assert (a + b)[0] == a[0];
      assert (a + b)[1..] == a[1..] + b;
      GetConcat(a[1..], b, k);
    }
  }
}
