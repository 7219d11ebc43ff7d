/**
 A JavaScript `Map`: key/value entries that remember insertion order. `set` on
 an existing key replaces its value in place; `set` on a new key appends.
 */
module OrderedMap {
  import opened Options

  type OrderedMap<K, V> = seq<(K, V)>

  predicate HasKeyAt<K(==), V>(m: OrderedMap<K, V>, k: K, i: int) {
    0 <= i < |m| && m[i].0 == k
  }

  /** `i` is the first entry whose key is `k`. */
  predicate FirstKeyAt<K(==), V>(m: OrderedMap<K, V>, k: K, i: int) {
    HasKeyAt(m, k, i) && forall j :: 0 <= j < i ==> m[j].0 != k
  }

  /** `map.has(k)`. */
  function Has<K(==), V>(m: OrderedMap<K, V>, k: K): (r: bool)
    ensures r <==> exists i :: HasKeyAt(m, k, i)
  {
    if |m| == 0 then false
    else if m[0].0 == k then (assert HasKeyAt(m, k, 0); true)
    else (
      assert (exists i :: HasKeyAt(m, k, i)) ==> exists i :: HasKeyAt(m[1..], k, i) by {
        if exists i :: HasKeyAt(m, k, i) {
          var i :| HasKeyAt(m, k, i);
          assert HasKeyAt(m[1..], k, i - 1);
        }
      }
      assert (exists i :: HasKeyAt(m[1..], k, i)) ==> exists i :: HasKeyAt(m, k, i) by {
        if exists i :: HasKeyAt(m[1..], k, i) {
          var i :| HasKeyAt(m[1..], k, i);
          assert HasKeyAt(m, k, i + 1);
        }
      }
      Has(m[1..], k))
  }

  /** `map.get(k)`: the value of the first entry with key `k`. */
  function Get<K(==), V>(m: OrderedMap<K, V>, k: K): (r: Option<V>)
    ensures r.None? <==> !Has(m, k)
    ensures r.Some? ==> exists i :: FirstKeyAt(m, k, i) && m[i].1 == r.value
  {
    if |m| == 0 then None
    else if m[0].0 == k then (assert FirstKeyAt(m, k, 0); Some(m[0].1))
    else (
      var r := Get(m[1..], k);
      assert r.Some? ==> exists i :: FirstKeyAt(m, k, i) && m[i].1 == r.value by {
        if r.Some? {
          var i :| FirstKeyAt(m[1..], k, i) && m[1..][i].1 == r.value;
          assert FirstKeyAt(m, k, i + 1);
        }
      }
      r)
  }

  /** `map.keys()` in insertion order. */
  function Keys<K, V>(m: OrderedMap<K, V>): (r: seq<K>)
    ensures |r| == |m|
    ensures forall i :: 0 <= i < |m| ==> r[i] == m[i].0
  {
    seq(|m|, i requires 0 <= i < |m| => m[i].0)
  }

  /** `map.values()` in insertion order. */
  function Values<K, V>(m: OrderedMap<K, V>): (r: seq<V>)
    ensures |r| == |m|
    ensures forall i :: 0 <= i < |m| ==> r[i] == m[i].1
  {
    seq(|m|, i requires 0 <= i < |m| => m[i].1)
  }

  /** `map.set(k, v)`. */
  function Set<K(==), V>(m: OrderedMap<K, V>, k: K, v: V): (r: OrderedMap<K, V>)
    ensures Has(m, k) ==> |r| == |m|
    ensures !Has(m, k) ==> r == m + [(k, v)]
    ensures Keys(r) == if Has(m, k) then Keys(m) else Keys(m) + [k]
  {
    if |m| == 0 then [(k, v)]
    else if m[0].0 == k then [(k, v)] + m[1..]
    else [m[0]] + Set(m[1..], k, v)
  }

  /** No key occurs in two entries, as in every JavaScript `Map`. */
  predicate DistinctKeys<K(==), V>(m: OrderedMap<K, V>) {
    forall i, j :: 0 <= i < j < |m| ==> m[i].0 != m[j].0
  }

  /** `set` never duplicates a key. */
  lemma SetKeepsKeysDistinct<K, V>(m: OrderedMap<K, V>, k: K, v: V)
    requires DistinctKeys(m)
    ensures DistinctKeys(Set(m, k, v))
  {
    var r := Set(m, k, v);
    if Has(m, k) {
      forall i, j | 0 <= i < j < |r| ensures r[i].0 != r[j].0 {
        assert r[i].0 == Keys(r)[i] == m[i].0;
        assert r[j].0 == Keys(r)[j] == m[j].0;
      }
    } else {
      forall i, j | 0 <= i < j < |r| ensures r[i].0 != r[j].0 {
        if j == |m| {
          assert !HasKeyAt(m, k, i);
        }
      }
    }
  }

  /** After `set(k, v)`, `get(k)` is `v` and every other key reads as before. */
  lemma {:induction false} GetAfterSet<K, V>(m: OrderedMap<K, V>, k: K, v: V, k': K)
    ensures Get(Set(m, k, v), k') == if k' == k then Some(v) else Get(m, k')
  {
    if |m| == 0 {
    } else if m[0].0 == k {
    } else {
      GetAfterSet(m[1..], k, v, k');
    }
  }
}
