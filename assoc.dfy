/**
 * A JavaScript `Map`: entries in insertion order with distinct keys.
 * `set` on a present key replaces its value in place; on a new key it
 * appends the entry, which is why iteration order is first-insertion order.
 */
module Assoc {
  import opened Common

  type Entries<K, V> = seq<(K, V)>

  function Keys<K(==), V>(a: Entries<K, V>): (r: seq<K>)
    ensures |r| == |a|
    ensures forall i :: 0 <= i < |a| ==> r[i] == a[i].0
  {
    seq(|a|, i requires 0 <= i < |a| => a[i].0)
  }

  predicate DistinctKeys<K(==), V>(a: Entries<K, V>) {
    forall i, j :: 0 <= i < j < |a| ==> a[i].0 != a[j].0
  }

  /** `map.has(k)`. */
  predicate Has<K(==), V>(a: Entries<K, V>, k: K) {
    exists i :: 0 <= i < |a| && a[i].0 == k
  }

  /** `map.get(k)`, searching from the front. */
  function Get<K(==), V>(a: Entries<K, V>, k: K): (r: Option<V>)
    ensures r.None? <==> !Has(a, k)
    ensures r.Some? ==> exists i :: 0 <= i < |a| && a[i] == (k, r.value)
    decreases |a|
  {
    if |a| == 0 then None
    else if a[0].0 == k then Some(a[0].1)
    else
      var r := Get(a[1..], k);
      assert forall i :: 1 <= i < |a| ==> a[i] == a[1..][i - 1];
      r
  }

  lemma GetAt<K, V>(a: Entries<K, V>, i: nat)
    requires DistinctKeys(a) && i < |a|
    ensures Get(a, a[i].0) == Some(a[i].1)
    decreases i
  {
    if i > 0 {
      GetAt(a[1..], i - 1);
    }
  }

  /** `map.set(k, v)`. */
  function Put<K(==), V>(a: Entries<K, V>, k: K, v: V): (r: Entries<K, V>)
    decreases |a|
  {
    if |a| == 0 then [(k, v)]
    else if a[0].0 == k then [(k, v)] + a[1..]
    else [a[0]] + Put(a[1..], k, v)
  }

  /** What `set` does to the entries: replace in place, or append a new one. */
  lemma {:induction false} PutShape<K, V>(a: Entries<K, V>, k: K, v: V)
    requires DistinctKeys(a)
    ensures Has(a, k) ==> exists i :: 0 <= i < |a| && a[i].0 == k && Put(a, k, v) == a[i := (k, v)]
    ensures !Has(a, k) ==> Put(a, k, v) == a + [(k, v)]
    decreases |a|
  {
    if |a| > 0 && a[0].0 != k {
      PutShape(a[1..], k, v);
      assert Has(a, k) ==> Has(a[1..], k) by {
        if Has(a, k) {
          var i :| 0 <= i < |a| && a[i].0 == k;
          assert a[1..][i - 1].0 == k;
        }
      }
      if Has(a, k) {
        var i :| 0 <= i < |a[1..]| && a[1..][i].0 == k && Put(a[1..], k, v) == a[1..][i := (k, v)];
        assert Put(a, k, v) == a[i + 1 := (k, v)];
      } else {
        assert forall i :: 0 <= i < |a[1..]| ==> a[1..][i] == a[i + 1];
        assert Put(a, k, v) == [a[0]] + (a[1..] + [(k, v)]);
      }
    } else if |a| > 0 {
      assert Put(a, k, v) == a[0 := (k, v)];
    }
  }

  /** After `set(k, v)`, `get(k')` is `v` for `k` and unchanged for every other key. */
  lemma {:induction false} PutGetAt<K, V>(a: Entries<K, V>, k: K, v: V, k': K)
    ensures Get(Put(a, k, v), k') == if k' == k then Some(v) else Get(a, k')
    decreases |a|
  {
    if |a| > 0 {
      var r := Put(a, k, v);
      if a[0].0 == k {
        assert r[1..] == a[1..];
      } else {
        PutGetAt(a[1..], k, v, k');
        assert r[1..] == Put(a[1..], k, v);
      }
    }
  }

  /** `set` keeps keys distinct. */
  lemma PutDistinct<K, V>(a: Entries<K, V>, k: K, v: V)
    requires DistinctKeys(a)
    ensures DistinctKeys(Put(a, k, v))
  {
    PutShape(a, k, v);
  }

  /** `set` keeps keys distinct, makes `k` map to `v` and leaves every other key alone. */
  lemma PutGet<K, V>(a: Entries<K, V>, k: K, v: V)
    requires DistinctKeys(a)
    ensures DistinctKeys(Put(a, k, v))
    ensures forall k' :: Get(Put(a, k, v), k') == if k' == k then Some(v) else Get(a, k')
    ensures forall k' :: Has(Put(a, k, v), k') <==> k' == k || Has(a, k')
  {
    PutDistinct(a, k, v);
    forall k' ensures Get(Put(a, k, v), k') == if k' == k then Some(v) else Get(a, k') {
      PutGetAt(a, k, v, k');
    }
    forall k' ensures Has(Put(a, k, v), k') <==> k' == k || Has(a, k') {
      PutGetAt(a, k, v, k');
    }
  }

  /**
   * Summing a weight over the entries after `set(k, v)`: the new entry's
   * weight replaces the old entry's, if there was one.
   */
  lemma PutSum<K, V>(a: Entries<K, V>, k: K, v: V, g: ((K, V)) -> int)
    requires DistinctKeys(a)
    ensures SumOf(Put(a, k, v), g) ==
            SumOf(a, g) + g((k, v)) - (if Has(a, k) then g((k, Get(a, k).value)) else 0)
  {
    PutShape(a, k, v);
    if Has(a, k) {
      var i :| 0 <= i < |a| && a[i].0 == k && Put(a, k, v) == a[i := (k, v)];
      GetAt(a, i);
      var r := a[i := (k, v)];
      SumOfRemove(a, i, g);
      SumOfRemove(r, i, g);
      assert r[..i] + r[i + 1..] == a[..i] + a[i + 1..];
    } else {
      SumOfAppend(a, [(k, v)], g);
      assert SumOf([(k, v)], g) == SumOf([(k, v)][..0], g) + g((k, v));
    }
  }

  /** `set` keeps every entry but the one of `k`, and adds `(k, v)`. */
  lemma {:induction false} PutEntries<K, V>(a: Entries<K, V>, k: K, v: V)
    ensures forall i :: 0 <= i < |Put(a, k, v)| ==> Put(a, k, v)[i] == (k, v) || Put(a, k, v)[i] in a
    decreases |a|
  {
    if |a| > 0 && a[0].0 != k {
      PutEntries(a[1..], k, v);
    }
  }

  /** `map.delete(k)`: every entry of `k` goes, the others stay in order. */
  function Remove<K(==), V>(a: Entries<K, V>, k: K): (r: Entries<K, V>)
    ensures forall i :: 0 <= i < |r| ==> r[i] in a && r[i].0 != k
    ensures forall i :: 0 <= i < |a| && a[i].0 != k ==> a[i] in r
    decreases |a|
  {
    if |a| == 0 then []
    else if a[0].0 == k then Remove(a[1..], k)
    else [a[0]] + Remove(a[1..], k)
  }

  /** After `delete(k)`, `k` is gone and every other key keeps its value. */
  lemma {:induction false} RemoveGet<K, V>(a: Entries<K, V>, k: K, k': K)
    requires DistinctKeys(a)
    ensures DistinctKeys(Remove(a, k))
    ensures Get(Remove(a, k), k') == if k' == k then None else Get(a, k')
    decreases |a|
  {
    if |a| > 0 {
      assert DistinctKeys(a[1..]);
      RemoveGet(a[1..], k, k');
      if a[0].0 != k {
        var r := Remove(a[1..], k);
        forall j | 0 <= j < |r| ensures r[j].0 != a[0].0 {
          assert r[j] in a[1..];
        }
        assert ([a[0]] + r)[1..] == r;
      }
    }
  }
}
