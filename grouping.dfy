/**
 * The grouping loop the analytics and the pages share:
 *
 *   for (const x of xs) { if (key(x) is absent) continue;
 *                         map.set(k, add(map.get(k) || zero, x)); }
 *
 * `Group` is that loop as a function over the records seen so far; the
 * lemmas characterise each key's value by the records with that key alone.
 */
module Grouping {
  import opened Common
  import opened Assoc

  function Group<T, V>(s: seq<T>, key: T -> Option<string>, zero: V, add: (V, T) -> V): Entries<string, V>
    decreases |s|
  {
    if |s| == 0 then []
    else
      var m := Group(s[..|s| - 1], key, zero, add);
      var x := s[|s| - 1];
      match key(x)
      case None => m
      case Some(k) => Put(m, k, add(Get(m, k).GetOr(zero), x))
  }

  /** One more record: the loop body applied to the map built so far. */
  lemma GroupSnoc<T, V>(s: seq<T>, x: T, key: T -> Option<string>, zero: V, add: (V, T) -> V)
    ensures Group(s + [x], key, zero, add) ==
      match key(x)
      case None => Group(s, key, zero, add)
      case Some(k) => Put(Group(s, key, zero, add), k, add(Get(Group(s, key, zero, add), k).GetOr(zero), x))
  {
    assert (s + [x])[..|s + [x]| - 1] == s;
  }

  /**
   * The summing loop, continuing from the map built from `before`: each
   * record with a key adds its amount to that key's running total (`0` when
   * the key is new), a record without one is skipped.
   */
  method SumInto<T>(m0: Entries<string, int>, ghost before: seq<T>, s: seq<T>, key: T -> Option<string>, d: T -> int)
    returns (m: Entries<string, int>)
    requires m0 == Group(before, key, 0, Plus(d))
    ensures m == Group(before + s, key, 0, Plus(d))
  {
    m := m0;
    ghost var done := before;
    var j := 0;
    while j < |s|
      invariant 0 <= j <= |s|
      invariant done == before + s[..j]
      invariant m == Group(done, key, 0, Plus(d))
    {
      var x := s[j];
      if key(x).Some? {
        var k := key(x).value;
        SumSnoc(m, done, x, key, d);
        m := Put(m, k, Get(m, k).GetOr(0) + d(x));
      } else {
        SkipSnoc(m, done, x, key, d);
      }
      PrefixSnoc(before, s, j);
      done := done + [x];
      j := j + 1;
    }
    assert s[..|s|] == s;
  }

  /** One turn of the summing loop on a record with a key: its amount is added to that key's total. */
  lemma SumSnoc<T>(m: Entries<string, int>, done: seq<T>, x: T, key: T -> Option<string>, d: T -> int)
    requires m == Group(done, key, 0, Plus(d)) && key(x).Some?
    ensures Put(m, key(x).value, Get(m, key(x).value).GetOr(0) + d(x)) == Group(done + [x], key, 0, Plus(d))
  {
    GroupSnoc(done, x, key, 0, Plus(d));
    var v := Get(m, key(x).value).GetOr(0);
    assert Plus(d)(v, x) == v + d(x);
  }

  /** One turn of the summing loop on a record without a key: nothing changes. */
  lemma SkipSnoc<T>(m: Entries<string, int>, done: seq<T>, x: T, key: T -> Option<string>, d: T -> int)
    requires m == Group(done, key, 0, Plus(d)) && key(x).None?
    ensures m == Group(done + [x], key, 0, Plus(d))
  {
    GroupSnoc(done, x, key, 0, Plus(d));
  }

  /** Some record of `s` has key `k`. */
  predicate KeyOccurs<T>(s: seq<T>, key: T -> Option<string>, k: string) {
    exists i :: 0 <= i < |s| && key(s[i]) == Some(k)
  }

  /** The value `add` builds from the records with key `k`, in order. */
  function FoldKey<T, V>(s: seq<T>, k: string, key: T -> Option<string>, zero: V, add: (V, T) -> V): V
    decreases |s|
  {
    if |s| == 0 then zero
    else
      var v := FoldKey(s[..|s| - 1], k, key, zero, add);
      if key(s[|s| - 1]) == Some(k) then add(v, s[|s| - 1]) else v
  }

  lemma KeyOccursLast<T>(s: seq<T>, key: T -> Option<string>, k: string)
    requires |s| > 0
    ensures KeyOccurs(s, key, k) <==> KeyOccurs(s[..|s| - 1], key, k) || key(s[|s| - 1]) == Some(k)
  {
    if KeyOccurs(s, key, k) && key(s[|s| - 1]) != Some(k) {
      var i :| 0 <= i < |s| && key(s[i]) == Some(k);
      assert s[..|s| - 1][i] == s[i];
    }
    if KeyOccurs(s[..|s| - 1], key, k) {
      var i :| 0 <= i < |s| - 1 && key(s[..|s| - 1][i]) == Some(k);
      assert s[i] == s[..|s| - 1][i];
    }
  }

  /**
   * The grouped map has distinct keys, holds exactly the keys that occur,
   * and each key's value is what the records with that key accumulate.
   */
  lemma {:induction false} GroupGet<T, V>(s: seq<T>, key: T -> Option<string>, zero: V, add: (V, T) -> V)
    ensures DistinctKeys(Group(s, key, zero, add))
    ensures forall k :: Get(Group(s, key, zero, add), k) ==
                        if KeyOccurs(s, key, k) then Some(FoldKey(s, k, key, zero, add)) else None
    decreases |s|
  {
    if |s| > 0 {
      var p := s[..|s| - 1];
      var x := s[|s| - 1];
      var m := Group(p, key, zero, add);
      GroupGet(p, key, zero, add);
      forall k ensures KeyOccurs(s, key, k) <==> KeyOccurs(p, key, k) || key(x) == Some(k) {
        KeyOccursLast(s, key, k);
      }
      match key(x)
      case None =>
      case Some(c) =>
        PutGet(m, c, add(Get(m, c).GetOr(zero), x));
        if !KeyOccurs(p, key, c) {
          FoldKeyAbsent(p, c, key, zero, add);
        }
    }
  }

  lemma {:induction false} FoldKeyAbsent<T, V>(s: seq<T>, k: string, key: T -> Option<string>, zero: V, add: (V, T) -> V)
    requires !KeyOccurs(s, key, k)
    ensures FoldKey(s, k, key, zero, add) == zero
    decreases |s|
  {
    if |s| > 0 {
      KeyOccursLast(s, key, k);
      FoldKeyAbsent(s[..|s| - 1], k, key, zero, add);
    }
  }

  /** Every key of the grouped map occurs among the records, and every occurring key is in it. */
  lemma GroupKeys<T, V>(s: seq<T>, key: T -> Option<string>, zero: V, add: (V, T) -> V, k: string)
    ensures Has(Group(s, key, zero, add), k) <==> KeyOccurs(s, key, k)
  {
    GroupGet(s, key, zero, add);
  }

  // ---------------------------------------------------------------------
  // Integer sums per key
  // ---------------------------------------------------------------------

  /** `(acc, x) => acc + d(x)`. */
  function Plus<T>(d: T -> int): (int, T) -> int {
    (v: int, x: T) => v + d(x)
  }

  /** `d(x)` for the records with key `k`, 0 for the others. */
  function Masked<T>(d: T -> int, key: T -> Option<string>, k: string): T -> int {
    x => if key(x) == Some(k) then d(x) else 0
  }

  /** `d(x)` for the records that have any key, 0 for the others. */
  function Keyed<T>(d: T -> int, key: T -> Option<string>): T -> int {
    x => if key(x).Some? then d(x) else 0
  }

  /** The value of a number-valued entry. */
  function EntryValue(e: (string, int)): int { e.1 }

  lemma {:induction false} FoldKeySum<T>(s: seq<T>, k: string, key: T -> Option<string>, d: T -> int)
    ensures FoldKey(s, k, key, 0, Plus(d)) == SumOf(s, Masked(d, key, k))
    decreases |s|
  {
    if |s| > 0 {
      FoldKeySum(s[..|s| - 1], k, key, d);
    }
  }

  /** A key's sum is the sum of `d` over the records with that key; an absent key reads as 0. */
  lemma GroupSumAt<T>(s: seq<T>, key: T -> Option<string>, d: T -> int, k: string)
    ensures Get(Group(s, key, 0, Plus(d)), k).GetOr(0) == SumOf(s, Masked(d, key, k))
  {
    GroupGet(s, key, 0, Plus(d));
    FoldKeySum(s, k, key, d);
    if !KeyOccurs(s, key, k) {
      MaskedNone(s, key, d, k);
    }
  }

  lemma {:induction false} MaskedNone<T>(s: seq<T>, key: T -> Option<string>, d: T -> int, k: string)
    requires !KeyOccurs(s, key, k)
    ensures SumOf(s, Masked(d, key, k)) == 0
    decreases |s|
  {
    if |s| > 0 {
      KeyOccursLast(s, key, k);
      MaskedNone(s[..|s| - 1], key, d, k);
    }
  }

  /** The per-key sums add up to the sum of `d` over all records that have a key. */
  lemma {:induction false} GroupTotal<T>(s: seq<T>, key: T -> Option<string>, d: T -> int)
    ensures SumOf(Group(s, key, 0, Plus(d)), EntryValue) == SumOf(s, Keyed(d, key))
    decreases |s|
  {
    if |s| > 0 {
      var p := s[..|s| - 1];
      var x := s[|s| - 1];
      var m := Group(p, key, 0, Plus(d));
      GroupTotal(p, key, d);
      GroupGet(p, key, 0, Plus(d));
      match key(x)
      case None =>
      case Some(c) =>
        PutSum(m, c, Get(m, c).GetOr(0) + d(x), EntryValue);
    }
  }

  // ---------------------------------------------------------------------
  // Pairs of sums per key
  // ---------------------------------------------------------------------

  /** `(acc, x) => ({ first: acc.first + d1(x), second: acc.second + d2(x) })`. */
  function PlusPair<T>(d1: T -> int, d2: T -> int): ((int, int), T) -> (int, int) {
    (v: (int, int), x: T) => (v.0 + d1(x), v.1 + d2(x))
  }

  function PairFirst(e: (string, (int, int))): int { e.1.0 }
  function PairSecond(e: (string, (int, int))): int { e.1.1 }

  lemma {:induction false} FoldKeyPair<T>(s: seq<T>, k: string, key: T -> Option<string>, d1: T -> int, d2: T -> int)
    ensures FoldKey(s, k, key, (0, 0), PlusPair(d1, d2)) == (SumOf(s, Masked(d1, key, k)), SumOf(s, Masked(d2, key, k)))
    decreases |s|
  {
    if |s| > 0 {
      FoldKeyPair(s[..|s| - 1], k, key, d1, d2);
    }
  }

  /** Both components of a key's pair are the sums over the records with that key. */
  lemma GroupPairAt<T>(s: seq<T>, key: T -> Option<string>, d1: T -> int, d2: T -> int, k: string)
    requires KeyOccurs(s, key, k)
    ensures Get(Group(s, key, (0, 0), PlusPair(d1, d2)), k) ==
            Some((SumOf(s, Masked(d1, key, k)), SumOf(s, Masked(d2, key, k))))
  {
    GroupGet(s, key, (0, 0), PlusPair(d1, d2));
    FoldKeyPair(s, k, key, d1, d2);
  }

  /** The first components, and the second components, add up over all keyed records. */
  lemma {:induction false} GroupPairTotal<T>(s: seq<T>, key: T -> Option<string>, d1: T -> int, d2: T -> int)
    ensures SumOf(Group(s, key, (0, 0), PlusPair(d1, d2)), PairFirst) == SumOf(s, Keyed(d1, key))
    ensures SumOf(Group(s, key, (0, 0), PlusPair(d1, d2)), PairSecond) == SumOf(s, Keyed(d2, key))
    decreases |s|
  {
    if |s| > 0 {
      var p := s[..|s| - 1];
      var x := s[|s| - 1];
      var m := Group(p, key, (0, 0), PlusPair(d1, d2));
      GroupPairTotal(p, key, d1, d2);
      GroupGet(p, key, (0, 0), PlusPair(d1, d2));
      match key(x)
      case None =>
      case Some(c) =>
        var v := PlusPair(d1, d2)(Get(m, c).GetOr((0, 0)), x);
        PutSum(m, c, v, PairFirst);
        PutSum(m, c, v, PairSecond);
    }
  }
}
