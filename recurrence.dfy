/**
 * Occurrence arithmetic of recurring transactions: a recurring record
 * created at `start` recurs at `start + k * interval` days for k = 0, 1, ...
 * Instants are integer milliseconds.
 */
module Recurrence {

  const Day: int := 86400000

  /** `Math.floor(a / b)` for a positive divisor (Dafny's `/` is Euclidean, hence floor here). */
  function FloorDiv(a: int, b: int): int
    requires b > 0
  {
    a / b
  }

  /** `Math.ceil(a / b)` for a positive divisor. */
  function CeilDiv(a: int, b: int): (q: int)
    requires b > 0
    ensures q * b >= a && (q - 1) * b < a
  {
    -((-a) / b)
  }

  /** The k-th occurrence of a record created at `start` recurring every `interval` days. */
  function Occurrence(start: int, interval: int, k: int): int {
    start + k * (interval * Day)
  }

  // ---------------------------------------------------------------------
  // Integer division facts
  // ---------------------------------------------------------------------

  lemma MulLe(a: int, b: int, c: int)
    requires a <= b && c >= 0
    ensures a * c <= b * c
  {
    assert b * c - a * c == (b - a) * c;
  }

  lemma DivUnique(a: int, b: int, q: int, r: int)
    requires b > 0 && a == q * b + r && 0 <= r < b
    ensures a / b == q
  {
    var q' := a / b;
    var r' := a % b;
    assert a == q' * b + r';
    if q' < q {
      MulLe(q' + 1, q, b);
      assert false;
    } else if q' > q {
      MulLe(q + 1, q', b);
      assert false;
    }
  }

  /** Dividing by `d` and then by `i` rounds down like dividing by `d * i` once. */
  lemma NestedFloor(a: int, d: int, i: int)
    requires d > 0 && i > 0
    ensures (a / d) / i == a / (d * i)
  {
    var q := a / (d * i);
    var r := a % (d * i);
    var s := r / d;
    var t := r % d;
    RemainderQuotient(r, d, i);
    Recombine(a, q, r, d, i, s, t);
    DivUnique(a, d, q * i + s, t);
    DivUnique(q * i + s, i, q, s);
  }

  /** A remainder below `d * i`, divided by `d`, is below `i`. */
  lemma RemainderQuotient(r: int, d: int, i: int)
    requires d > 0 && i > 0 && 0 <= r < d * i
    ensures 0 <= r / d < i
  {
    if r / d >= i {
      MulLe(i, r / d, d);
      assert false;
    }
  }

  /** Putting the two divisions back together gives `a` again. */
  lemma Recombine(a: int, q: int, r: int, d: int, i: int, s: int, t: int)
    requires a == q * (d * i) + r && r == s * d + t
    ensures a == (q * i + s) * d + t
  {
    assert q * (d * i) == (q * i) * d;
    assert (q * i + s) * d == (q * i) * d + s * d;
  }

  /** The nested-ceiling identity: `ceil(ceil(a / d) / i) == ceil(a / (d * i))`. */
  lemma NestedCeil(a: int, d: int, i: int)
    requires d > 0 && i > 0
    ensures CeilDiv(CeilDiv(a, d), i) == CeilDiv(a, d * i)
  {
    NestedFloor(-a, d, i);
  }

  /** `j * p <= e` exactly when `j` does not exceed `floor(e / p)`. */
  lemma MulLeIffDiv(j: int, p: int, e: int)
    requires p > 0
    ensures j * p <= e <==> j <= e / p
  {
    var q := e / p;
    assert e == q * p + e % p;
    if j <= q {
      MulLe(j, q, p);
    } else {
      MulLe(q + 1, j, p);
      assert (q + 1) * p == q * p + p;
    }
  }

  // ---------------------------------------------------------------------
  // occurrencesWithin
  // ---------------------------------------------------------------------

  /** `steps`: the index of the first occurrence at or after `from`. */
  function FirstStep(from: int, start: int, interval: int): int
    requires interval > 0
  {
    if start < from then CeilDiv(CeilDiv(from - start, Day), interval) else 0
  }

  /** `firstTime`. */
  function FirstTime(from: int, start: int, interval: int): int
    requires interval > 0
  {
    Occurrence(start, interval, FirstStep(from, start, interval))
  }

  /**
   * The number of occurrences in the window from `from` to
   * `from + horizonDays` days, both ends included; 0 for a missing or
   * non-positive interval.
   */
  function OccurrencesWithin(from: int, horizonDays: int, start: int, interval: int): (n: int)
    ensures interval <= 0 ==> n == 0
    ensures interval > 0 ==> (n == 0 <==> FirstTime(from, start, interval) > from + horizonDays * Day)
    ensures n >= 0
  {
    if interval <= 0 then 0
    else
      var firstTime := FirstTime(from, start, interval);
      var endTime := from + horizonDays * Day;
      if firstTime > endTime then 0
      else
        var remainingDays := FloorDiv(endTime - firstTime, Day);
        1 + FloorDiv(remainingDays, interval)
  }

  /** The first occurrence is the earliest one at or after `from`. */
  lemma {:induction false} FirstStepIsLeast(from: int, start: int, interval: int)
    requires interval > 0
    ensures FirstStep(from, start, interval) >= 0
    ensures FirstTime(from, start, interval) >= from
    ensures forall k :: k >= 0 && Occurrence(start, interval, k) >= from ==> k >= FirstStep(from, start, interval)
  {
    var p := interval * Day;
    var k0 := FirstStep(from, start, interval);
    if start < from {
      NestedCeil(from - start, Day, interval);
      assert Day * interval == p;
      assert k0 == CeilDiv(from - start, p);
      forall k | k >= 0 && Occurrence(start, interval, k) >= from
        ensures k >= k0
      {
        if k < k0 {
          MulLe(k, k0 - 1, p);
        }
      }
    }
  }

  /** A later occurrence index means a later instant. */
  lemma OccurrenceMonotone(start: int, interval: int, j: int, k: int)
    requires interval > 0 && j <= k
    ensures Occurrence(start, interval, j) <= Occurrence(start, interval, k)
  {
    MulLe(j, k, interval * Day);
  }

  /**
   * Exact count: an occurrence index k lies in the closed window exactly
   * when it is one of the `OccurrencesWithin` consecutive indices that
   * begin at the first step.
   */
  lemma {:induction false} OccurrencesExact(from: int, horizonDays: int, start: int, interval: int)
    requires interval > 0
    ensures forall k :: k >= 0 ==>
      (from <= Occurrence(start, interval, k) <= from + horizonDays * Day <==>
       FirstStep(from, start, interval) <= k < FirstStep(from, start, interval) + OccurrencesWithin(from, horizonDays, start, interval))
  {
    var p := interval * Day;
    var k0 := FirstStep(from, start, interval);
    var first := FirstTime(from, start, interval);
    var end := from + horizonDays * Day;
    var n := OccurrencesWithin(from, horizonDays, start, interval);
    FirstStepIsLeast(from, start, interval);
    forall k | k >= 0
      ensures from <= Occurrence(start, interval, k) <= end <==> k0 <= k < k0 + n
    {
      if k >= k0 {
        OccurrenceMonotone(start, interval, k0, k);
        assert Occurrence(start, interval, k) - first == (k - k0) * p;
        if first <= end {
          NestedFloor(end - first, Day, interval);
          assert Day * interval == p;
          MulLeIffDiv(k - k0, p, end - first);
        }
      }
    }
  }

  /** A longer horizon never counts fewer occurrences. */
  lemma HorizonMonotone(from: int, h1: int, h2: int, start: int, interval: int)
    requires h1 <= h2
    ensures OccurrencesWithin(from, h1, start, interval) <= OccurrencesWithin(from, h2, start, interval)
  {
    if interval > 0 {
      var k0 := FirstStep(from, start, interval);
      var n1 := OccurrencesWithin(from, h1, start, interval);
      if n1 > 0 {
        OccurrencesExact(from, h1, start, interval);
        OccurrencesExact(from, h2, start, interval);
        FirstStepIsLeast(from, start, interval);
        var k := k0 + n1 - 1;
        assert from <= Occurrence(start, interval, k) <= from + h1 * Day;
        MulLe(h1, h2, Day);
      }
    }
  }

  /**
   * The `while (next < now) next += rate days` loop: steps from `start`
   * to the first occurrence at or after `now`.
   */
  method NextOnOrAfter(start: int, now: int, rate: int) returns (next: int)
    requires rate > 0 || start >= now
    ensures now <= start ==> next == start
    ensures rate > 0 ==> next == FirstTime(now, start, rate)
    ensures next >= now
  {
    next := start;
    if rate <= 0 {
      return;
    }
    ghost var j := 0;
    FirstStepIsLeast(now, start, rate);
    ghost var k0 := FirstStep(now, start, rate);
    while next < now
      invariant 0 <= j <= k0
      invariant next == Occurrence(start, rate, j)
      decreases k0 - j
    {
      next := next + rate * Day;
      j := j + 1;
      assert next == Occurrence(start, rate, j);
    }
  }
}
