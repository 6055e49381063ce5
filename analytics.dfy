/**
 * The client-side analytics engine: totals, the expense breakdown by
 * category, the monthly trend, projected recurring spending, the list of
 * upcoming recurring expenses and the budget-versus-actual comparison.
 * The current instant `now` and the local-time month key are parameters.
 */
module Analytics {
  import opened Common
  import opened Text
  import opened Assoc
  import opened Sorting
  import opened Records
  import opened Recurrence
  import opened Grouping

  function IncomeAmt(t: Transaction): int { if t.IsIncome() then t.Amt() else 0 }
  /** Everything that is not INCOME counts as an expense in the totals and the trend. */
  function NonIncomeAmt(t: Transaction): int { if t.IsIncome() then 0 else t.Amt() }
  function ExpenseAmt(t: Transaction): int { if t.IsExpense() then t.Amt() else 0 }

  // ---------------------------------------------------------------------
  // getTotals
  // ---------------------------------------------------------------------

  datatype Totals = Totals(income: int, expenses: int, net: int)

  method GetTotals(txs: seq<Transaction>) returns (r: Totals)
    ensures r.income == SumOf(txs, IncomeAmt)
    ensures r.expenses == SumOf(txs, NonIncomeAmt)
    ensures r.net == r.income - r.expenses
    ensures r.income + r.expenses == SumOf(txs, Amt)
  {
    var income, expenses := 0, 0;
    var i := 0;
    while i < |txs|
      invariant 0 <= i <= |txs|
      invariant income == SumOf(txs[..i], IncomeAmt)
      invariant expenses == SumOf(txs[..i], NonIncomeAmt)
    {
      var t := txs[i];
      var amt := t.Amt();
      if LooseKind(t.txType) == Income {
        income := income + amt;
      } else {
        expenses := expenses + amt;
      }
      assert txs[..i + 1][..i] == txs[..i];
      i := i + 1;
    }
    assert txs[..|txs|] == txs;
    TotalsPartition(txs);
    r := Totals(income, expenses, income - expenses);
  }

  /** Income and expenses split every amount: each record is one or the other. */
  lemma {:induction false} TotalsPartition(txs: seq<Transaction>)
    ensures SumOf(txs, IncomeAmt) + SumOf(txs, NonIncomeAmt) == SumOf(txs, Amt)
    decreases |txs|
  {
    if |txs| > 0 {
      TotalsPartition(txs[..|txs| - 1]);
    }
  }

  // ---------------------------------------------------------------------
  // getCategoryBreakdown
  // ---------------------------------------------------------------------

  /** An expense is grouped under `t.category ?? "unknown"`; other records are skipped. */
  function BreakdownKey(t: Transaction): Option<string> {
    if t.IsExpense() then Some(t.category.GetOr("unknown")) else None
  }

  /** A slice is a `(categoryId, amount)` pair, in first-seen order of the category. */
  method GetCategoryBreakdown(txs: seq<Transaction>) returns (slices: Entries<string, int>)
    ensures slices == Group(txs, BreakdownKey, 0, Plus(Amt))
    ensures DistinctKeys(slices)
    ensures forall i :: 0 <= i < |slices| ==> slices[i].1 == SumOf(txs, Masked(Amt, BreakdownKey, slices[i].0))
    ensures forall c :: Has(slices, c) <==> KeyOccurs(txs, BreakdownKey, c)
    ensures SumOf(slices, EntryValue) == SumOf(txs, ExpenseAmt)
  {
    slices := SumInto([], [], txs, BreakdownKey, Amt);
    assert [] + txs == txs;
    BreakdownFacts(txs);
  }

  lemma BreakdownFacts(txs: seq<Transaction>)
    ensures DistinctKeys(Group(txs, BreakdownKey, 0, Plus(Amt)))
    ensures forall i :: 0 <= i < |Group(txs, BreakdownKey, 0, Plus(Amt))| ==>
      Group(txs, BreakdownKey, 0, Plus(Amt))[i].1 == SumOf(txs, Masked(Amt, BreakdownKey, Group(txs, BreakdownKey, 0, Plus(Amt))[i].0))
    ensures forall c :: Has(Group(txs, BreakdownKey, 0, Plus(Amt)), c) <==> KeyOccurs(txs, BreakdownKey, c)
    ensures SumOf(Group(txs, BreakdownKey, 0, Plus(Amt)), EntryValue) == SumOf(txs, ExpenseAmt)
  {
    var g := Group(txs, BreakdownKey, 0, Plus(Amt));
    GroupGet(txs, BreakdownKey, 0, Plus(Amt));
    forall i | 0 <= i < |g|
      ensures g[i].1 == SumOf(txs, Masked(Amt, BreakdownKey, g[i].0))
    {
      GetAt(g, i);
      GroupSumAt(txs, BreakdownKey, Amt, g[i].0);
    }
    forall c ensures Has(g, c) <==> KeyOccurs(txs, BreakdownKey, c) {
      GroupKeys(txs, BreakdownKey, 0, Plus(Amt), c);
    }
    BreakdownTotal(txs);
  }

  lemma BreakdownTotal(txs: seq<Transaction>)
    ensures SumOf(Group(txs, BreakdownKey, 0, Plus(Amt)), EntryValue) == SumOf(txs, ExpenseAmt)
  {
    GroupTotal(txs, BreakdownKey, Amt);
    forall i | 0 <= i < |txs| ensures Keyed(Amt, BreakdownKey)(txs[i]) == ExpenseAmt(txs[i]) {
      assert BreakdownKey(txs[i]).Some? <==> txs[i].IsExpense();
      assert Amt(txs[i]) == txs[i].Amt();
    }
    SumOfEq(txs, Keyed(Amt, BreakdownKey), ExpenseAmt);
  }

  // ---------------------------------------------------------------------
  // getMonthlyTrend
  // ---------------------------------------------------------------------

  datatype MonthlyPoint = MonthlyPoint(month: string, income: int, expenses: int)

  /** A record with a readable `created` goes to the bucket `monthKey(created)`; the others are skipped. */
  function MonthSlot(monthKey: int -> string): Transaction -> Option<string> {
    (t: Transaction) => if t.created.At? then Some(monthKey(t.created.ms)) else None
  }

  function Buckets(txs: seq<Transaction>, monthKey: int -> string): Entries<string, (int, int)> {
    Group(txs, MonthSlot(monthKey), (0, 0), PlusPair(IncomeAmt, NonIncomeAmt))
  }

  /** The order `(a, b) => a < b ? -1 : 1` sorts by: ascending month key. */
  function MonthLe(a: (string, (int, int)), b: (string, (int, int))): bool {
    a.0 == b.0 || StrLt(a.0, b.0)
  }

  function EntryKey(e: (string, (int, int))): string { e.0 }

  function ToPoint(e: (string, (int, int))): MonthlyPoint { MonthlyPoint(e.0, e.1.0, e.1.1) }
  function PointIncome(p: MonthlyPoint): int { p.income }
  function PointExpenses(p: MonthlyPoint): int { p.expenses }

  lemma MonthLeTotal()
    ensures TotalPreorder(MonthLe)
  {
    forall a, b ensures MonthLe(a, b) || MonthLe(b, a) {
      if a.0 != b.0 {
        StrLtTotal(a.0, b.0);
      }
    }
    forall a, b, c | MonthLe(a, b) && MonthLe(b, c) ensures MonthLe(a, c) {
      if a.0 != b.0 && b.0 != c.0 {
        StrLtTrans(a.0, b.0, c.0);
      }
    }
  }

  method GetMonthlyTrend(txs: seq<Transaction>, monthKey: int -> string) returns (points: seq<MonthlyPoint>)
    ensures points == Map(SortBy(Buckets(txs, monthKey), MonthLe), ToPoint)
    ensures forall i, j :: 0 <= i < j < |points| ==> StrLt(points[i].month, points[j].month)
    ensures forall i :: 0 <= i < |points| ==>
      points[i].income == SumOf(txs, Masked(IncomeAmt, MonthSlot(monthKey), points[i].month)) &&
      points[i].expenses == SumOf(txs, Masked(NonIncomeAmt, MonthSlot(monthKey), points[i].month))
    ensures SumOf(points, PointIncome) + SumOf(points, PointExpenses) == SumOf(txs, Keyed(Amt, MonthSlot(monthKey)))
  {
    var buckets: Entries<string, (int, int)> := [];
    var i := 0;
    while i < |txs|
      invariant 0 <= i <= |txs|
      invariant buckets == Buckets(txs[..i], monthKey)
    {
      var t := txs[i];
      assert txs[..i + 1] == txs[..i] + [t];
      GroupSnoc(txs[..i], t, MonthSlot(monthKey), (0, 0), PlusPair(IncomeAmt, NonIncomeAmt));
      if t.created.At? {
        var key := monthKey(t.created.ms);
        assert MonthSlot(monthKey)(t) == Some(key);
        var bucket := Get(buckets, key).GetOr((0, 0));
        ghost var expected := PlusPair(IncomeAmt, NonIncomeAmt)(bucket, t);
        assert expected == (bucket.0 + IncomeAmt(t), bucket.1 + NonIncomeAmt(t));
        if LooseKind(t.txType) == Income {
          bucket := (bucket.0 + t.Amt(), bucket.1);
        } else {
          bucket := (bucket.0, bucket.1 + t.Amt());
        }
        assert bucket == expected;
        buckets := Put(buckets, key, bucket);
      } else {
        assert MonthSlot(monthKey)(t) == None;
      }
      i := i + 1;
    }
    assert txs[..|txs|] == txs;
    points := Map(SortBy(buckets, MonthLe), ToPoint);
    TrendFacts(txs, monthKey);
  }

  lemma TrendFacts(txs: seq<Transaction>, monthKey: int -> string)
    ensures var points := Map(SortBy(Buckets(txs, monthKey), MonthLe), ToPoint);
      (forall i, j :: 0 <= i < j < |points| ==> StrLt(points[i].month, points[j].month)) &&
      (forall i :: 0 <= i < |points| ==>
        points[i].income == SumOf(txs, Masked(IncomeAmt, MonthSlot(monthKey), points[i].month)) &&
        points[i].expenses == SumOf(txs, Masked(NonIncomeAmt, MonthSlot(monthKey), points[i].month))) &&
      SumOf(points, PointIncome) + SumOf(points, PointExpenses) == SumOf(txs, Keyed(Amt, MonthSlot(monthKey)))
  {
    TrendOrdered(txs, monthKey);
    TrendSums(txs, monthKey);
    TrendTotal(txs, monthKey);
  }

  /** The months of the sorted points strictly increase. */
  lemma TrendOrdered(txs: seq<Transaction>, monthKey: int -> string)
    ensures var points := Map(SortBy(Buckets(txs, monthKey), MonthLe), ToPoint);
      forall i, j :: 0 <= i < j < |points| ==> StrLt(points[i].month, points[j].month)
  {
    var key := MonthSlot(monthKey);
    var b := Buckets(txs, monthKey);
    var sorted := SortBy(b, MonthLe);
    var points := Map(sorted, ToPoint);
    GroupGet(txs, key, (0, 0), PlusPair(IncomeAmt, NonIncomeAmt));
    MonthLeTotal();
    SortBySorted(b, MonthLe);
    assert DistinctBy(b, EntryKey);
    PermutationDistinctBy(b, sorted, EntryKey);
    forall i, j | 0 <= i < j < |points|
      ensures StrLt(points[i].month, points[j].month)
    {
      assert MonthLe(sorted[i], sorted[j]);
      assert EntryKey(sorted[i]) != EntryKey(sorted[j]);
    }
  }

  /** Each point holds its month's income and non-income sums. */
  lemma TrendSums(txs: seq<Transaction>, monthKey: int -> string)
    ensures var points := Map(SortBy(Buckets(txs, monthKey), MonthLe), ToPoint);
      forall i :: 0 <= i < |points| ==>
        points[i].income == SumOf(txs, Masked(IncomeAmt, MonthSlot(monthKey), points[i].month)) &&
        points[i].expenses == SumOf(txs, Masked(NonIncomeAmt, MonthSlot(monthKey), points[i].month))
  {
    var key := MonthSlot(monthKey);
    var b := Buckets(txs, monthKey);
    var sorted := SortBy(b, MonthLe);
    var points := Map(sorted, ToPoint);
    forall i | 0 <= i < |points|
      ensures points[i].income == SumOf(txs, Masked(IncomeAmt, key, points[i].month))
      ensures points[i].expenses == SumOf(txs, Masked(NonIncomeAmt, key, points[i].month))
    {
      SortByMembers(b, MonthLe, sorted[i]);
      PointIn(txs, key, b, sorted[i]);
    }
  }

  /** A bucket holds the two sums of its month. */
  lemma PointIn(txs: seq<Transaction>, key: Transaction -> Option<string>, b: Entries<string, (int, int)>, e: (string, (int, int)))
    requires b == Group(txs, key, (0, 0), PlusPair(IncomeAmt, NonIncomeAmt)) && e in b
    ensures e.1.0 == SumOf(txs, Masked(IncomeAmt, key, e.0))
    ensures e.1.1 == SumOf(txs, Masked(NonIncomeAmt, key, e.0))
  {
    var j :| 0 <= j < |b| && b[j] == e;
    GroupGet(txs, key, (0, 0), PlusPair(IncomeAmt, NonIncomeAmt));
    GetAt(b, j);
    GroupKeys(txs, key, (0, 0), PlusPair(IncomeAmt, NonIncomeAmt), b[j].0);
    assert Has(b, b[j].0);
    GroupPairAt(txs, key, IncomeAmt, NonIncomeAmt, b[j].0);
  }

  /** Income and expenses over all points add up to every dated record's amount. */
  lemma TrendTotal(txs: seq<Transaction>, monthKey: int -> string)
    ensures var points := Map(SortBy(Buckets(txs, monthKey), MonthLe), ToPoint);
      SumOf(points, PointIncome) + SumOf(points, PointExpenses) == SumOf(txs, Keyed(Amt, MonthSlot(monthKey)))
  {
    var key := MonthSlot(monthKey);
    var b := Buckets(txs, monthKey);
    var sorted := SortBy(b, MonthLe);
    MonthLeTotal();
    SortBySorted(b, MonthLe);
    GroupPairTotal(txs, key, IncomeAmt, NonIncomeAmt);
    SumOfPermutation(b, sorted, PairFirst);
    SumOfPermutation(b, sorted, PairSecond);
    SumOfMap(sorted, ToPoint, PointIncome, PairFirst);
    SumOfMap(sorted, ToPoint, PointExpenses, PairSecond);
    SumOfPlusKeyed(txs, key);
  }

  lemma {:induction false} SumOfPlusKeyed(txs: seq<Transaction>, key: Transaction -> Option<string>)
    ensures SumOf(txs, Keyed(IncomeAmt, key)) + SumOf(txs, Keyed(NonIncomeAmt, key)) == SumOf(txs, Keyed(Amt, key))
    decreases |txs|
  {
    if |txs| > 0 {
      SumOfPlusKeyed(txs[..|txs| - 1], key);
    }
  }

  // ---------------------------------------------------------------------
  // getProjectedSpending
  // ---------------------------------------------------------------------

  /** A record the recurring projections consider: a recurring expense with a truthy rate and a readable `created`. */
  predicate Recurs(t: Transaction) {
    t.recurring && t.HasRate() && t.IsExpense() && t.created.At?
  }

  /** What one record adds to the projection: its occurrences in the horizon times its amount. */
  function Projected(now: int, daysAhead: int, t: Transaction): int {
    if Recurs(t) then OccurrencesWithin(now, daysAhead, t.created.ms, t.recurringRate.value) * t.Amt() else 0
  }

  function ProjectedPart(now: int, daysAhead: int): Transaction -> int {
    (t: Transaction) => Projected(now, daysAhead, t)
  }

  method GetProjectedSpending(txs: seq<Transaction>, now: int, daysAhead: int) returns (total: int)
    ensures total == SumOf(txs, ProjectedPart(now, daysAhead))
  {
    total := 0;
    var i := 0;
    while i < |txs|
      invariant 0 <= i <= |txs|
      invariant total == SumOf(txs[..i], ProjectedPart(now, daysAhead))
    {
      var t := txs[i];
      assert txs[..i + 1][..i] == txs[..i];
      if t.recurring && t.recurringRate.Some? && t.recurringRate.value != 0
         && LooseKind(t.txType) == Expense && t.created.At? {
        var n := OccurrencesWithin(now, daysAhead, t.created.ms, t.recurringRate.value);
        total := total + n * t.Amt();
      }
      i := i + 1;
    }
    assert txs[..|txs|] == txs;
  }

  /** With non-negative amounts, looking further ahead never projects less. */
  lemma ProjectionMonotone(txs: seq<Transaction>, now: int, d1: int, d2: int)
    requires d1 <= d2
    requires forall i :: 0 <= i < |txs| ==> txs[i].Amt() >= 0
    ensures SumOf(txs, ProjectedPart(now, d1)) <= SumOf(txs, ProjectedPart(now, d2))
  {
    forall i | 0 <= i < |txs|
      ensures ProjectedPart(now, d1)(txs[i]) <= ProjectedPart(now, d2)(txs[i])
    {
      var t := txs[i];
      if Recurs(t) {
        HorizonMonotone(now, d1, d2, t.created.ms, t.recurringRate.value);
        MulLe(OccurrencesWithin(now, d1, t.created.ms, t.recurringRate.value),
              OccurrencesWithin(now, d2, t.created.ms, t.recurringRate.value), t.Amt());
      }
    }
    SumOfLe(txs, ProjectedPart(now, d1), ProjectedPart(now, d2));
  }

  // ---------------------------------------------------------------------
  // listUpcomingRecurring
  // ---------------------------------------------------------------------

  /** `nextDate` is an instant here; the source renders it as an ISO text. */
  datatype UpcomingItem = UpcomingItem(id: string, description: string, amount: int, nextDate: int, intervalDays: int)

  /** The stepping loop ends: the rate is positive, or the record starts at or after `now`. */
  predicate StepsEnd(now: int, t: Transaction) {
    Recurs(t) ==> t.recurringRate.value > 0 || t.created.ms >= now
  }

  /** `t.description || t.target || "Recurring expense"`: the empty text is skipped like an absent one. */
  function Describe(t: Transaction): string {
    if t.description.Some? && t.description.value != "" then t.description.value
    else if t.target.Some? && t.target.value != "" then t.target.value
    else "Recurring expense"
  }

  /** The first occurrence of a recurring record at or after `now`. */
  function NextDate(now: int, t: Transaction): int
    requires Recurs(t) && StepsEnd(now, t)
  {
    if t.recurringRate.value > 0 then FirstTime(now, t.created.ms, t.recurringRate.value) else t.created.ms
  }

  function UpcomingOf(now: int, daysAhead: int, t: Transaction): Option<UpcomingItem>
    requires StepsEnd(now, t)
  {
    if Recurs(t) && NextDate(now, t) <= now + daysAhead * Day then
      Some(UpcomingItem(t.transactionId, Describe(t), t.Amt(), NextDate(now, t), t.recurringRate.value))
    else None
  }

  /** The items in the order the records come, before sorting. */
  function Upcoming(txs: seq<Transaction>, now: int, daysAhead: int): seq<UpcomingItem>
    requires forall i :: 0 <= i < |txs| ==> StepsEnd(now, txs[i])
    decreases |txs|
  {
    if |txs| == 0 then []
    else
      var rest := Upcoming(txs[..|txs| - 1], now, daysAhead);
      match UpcomingOf(now, daysAhead, txs[|txs| - 1])
      case None => rest
      case Some(item) => rest + [item]
  }

  /** `a.nextDate.localeCompare(b.nextDate)` on ISO texts of one format: by instant. */
  function SoonerOrSame(a: UpcomingItem, b: UpcomingItem): bool { a.nextDate <= b.nextDate }

  method ListUpcomingRecurring(txs: seq<Transaction>, now: int, daysAhead: int) returns (items: seq<UpcomingItem>)
    requires forall i :: 0 <= i < |txs| ==> StepsEnd(now, txs[i])
    ensures items == SortBy(Upcoming(txs, now, daysAhead), SoonerOrSame)
    ensures SortedBy(items, SoonerOrSame)
    ensures multiset(items) == multiset(Upcoming(txs, now, daysAhead))
  {
    var acc: seq<UpcomingItem> := [];
    var end := now + daysAhead * Day;
    var i := 0;
    while i < |txs|
      invariant 0 <= i <= |txs|
      invariant acc == Upcoming(txs[..i], now, daysAhead)
    {
      var t := txs[i];
      assert txs[..i + 1][..i] == txs[..i];
      if t.recurring && t.recurringRate.Some? && t.recurringRate.value != 0
         && LooseKind(t.txType) == Expense && t.created.At? {
        var next := NextOnOrAfter(t.created.ms, now, t.recurringRate.value);
        assert next == NextDate(now, t);
        if next <= end {
          acc := acc + [UpcomingItem(t.transactionId, Describe(t), t.Amt(), next, t.recurringRate.value)];
        }
      }
      i := i + 1;
    }
    assert txs[..|txs|] == txs;
    items := SortBy(acc, SoonerOrSame);
    SortBySorted(acc, SoonerOrSame);
  }

  /**
   * A recurring record with a positive rate is listed exactly when the
   * projection counts at least one occurrence for it, and its date is the
   * earliest occurrence at or after `now`.
   */
  lemma UpcomingMatchesProjection(now: int, daysAhead: int, t: Transaction)
    requires Recurs(t) && t.recurringRate.value > 0
    ensures UpcomingOf(now, daysAhead, t).Some? <==> OccurrencesWithin(now, daysAhead, t.created.ms, t.recurringRate.value) > 0
    ensures UpcomingOf(now, daysAhead, t).Some? ==>
      var d := UpcomingOf(now, daysAhead, t).value.nextDate;
      d >= now && d <= now + daysAhead * Day &&
      forall k :: k >= 0 && Occurrence(t.created.ms, t.recurringRate.value, k) >= now ==>
        d <= Occurrence(t.created.ms, t.recurringRate.value, k)
  {
    var start, rate := t.created.ms, t.recurringRate.value;
    FirstStepIsLeast(now, start, rate);
    forall k | k >= 0 && Occurrence(start, rate, k) >= now
      ensures FirstTime(now, start, rate) <= Occurrence(start, rate, k)
    {
      OccurrenceMonotone(start, rate, FirstStep(now, start, rate), k);
    }
  }

  /** Each of the `items` is the item of some record of `txs`. */
  predicate FromRecords(items: seq<UpcomingItem>, txs: seq<Transaction>, now: int, daysAhead: int)
    requires forall i :: 0 <= i < |txs| ==> StepsEnd(now, txs[i])
  {
    forall j :: 0 <= j < |items| ==>
      exists i :: 0 <= i < |txs| && UpcomingOf(now, daysAhead, txs[i]) == Some(items[j])
  }

  /** Every listed item comes from a recurring expense, falls inside the horizon and carries its rate. */
  lemma {:induction false} UpcomingFromRecords(txs: seq<Transaction>, now: int, daysAhead: int)
    requires forall i :: 0 <= i < |txs| ==> StepsEnd(now, txs[i])
    ensures FromRecords(Upcoming(txs, now, daysAhead), txs, now, daysAhead)
    ensures forall i :: 0 <= i < |txs| && UpcomingOf(now, daysAhead, txs[i]).Some? ==>
      UpcomingOf(now, daysAhead, txs[i]).value in Upcoming(txs, now, daysAhead)
  {
    UpcomingSound(txs, now, daysAhead);
    UpcomingComplete(txs, now, daysAhead);
  }

  /** Every listed item is the item of some record. */
  lemma {:induction false} UpcomingSound(txs: seq<Transaction>, now: int, daysAhead: int)
    requires forall i :: 0 <= i < |txs| ==> StepsEnd(now, txs[i])
    ensures FromRecords(Upcoming(txs, now, daysAhead), txs, now, daysAhead)
    decreases |txs|
  {
    if |txs| > 0 {
      var p := txs[..|txs| - 1];
      UpcomingSound(p, now, daysAhead);
      var rest := Upcoming(p, now, daysAhead);
      var u := Upcoming(txs, now, daysAhead);
      var w := |txs| - 1;
      assert u == if UpcomingOf(now, daysAhead, txs[w]).Some? then rest + [UpcomingOf(now, daysAhead, txs[w]).value] else rest;
      forall j | 0 <= j < |u|
        ensures exists i :: 0 <= i < |txs| && UpcomingOf(now, daysAhead, txs[i]) == Some(u[j])
      {
        if j < |rest| {
          assert u[j] == rest[j];
          var i :| 0 <= i < |p| && UpcomingOf(now, daysAhead, p[i]) == Some(rest[j]);
          assert txs[i] == p[i];
        } else {
          assert UpcomingOf(now, daysAhead, txs[w]) == Some(u[j]);
        }
      }
      assert FromRecords(u, txs, now, daysAhead);
    } else {
      assert Upcoming(txs, now, daysAhead) == [];
    }
  }

  /** Every record that has an item has it listed. */
  lemma {:induction false} UpcomingComplete(txs: seq<Transaction>, now: int, daysAhead: int)
    requires forall i :: 0 <= i < |txs| ==> StepsEnd(now, txs[i])
    ensures forall i :: 0 <= i < |txs| && UpcomingOf(now, daysAhead, txs[i]).Some? ==>
      UpcomingOf(now, daysAhead, txs[i]).value in Upcoming(txs, now, daysAhead)
    decreases |txs|
  {
    if |txs| > 0 {
      var p := txs[..|txs| - 1];
      UpcomingComplete(p, now, daysAhead);
      var rest := Upcoming(p, now, daysAhead);
      var u := Upcoming(txs, now, daysAhead);
      var w := |txs| - 1;
      assert u == if UpcomingOf(now, daysAhead, txs[w]).Some? then rest + [UpcomingOf(now, daysAhead, txs[w]).value] else rest;
      forall i | 0 <= i < |txs| && UpcomingOf(now, daysAhead, txs[i]).Some?
        ensures UpcomingOf(now, daysAhead, txs[i]).value in u
      {
        if i < |p| {
          assert txs[i] == p[i];
        }
      }
    }
  }

  // ---------------------------------------------------------------------
  // getBudgetComparison
  // ---------------------------------------------------------------------

  datatype BudgetRow = BudgetRow(categoryId: string, budgetAmount: int, actualSpent: int, remaining: int)

  /** `it.category?.id ?? it.categoryId ?? "unknown"`. */
  function ItemKey(it: BudgetItem): Option<string> {
    Some(if it.category.Some? then it.category.value.id else it.categoryId.GetOr("unknown"))
  }

  function ItemAmount(it: BudgetItem): int { it.amount }

  /** The items of all budgets, budget after budget. */
  function AllItems(budgets: seq<Budget>): seq<BudgetItem>
    decreases |budgets|
  {
    if |budgets| == 0 then [] else AllItems(budgets[..|budgets| - 1]) + budgets[|budgets| - 1].items
  }

  /** `new Set(xs)`: each value once, at its first position. */
  function Dedup(xs: seq<string>): (r: seq<string>)
    ensures forall x :: x in r <==> x in xs
    ensures DistinctBy(r, Id)
    decreases |xs|
  {
    if |xs| == 0 then []
    else
      var r := Dedup(xs[..|xs| - 1]);
      assert forall x :: x in xs <==> x in xs[..|xs| - 1] || x == xs[|xs| - 1];
      if xs[|xs| - 1] in r then r else r + [xs[|xs| - 1]]
  }

  function Id(s: string): string { s }

  function RowFor(actuals: Entries<string, int>, budgetByCat: Entries<string, int>): string -> BudgetRow {
    (cid: string) => var b := Get(budgetByCat, cid).GetOr(0);
           var a := Get(actuals, cid).GetOr(0);
           BudgetRow(cid, b, a, b - a)
  }

  /** `(a, b) => b.actualSpent - a.actualSpent`: larger spend first. */
  function SpentMoreOrSame(a: BudgetRow, b: BudgetRow): bool { a.actualSpent >= b.actualSpent }

  function RowId(r: BudgetRow): string { r.categoryId }

  function BudgetByCategory(budgets: seq<Budget>): Entries<string, int> {
    Group(AllItems(budgets), ItemKey, 0, Plus(ItemAmount))
  }

  function ComparisonRows(budgets: seq<Budget>, txs: seq<Transaction>): seq<BudgetRow> {
    var actuals := Group(txs, BreakdownKey, 0, Plus(Amt));
    var budgetByCat := BudgetByCategory(budgets);
    Map(Dedup(Keys(actuals) + Keys(budgetByCat)), RowFor(actuals, budgetByCat))
  }

  method SumBudgetsByCategory(budgets: seq<Budget>) returns (m: Entries<string, int>)
    ensures m == BudgetByCategory(budgets)
  {
    m := [];
    var i := 0;
    while i < |budgets|
      invariant 0 <= i <= |budgets|
      invariant m == Group(AllItems(budgets[..i]), ItemKey, 0, Plus(ItemAmount))
    {
      assert AllItems(budgets[..i + 1]) == AllItems(budgets[..i]) + budgets[i].items by {
        assert budgets[..i + 1][..i] == budgets[..i];
      }
      m := SumInto(m, AllItems(budgets[..i]), budgets[i].items, ItemKey, ItemAmount);
      i := i + 1;
    }
    assert budgets[..|budgets|] == budgets;
  }

  method GetBudgetComparison(budgets: seq<Budget>, txs: seq<Transaction>) returns (rows: seq<BudgetRow>)
    ensures rows == SortBy(ComparisonRows(budgets, txs), SpentMoreOrSame)
    ensures SortedBy(rows, SpentMoreOrSame)
    ensures DistinctBy(rows, RowId)
    ensures forall c :: (exists i :: 0 <= i < |rows| && rows[i].categoryId == c) <==>
      KeyOccurs(txs, BreakdownKey, c) || KeyOccurs(AllItems(budgets), ItemKey, c)
    ensures forall i :: 0 <= i < |rows| ==>
      && rows[i].budgetAmount == SumOf(AllItems(budgets), Masked(ItemAmount, ItemKey, rows[i].categoryId))
      && rows[i].actualSpent == SumOf(txs, Masked(Amt, BreakdownKey, rows[i].categoryId))
      && rows[i].remaining == rows[i].budgetAmount - rows[i].actualSpent
  {
    var actuals := GetCategoryBreakdown(txs);
    var budgetByCat := SumBudgetsByCategory(budgets);
    var ids := Dedup(Keys(actuals) + Keys(budgetByCat));
    var acc := BuildRows(ids, actuals, budgetByCat);
    rows := SortBy(acc, SpentMoreOrSame);
    ComparisonOrder(budgets, txs);
    forall c ensures (exists i :: 0 <= i < |rows| && rows[i].categoryId == c) <==>
                     KeyOccurs(txs, BreakdownKey, c) || KeyOccurs(AllItems(budgets), ItemKey, c) {
      ComparisonKeys(budgets, txs, c);
    }
    forall i | 0 <= i < |rows|
      ensures && rows[i].budgetAmount == SumOf(AllItems(budgets), Masked(ItemAmount, ItemKey, rows[i].categoryId))
              && rows[i].actualSpent == SumOf(txs, Masked(Amt, BreakdownKey, rows[i].categoryId))
              && rows[i].remaining == rows[i].budgetAmount - rows[i].actualSpent
    {
      ComparisonValues(budgets, txs, i);
    }
  }

  /** The loop over the union of category ids that pushes one row per id. */
  method BuildRows(ids: seq<string>, actuals: Entries<string, int>, budgetByCat: Entries<string, int>)
    returns (acc: seq<BudgetRow>)
    ensures acc == Map(ids, RowFor(actuals, budgetByCat))
  {
    acc := [];
    var i := 0;
    while i < |ids|
      invariant 0 <= i <= |ids|
      invariant acc == Map(ids[..i], RowFor(actuals, budgetByCat))
    {
      var cid := ids[i];
      var budgetAmount := Get(budgetByCat, cid).GetOr(0);
      var actualSpent := Get(actuals, cid).GetOr(0);
      acc := acc + [BudgetRow(cid, budgetAmount, actualSpent, budgetAmount - actualSpent)];
      assert ids[..i + 1] == ids[..i] + [cid];
      MapSnoc(ids[..i], cid, RowFor(actuals, budgetByCat));
      i := i + 1;
    }
    assert ids[..|ids|] == ids;
  }

  /** The rows come sorted by spend, one per category. */
  lemma ComparisonOrder(budgets: seq<Budget>, txs: seq<Transaction>)
    ensures SortedBy(SortBy(ComparisonRows(budgets, txs), SpentMoreOrSame), SpentMoreOrSame)
    ensures DistinctBy(SortBy(ComparisonRows(budgets, txs), SpentMoreOrSame), RowId)
  {
    var actuals := Group(txs, BreakdownKey, 0, Plus(Amt));
    var budgetByCat := BudgetByCategory(budgets);
    var ids := Dedup(Keys(actuals) + Keys(budgetByCat));
    var unsorted := ComparisonRows(budgets, txs);
    SortBySorted(unsorted, SpentMoreOrSame);
    forall i, j | 0 <= i < j < |unsorted| ensures RowId(unsorted[i]) != RowId(unsorted[j]) {
      assert Id(ids[i]) != Id(ids[j]);
    }
    PermutationDistinctBy(unsorted, SortBy(unsorted, SpentMoreOrSame), RowId);
  }

  /** A category has a row exactly when some expense or some budget item is filed under it. */
  lemma ComparisonKeys(budgets: seq<Budget>, txs: seq<Transaction>, c: string)
    ensures var rows := SortBy(ComparisonRows(budgets, txs), SpentMoreOrSame);
      (exists i :: 0 <= i < |rows| && rows[i].categoryId == c) <==>
      KeyOccurs(txs, BreakdownKey, c) || KeyOccurs(AllItems(budgets), ItemKey, c)
  {
    var actuals := Group(txs, BreakdownKey, 0, Plus(Amt));
    var budgetByCat := BudgetByCategory(budgets);
    var ids := Dedup(Keys(actuals) + Keys(budgetByCat));
    var unsorted := ComparisonRows(budgets, txs);
    assert unsorted == Map(ids, RowFor(actuals, budgetByCat));
    ComparisonIds(budgets, txs, c);
    SortedHasRow(unsorted, c);
    MapRowIds(ids, actuals, budgetByCat, c);
  }

  /** Each id gets one row, filed under that id. */
  lemma MapRowIds(ids: seq<string>, actuals: Entries<string, int>, budgetByCat: Entries<string, int>, c: string)
    ensures var rows := Map(ids, RowFor(actuals, budgetByCat));
      (exists j :: 0 <= j < |rows| && rows[j].categoryId == c) <==> c in ids
  {
    var rows := Map(ids, RowFor(actuals, budgetByCat));
    if c in ids {
      var j :| 0 <= j < |ids| && ids[j] == c;
      assert rows[j].categoryId == c;
    }
  }

  /** The union of ids holds a category exactly when an expense or a budget item is filed under it. */
  lemma ComparisonIds(budgets: seq<Budget>, txs: seq<Transaction>, c: string)
    ensures c in Dedup(Keys(Group(txs, BreakdownKey, 0, Plus(Amt))) + Keys(BudgetByCategory(budgets))) <==>
      KeyOccurs(txs, BreakdownKey, c) || KeyOccurs(AllItems(budgets), ItemKey, c)
  {
    GroupKeys(txs, BreakdownKey, 0, Plus(Amt), c);
    GroupKeys(AllItems(budgets), ItemKey, 0, Plus(ItemAmount), c);
    KeysHas(Group(txs, BreakdownKey, 0, Plus(Amt)), c);
    KeysHas(BudgetByCategory(budgets), c);
  }

  /** Sorting keeps the set of categories that have a row. */
  lemma SortedHasRow(unsorted: seq<BudgetRow>, c: string)
    ensures var rows := SortBy(unsorted, SpentMoreOrSame);
      (exists i :: 0 <= i < |rows| && rows[i].categoryId == c) <==>
      (exists j :: 0 <= j < |unsorted| && unsorted[j].categoryId == c)
  {
    var rows := SortBy(unsorted, SpentMoreOrSame);
    if exists j :: 0 <= j < |unsorted| && unsorted[j].categoryId == c {
      var j :| 0 <= j < |unsorted| && unsorted[j].categoryId == c;
      SortByMembers(unsorted, SpentMoreOrSame, unsorted[j]);
      var i :| 0 <= i < |rows| && rows[i] == unsorted[j];
    }
    if exists i :: 0 <= i < |rows| && rows[i].categoryId == c {
      var i :| 0 <= i < |rows| && rows[i].categoryId == c;
      SortByMembers(unsorted, SpentMoreOrSame, rows[i]);
      var j :| 0 <= j < |unsorted| && unsorted[j] == rows[i];
    }
  }


  /** Each row carries its category's budgeted total, its actual spend and their difference. */
  lemma ComparisonValues(budgets: seq<Budget>, txs: seq<Transaction>, i: nat)
    requires i < |ComparisonRows(budgets, txs)|
    ensures var r := SortBy(ComparisonRows(budgets, txs), SpentMoreOrSame)[i];
      && r.budgetAmount == SumOf(AllItems(budgets), Masked(ItemAmount, ItemKey, r.categoryId))
      && r.actualSpent == SumOf(txs, Masked(Amt, BreakdownKey, r.categoryId))
      && r.remaining == r.budgetAmount - r.actualSpent
  {
    var actuals := Group(txs, BreakdownKey, 0, Plus(Amt));
    var budgetByCat := BudgetByCategory(budgets);
    var ids := Dedup(Keys(actuals) + Keys(budgetByCat));
    var unsorted := ComparisonRows(budgets, txs);
    var rows := SortBy(unsorted, SpentMoreOrSame);
    assert rows[i] in multiset(unsorted);
    var j :| 0 <= j < |unsorted| && unsorted[j] == rows[i];
    GroupSumAt(txs, BreakdownKey, Amt, ids[j]);
    GroupSumAt(AllItems(budgets), ItemKey, ItemAmount, ids[j]);
  }

  lemma KeysHas<V>(a: Entries<string, V>, c: string)
    ensures c in Keys(a) <==> Has(a, c)
  {
    if Has(a, c) {
      var i :| 0 <= i < |a| && a[i].0 == c;
      assert Keys(a)[i] == c;
    }
  }
}
