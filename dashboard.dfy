/**
 * The dashboard's derived views: the category resolution it applies to
 * transactions, the expense sums per category, the three most used budgets
 * and the ten most recent transactions.
 */
module Dashboard {
  import opened Common
  import opened Text
  import opened Assoc
  import opened Sorting
  import opened Records
  import opened Grouping
  import opened CategoryLookup

  /** `nameById.has(id)`: `nameById` has one key per category id. */
  predicate KnownId(cats: seq<Category>, id: string) {
    exists i :: 0 <= i < |cats| && cats[i].id == id
  }

  /**
   * `normalizeTxCategoryId`: a known `categoryId` wins; otherwise the
   * legacy `category` text, when it is not empty, is looked up by its
   * lower-cased trimmed form; otherwise there is none.
   */
  function ResolveCategory(cats: seq<Category>, byName: Entries<string, string>, t: Transaction): (r: Option<string>)
    ensures t.categoryId.Some? && t.categoryId.value != "" && KnownId(cats, t.categoryId.value) ==>
      r == t.categoryId
    ensures !(t.categoryId.Some? && t.categoryId.value != "" && KnownId(cats, t.categoryId.value)) ==>
      r == if t.category.None? || t.category.value == "" then None else Get(byName, NormKey(t.category.value))
  {
    if t.categoryId.Some? && t.categoryId.value != "" && KnownId(cats, t.categoryId.value) then t.categoryId
    else if t.category.None? || t.category.value == "" then None
    else Get(byName, NormKey(t.category.value))
  }

  function Resolver(cats: seq<Category>, byName: Entries<string, string>): Transaction -> Option<string> {
    (t: Transaction) => ResolveCategory(cats, byName, t)
  }

  /**
   * With the map `categoryNameToId` builds, a transaction resolves to a
   * category id, by its own id or through a category entered under its
   * legacy text; never to an id no category has.
   */
  lemma ResolvesToKnownId(cats: seq<Category>, t: Transaction)
    ensures var r := ResolveCategory(cats, NameToId(cats), t);
      r.Some? ==> KnownId(cats, r.value)
  {
    var r := ResolveCategory(cats, NameToId(cats), t);
    if !(t.categoryId.Some? && t.categoryId.value != "" && KnownId(cats, t.categoryId.value))
       && t.category.Some? && t.category.value != ""
    {
      var k := NormKey(t.category.value);
      NameToIdGet(cats, k);
      if r.Some? {
        LastEnteredIsLast(cats, Under(k));
        var i :| LastUnder(cats, i, Under(k)) && cats[i].id == r.value;
      }
    }
  }

  /** `expenseByCat`, with a missing amount read as 0. */
  method ExpenseByCat(cats: seq<Category>, byName: Entries<string, string>, txs: seq<Transaction>)
    returns (byCat: Entries<string, int>)
    ensures DistinctKeys(byCat)
    ensures forall k :: Get(byCat, k).GetOr(0) == SumOf(txs, Masked(Amt, ExpenseKey(Resolver(cats, byName)), k))
    ensures SumOf(byCat, EntryValue) == SumOf(txs, Keyed(Amt, ExpenseKey(Resolver(cats, byName))))
  {
    byCat := SumExpenses(txs, Resolver(cats, byName));
  }

  /** `{ id, name, pct, totalSpent, totalLimit }`. */
  datatype BudgetRow = BudgetRow(id: string, name: string, pct: int, totalSpent: int, totalLimit: int)

  /**
   * `totalLimit > 0 ? Math.min(100, Math.round(totalSpent / totalLimit * 100)) : 0`,
   * with `Math.round(x)` as `floor(x + 1/2)`.
   */
  function Pct(spent: int, limit: int): int {
    if limit > 0 then
      var rounded := (200 * spent + limit) / (2 * limit);
      if rounded < 100 then rounded else 100
    else 0
  }

  /**
   * The utilisation never exceeds 100 and is 0 without a positive limit;
   * below the cap it is the nearest whole percentage, halves rounded up,
   * and it reaches the cap once the spend reaches the limit.
   */
  lemma PctFacts(spent: int, limit: int)
    ensures Pct(spent, limit) <= 100
    ensures limit <= 0 ==> Pct(spent, limit) == 0
    ensures limit > 0 && Pct(spent, limit) < 100 ==>
      2 * limit * Pct(spent, limit) - limit <= 200 * spent < 2 * limit * Pct(spent, limit) + limit
    ensures limit > 0 && spent >= limit ==> Pct(spent, limit) == 100
    ensures spent >= 0 ==> Pct(spent, limit) >= 0
  {
    if limit > 0 {
      var n := 200 * spent + limit;
      var d := 2 * limit;
      var q := n / d;
      DivFloor(n, d);
      assert d * (q + 1) == d * q + d;
      assert 2 * limit * q == d * q;
      if spent >= limit {
        assert d * 100 < d * (q + 1);
        PosMulLt(d, 100, q + 1);
      }
      if spent >= 0 {
        assert d * 0 < d * (q + 1);
        PosMulLt(d, 0, q + 1);
      }
    }
  }

  lemma DivFloor(n: int, d: int)
    requires d > 0
    ensures d * (n / d) <= n < d * (n / d) + d
  {
  }

  lemma PosMulLt(d: int, a: int, b: int)
    requires d > 0 && d * a < d * b
    ensures a < b
  {
  }

  /** The row of one budget: the limits and spends of its items, summed. */
  function RowOf(byCat: Entries<string, int>, b: Budget): (r: BudgetRow)
    ensures r.totalLimit == SumOf(b.items, ItemAmount)
    ensures r.totalSpent == SumOf(b.items, SpentOf(byCat))
    ensures r.pct == Pct(r.totalSpent, r.totalLimit)
    ensures r.id == b.id && r.name == b.name
  {
    var limit := SumOf(b.items, ItemAmount);
    var spent := SumOf(b.items, SpentOf(byCat));
    BudgetRow(b.id, b.name, Pct(spent, limit), spent, limit)
  }

  function Rows(byCat: Entries<string, int>): Budget -> BudgetRow {
    (b: Budget) => RowOf(byCat, b)
  }

  /** `(a, b) => b.pct - a.pct`: `a` may come first when its utilisation is no lower. */
  function ByPct(): (BudgetRow, BudgetRow) -> bool {
    (a: BudgetRow, b: BudgetRow) => a.pct >= b.pct
  }

  /** The rows sorted by utilisation, highest first. */
  function Ranked(budgets: seq<Budget>, byCat: Entries<string, int>): seq<BudgetRow> {
    SortBy(Map(budgets, Rows(byCat)), ByPct())
  }

  /** `rows.sort(...).slice(0, 3)`. */
  function TopBudgets(budgets: seq<Budget>, byCat: Entries<string, int>): seq<BudgetRow> {
    Take(Ranked(budgets, byCat), 3)
  }

  /**
   * At most three rows, as many as there are budgets up to three, each a
   * row of one of the budgets, highest utilisation first, none above 100,
   * and no budget left out is used more than one that was kept.
   */
  lemma {:induction false} TopBudgetsFacts(budgets: seq<Budget>, byCat: Entries<string, int>)
    ensures |TopBudgets(budgets, byCat)| == if |budgets| < 3 then |budgets| else 3
    ensures multiset(TopBudgets(budgets, byCat)) <= multiset(Map(budgets, Rows(byCat)))
    ensures forall i, j :: 0 <= i < j < |TopBudgets(budgets, byCat)| ==>
      TopBudgets(budgets, byCat)[i].pct >= TopBudgets(budgets, byCat)[j].pct
    ensures forall i :: 0 <= i < |TopBudgets(budgets, byCat)| ==> TopBudgets(budgets, byCat)[i].pct <= 100
    ensures forall i, j :: 0 <= i < |TopBudgets(budgets, byCat)| <= j < |Ranked(budgets, byCat)| ==>
      Ranked(budgets, byCat)[j].pct <= TopBudgets(budgets, byCat)[i].pct
  {
    var ranked := Ranked(budgets, byCat);
    RankedFacts(budgets, byCat);
    assert |ranked| == |Map(budgets, Rows(byCat))| by {
      assert |multiset(ranked)| == |multiset(Map(budgets, Rows(byCat)))|;
    }
    TopOf(ranked, 3);
  }

  /** The first `n` rows of a ranking keep its order and bound, and none after them ranks higher. */
  lemma TopOf(ranked: seq<BudgetRow>, n: nat)
    requires forall i, j :: 0 <= i < j < |ranked| ==> ranked[i].pct >= ranked[j].pct
    requires forall i :: 0 <= i < |ranked| ==> ranked[i].pct <= 100
    ensures var top := Take(ranked, n);
      && multiset(top) <= multiset(ranked)
      && (forall i, j :: 0 <= i < j < |top| ==> top[i].pct >= top[j].pct)
      && (forall i :: 0 <= i < |top| ==> top[i].pct <= 100)
      && (forall i, j :: 0 <= i < |top| <= j < |ranked| ==> ranked[j].pct <= top[i].pct)
  {
    var top := Take(ranked, n);
    TakeSplit(ranked, n);
    forall i, j | 0 <= i < |top| <= j < |ranked| ensures ranked[j].pct <= top[i].pct {
      assert top[i] == ranked[i];
    }
  }

  /** The ranking is a reordering of the rows, highest utilisation first, none above 100. */
  lemma RankedFacts(budgets: seq<Budget>, byCat: Entries<string, int>)
    ensures multiset(Ranked(budgets, byCat)) == multiset(Map(budgets, Rows(byCat)))
    ensures forall i, j :: 0 <= i < j < |Ranked(budgets, byCat)| ==>
      Ranked(budgets, byCat)[i].pct >= Ranked(budgets, byCat)[j].pct
    ensures forall i :: 0 <= i < |Ranked(budgets, byCat)| ==> Ranked(budgets, byCat)[i].pct <= 100
  {
    var rows := Map(budgets, Rows(byCat));
    var ranked := Ranked(budgets, byCat);
    SortBySorted(rows, ByPct());
    forall i, j | 0 <= i < j < |ranked| ensures ranked[i].pct >= ranked[j].pct {
      assert ByPct()(ranked[i], ranked[j]);
    }
    forall i | 0 <= i < |ranked| ensures ranked[i].pct <= 100 {
      assert ranked[i] in multiset(rows);
      var j :| 0 <= j < |rows| && rows[j] == ranked[i];
      PctFacts(rows[j].totalSpent, rows[j].totalLimit);
    }
  }

  /** `.filter(t => t.created)`. */
  function HasCreated(t: Transaction): bool { t.created.Truthy() }

  /** The transactions with a `created` value, newest first. */
  function Dated(txs: seq<Transaction>): seq<Transaction> {
    SortBy(Filter(txs, HasCreated), NewestFirst())
  }

  /** The recent-transactions table: `.filter(...).sort(...).slice(0, 10)`. */
  function Recent(txs: seq<Transaction>): seq<Transaction> {
    Take(Dated(txs), 10)
  }

  /** Every transaction with a `created` value has a readable date, so the comparator never yields NaN. */
  predicate CreatedReadable(txs: seq<Transaction>) {
    forall i :: 0 <= i < |txs| && HasCreated(txs[i]) ==> txs[i].created.At?
  }

  /**
   * At most ten transactions, each with a `created` value and taken from
   * the list, and all of them shown when ten or fewer have one. When every
   * such value is a readable date, they are newest first and every one
   * left out is no newer than any shown.
   */
  lemma {:induction false} RecentFacts(txs: seq<Transaction>)
    ensures var r := Recent(txs);
      && |r| <= 10
      && (forall i :: 0 <= i < |r| ==> r[i].created.Truthy() && r[i] in txs)
      && (|Filter(txs, HasCreated)| <= 10 ==> multiset(r) == multiset(Filter(txs, HasCreated)))
    ensures CreatedReadable(txs) ==>
      var r := Recent(txs);
      && (forall i :: 0 <= i < |r| ==> r[i].created.At?)
      && (forall i, j :: 0 <= i < j < |r| ==> r[i].created.ms >= r[j].created.ms)
      && (forall i, j :: 0 <= i < |r| && |r| <= j < |Dated(txs)| ==>
            Dated(txs)[j].created.At? && Dated(txs)[j].created.ms <= r[i].created.ms)
  {
    RecentFromList(txs);
    if CreatedReadable(txs) {
      RecentDated(txs);
      RecentOrder(txs);
    }
  }

  /** With readable dates, every sorted transaction is dated. */
  lemma RecentDated(txs: seq<Transaction>)
    requires CreatedReadable(txs)
    ensures forall j :: 0 <= j < |Dated(txs)| ==> Dated(txs)[j].created.At?
  {
    var f := Filter(txs, HasCreated);
    var d := Dated(txs);
    SortBySorted(f, NewestFirst());
    forall j | 0 <= j < |d| ensures d[j].created.At? {
      assert d[j] in multiset(f);
      assert d[j] in f;
      var k :| 0 <= k < |txs| && txs[k] == d[j];
    }
  }

  lemma RecentFromList(txs: seq<Transaction>)
    ensures var r := Recent(txs);
      && |r| <= 10
      && (forall i :: 0 <= i < |r| ==> r[i].created.Truthy() && r[i] in txs)
      && (|Filter(txs, HasCreated)| <= 10 ==> multiset(r) == multiset(Filter(txs, HasCreated)))
  {
    var f := Filter(txs, HasCreated);
    var d := Dated(txs);
    var r := Recent(txs);
    forall i | 0 <= i < |r| ensures r[i].created.Truthy() && r[i] in txs {
      assert r[i] == d[i];
      assert d[i] in multiset(f);
      assert d[i] in f;
    }
  }

  lemma RecentOrder(txs: seq<Transaction>)
    ensures var r := Recent(txs);
      && (forall i, j :: 0 <= i < j < |r| ==> r[i].CreatedMs() >= r[j].CreatedMs())
      && (forall i, j :: 0 <= i < |r| && |r| <= j < |Dated(txs)| ==> Dated(txs)[j].CreatedMs() <= r[i].CreatedMs())
  {
    var d := Dated(txs);
    var r := Recent(txs);
    SortBySorted(Filter(txs, HasCreated), NewestFirst());
    PrefixPrecedesRest(d, |r|, NewestFirst());
    forall i, j | 0 <= i < j < |r| ensures r[i].CreatedMs() >= r[j].CreatedMs() {
      assert NewestFirst()(d[i], d[j]);
    }
    forall i, j | 0 <= i < |r| && |r| <= j < |d| ensures d[j].CreatedMs() <= r[i].CreatedMs() {
      assert NewestFirst()(d[i], d[j]);
    }
  }
}
