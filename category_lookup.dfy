/**
 * The category lookups the dashboard and the budgets page both build: a
 * map from the lower-cased, trimmed name and id of every category to its
 * id, and the per-category expense sums filled through it.
 */
module CategoryLookup {
  import opened Common
  import opened Text
  import opened Assoc
  import opened Records
  import opened Grouping

  /** `s.toLowerCase().trim()`. */
  function NormKey(s: string): string {
    Trim(Lower(s))
  }

  /** `if (c.name)`: a name that is present and not empty. */
  predicate NameTruthy(c: Category) {
    c.name.Some? && c.name.value != ""
  }

  /** `c` is entered under `k`: by its name or by its id. */
  predicate EnteredUnder(c: Category, k: string) {
    NormKey(c.id) == k || (NameTruthy(c) && NormKey(c.name.value) == k)
  }

  /** The two `set` calls the loop makes for one category: the name first, then the id. */
  function SetCategory(m: Entries<string, string>, c: Category): Entries<string, string> {
    var m1 := if NameTruthy(c) then Put(m, NormKey(c.name.value), c.id) else m;
    Put(m1, NormKey(c.id), c.id)
  }

  /** The map after the loop has seen `cats`. */
  function NameToId(cats: seq<Category>): Entries<string, string>
    decreases |cats|
  {
    if |cats| == 0 then []
    else SetCategory(NameToId(cats[..|cats| - 1]), cats[|cats| - 1])
  }

  function Under(k: string): Category -> bool {
    (c: Category) => EnteredUnder(c, k)
  }

  /**
   * The id of the last category that satisfies `p`; with `Under(k)`, the
   * category a key resolves to: a later category overrides an earlier one.
   */
  function LastEntered(cats: seq<Category>, p: Category -> bool): Option<string>
    decreases |cats|
  {
    if |cats| == 0 then None
    else if p(cats[|cats| - 1]) then Some(cats[|cats| - 1].id)
    else LastEntered(cats[..|cats| - 1], p)
  }

  lemma SetCategoryGet(m: Entries<string, string>, c: Category, k: string)
    ensures Get(SetCategory(m, c), k) == if EnteredUnder(c, k) then Some(c.id) else Get(m, k)
  {
    var m1 := if NameTruthy(c) then Put(m, NormKey(c.name.value), c.id) else m;
    PutGetAt(m1, NormKey(c.id), c.id, k);
    if NameTruthy(c) {
      PutGetAt(m, NormKey(c.name.value), c.id, k);
    }
  }

  /** Looking a key up finds the last category entered under it. */
  lemma {:induction false} NameToIdGet(cats: seq<Category>, k: string)
    ensures Get(NameToId(cats), k) == LastEntered(cats, Under(k))
    decreases |cats|
  {
    if |cats| > 0 {
      NameToIdGet(cats[..|cats| - 1], k);
      SetCategoryGet(NameToId(cats[..|cats| - 1]), cats[|cats| - 1], k);
    }
  }

  lemma {:induction false} NameToIdDistinct(cats: seq<Category>)
    ensures DistinctKeys(NameToId(cats))
    decreases |cats|
  {
    if |cats| > 0 {
      var m := NameToId(cats[..|cats| - 1]);
      var c := cats[|cats| - 1];
      NameToIdDistinct(cats[..|cats| - 1]);
      if NameTruthy(c) {
        PutDistinct(m, NormKey(c.name.value), c.id);
        PutDistinct(Put(m, NormKey(c.name.value), c.id), NormKey(c.id), c.id);
      } else {
        PutDistinct(m, NormKey(c.id), c.id);
      }
    }
  }

  /** `cats[i]` satisfies `p` and no later category does. */
  predicate LastUnder(cats: seq<Category>, i: int, p: Category -> bool) {
    && 0 <= i < |cats| && p(cats[i])
    && forall j :: i < j < |cats| ==> !p(cats[j])
  }

  /** A key resolves exactly when some category is entered under it. */
  lemma {:induction false} LastEnteredSome(cats: seq<Category>, p: Category -> bool)
    ensures LastEntered(cats, p).Some? <==> exists i :: 0 <= i < |cats| && p(cats[i])
    decreases |cats|
  {
    if |cats| > 0 {
      var q := cats[..|cats| - 1];
      LastEnteredSome(q, p);
      if exists i :: 0 <= i < |cats| && p(cats[i]) {
        var i :| 0 <= i < |cats| && p(cats[i]);
        if i < |q| {
          assert q[i] == cats[i];
        }
      }
      if exists i :: 0 <= i < |q| && p(q[i]) {
        var i :| 0 <= i < |q| && p(q[i]);
        assert cats[i] == q[i];
      }
    }
  }

  /** A key that resolves names the id of the last category entered under it. */
  lemma {:induction false} LastEnteredIsLast(cats: seq<Category>, p: Category -> bool)
    requires LastEntered(cats, p).Some?
    ensures exists i :: LastUnder(cats, i, p) && cats[i].id == LastEntered(cats, p).value
    decreases |cats|
  {
    var n := |cats| - 1;
    if p(cats[n]) {
      assert LastUnder(cats, n, p);
    } else {
      var q := cats[..n];
      LastEnteredIsLast(q, p);
      var i :| LastUnder(q, i, p) && q[i].id == LastEntered(q, p).value;
      assert cats[i] == q[i];
      forall j | i < j < |cats| ensures !p(cats[j]) {
        if j < n {
          assert cats[j] == q[j];
        }
      }
      assert LastUnder(cats, i, p);
    }
  }

  /** `categoryNameToId`: the `forEach` over the categories. */
  method BuildNameToId(cats: seq<Category>) returns (m: Entries<string, string>)
    ensures m == NameToId(cats)
    ensures DistinctKeys(m)
    ensures forall k :: Get(m, k) == LastEntered(cats, Under(k))
    ensures forall i :: 0 <= i < |cats| ==> Has(m, NormKey(cats[i].id))
  {
    m := [];
    for i := 0 to |cats|
      invariant m == NameToId(cats[..i])
    {
      var c := cats[i];
      assert cats[..i + 1][..i] == cats[..i];
      if NameTruthy(c) {
        m := Put(m, NormKey(c.name.value), c.id);
      }
      m := Put(m, NormKey(c.id), c.id);
    }
    assert cats[..|cats|] == cats;
    NameToIdDistinct(cats);
    forall k ensures Get(m, k) == LastEntered(cats, Under(k)) {
      NameToIdGet(cats, k);
    }
    forall i | 0 <= i < |cats| ensures Has(m, NormKey(cats[i].id)) {
      assert Under(NormKey(cats[i].id))(cats[i]);
      LastEnteredSome(cats, Under(NormKey(cats[i].id)));
    }
  }

  /**
   * The key an expense is filed under: none for a record whose upper-cased
   * type is not EXPENSE, whose category does not resolve, or resolves to
   * an empty id (`if (!catId) continue`).
   */
  function ExpenseKey(resolve: Transaction -> Option<string>): Transaction -> Option<string> {
    (t: Transaction) =>
      if t.IsExpense() && resolve(t).Some? && resolve(t).value != "" then resolve(t) else None
  }

  /**
   * `expenseByCat`: `byCat.set(catId, (byCat.get(catId) ?? 0) + value)` for
   * every expense whose category resolves. Each category's sum is the sum
   * of the expenses filed under it, and the sums add up to every filed expense.
   */
  method SumExpenses(txs: seq<Transaction>, resolve: Transaction -> Option<string>)
    returns (byCat: Entries<string, int>)
    ensures byCat == Group(txs, ExpenseKey(resolve), 0, Plus(Amt))
    ensures DistinctKeys(byCat)
    ensures forall k :: Get(byCat, k).GetOr(0) == SumOf(txs, Masked(Amt, ExpenseKey(resolve), k))
    ensures forall k :: Has(byCat, k) <==> KeyOccurs(txs, ExpenseKey(resolve), k)
    ensures SumOf(byCat, EntryValue) == SumOf(txs, Keyed(Amt, ExpenseKey(resolve)))
  {
    byCat := [];
    ghost var done: seq<Transaction> := [];
    for i := 0 to |txs|
      invariant done == txs[..i]
      invariant byCat == Group(done, ExpenseKey(resolve), 0, Plus(Amt))
    {
      var t := txs[i];
      var catId := resolve(t);
      if t.IsExpense() && catId.Some? && catId.value != "" {
        SumSnoc(byCat, done, t, ExpenseKey(resolve), Amt);
        byCat := Put(byCat, catId.value, Get(byCat, catId.value).GetOr(0) + Amt(t));
      } else {
        SkipSnoc(byCat, done, t, ExpenseKey(resolve), Amt);
      }
      PrefixSnoc([], txs, i);
      done := done + [t];
    }
    assert txs[..|txs|] == txs;
    GroupGet(txs, ExpenseKey(resolve), 0, Plus(Amt));
    forall k ensures Get(byCat, k).GetOr(0) == SumOf(txs, Masked(Amt, ExpenseKey(resolve), k)) {
      GroupSumAt(txs, ExpenseKey(resolve), Amt, k);
    }
    forall k ensures Has(byCat, k) <==> KeyOccurs(txs, ExpenseKey(resolve), k) {
      GroupKeys(txs, ExpenseKey(resolve), 0, Plus(Amt), k);
    }
    GroupTotal(txs, ExpenseKey(resolve), Amt);
  }

  /** `it.category?.id ?? ""`. */
  function ItemCategoryId(it: BudgetItem): string {
    if it.category.Some? then it.category.value.id else ""
  }

  /** `catId ? (expenseByCat.get(catId) ?? 0) : 0`: an item without a category has spent nothing. */
  function ItemSpent(byCat: Entries<string, int>, it: BudgetItem): (r: int)
    ensures ItemCategoryId(it) == "" ==> r == 0
    ensures ItemCategoryId(it) != "" ==> r == Get(byCat, ItemCategoryId(it)).GetOr(0)
  {
    var catId := ItemCategoryId(it);
    if catId != "" then Get(byCat, catId).GetOr(0) else 0
  }

  function SpentOf(byCat: Entries<string, int>): BudgetItem -> int {
    (it: BudgetItem) => ItemSpent(byCat, it)
  }

  function ItemAmount(it: BudgetItem): int { it.amount }
}
