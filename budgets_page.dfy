/**
 * The budgets page: its list of budgets, which the create and delete
 * handlers replace, the category resolution it applies to transactions,
 * the expense sums per category, and each budget's item lines with their
 * spend and the budget's total and spent figures.
 */
module BudgetsPage {
  import opened Common
  import opened Text
  import opened Assoc
  import opened Records
  import opened Grouping
  import opened CategoryLookup
  import opened BudgetCard
  import Dashboard

  /**
   * `normalizeTxCategoryId` on this page: only the legacy `category` text is
   * looked at; missing, or empty once lower-cased and trimmed, it resolves
   * to nothing, otherwise to what the name-and-id map holds for it.
   */
  function ResolveCategory(byName: Entries<string, string>, t: Transaction): (r: Option<string>)
    ensures t.category.None? || NormKey(t.category.value) == "" ==> r.None?
    ensures t.category.Some? && NormKey(t.category.value) != "" ==> r == Get(byName, NormKey(t.category.value))
  {
    if t.category.None? then None
    else
      var raw := NormKey(t.category.value);
      if raw == "" then None else Get(byName, raw)
  }

  function Resolver(byName: Entries<string, string>): Transaction -> Option<string> {
    (t: Transaction) => ResolveCategory(byName, t)
  }

  /**
   * With the map the page builds, a transaction resolves only to an id some
   * category has: the id of the last category entered under its text.
   */
  lemma ResolvesToKnownId(cats: seq<Category>, t: Transaction)
    ensures var r := ResolveCategory(NameToId(cats), t);
      r.Some? ==> Dashboard.KnownId(cats, r.value) && t.category.Some? && NormKey(t.category.value) != ""
  {
    var r := ResolveCategory(NameToId(cats), t);
    if t.category.Some? && NormKey(t.category.value) != "" {
      var k := NormKey(t.category.value);
      NameToIdGet(cats, k);
      if r.Some? {
        LastEnteredIsLast(cats, Under(k));
        var i :| LastUnder(cats, i, Under(k)) && cats[i].id == r.value;
      }
    }
  }

  /**
   * The page and the dashboard resolve a transaction alike unless the
   * dashboard finds a known `categoryId` first, or the text is blank but
   * not empty, which the dashboard still looks up.
   */
  lemma AgreesWithDashboard(cats: seq<Category>, byName: Entries<string, string>, t: Transaction)
    requires !(t.categoryId.Some? && t.categoryId.value != "" && Dashboard.KnownId(cats, t.categoryId.value))
    requires t.category.None? || t.category.value == "" || NormKey(t.category.value) != ""
    ensures ResolveCategory(byName, t) == Dashboard.ResolveCategory(cats, byName, t)
  {
    if t.category.Some? && t.category.value == "" {
      assert NormKey("") == "";
    }
  }

  /** `expenseByCat`, with the amount read as the sums read it. */
  method ExpenseByCat(byName: Entries<string, string>, txs: seq<Transaction>)
    returns (byCat: Entries<string, int>)
    ensures DistinctKeys(byCat)
    ensures forall k :: Get(byCat, k).GetOr(0) == SumOf(txs, Masked(Amt, ExpenseKey(Resolver(byName)), k))
    ensures forall k :: Has(byCat, k) <==> KeyOccurs(txs, ExpenseKey(Resolver(byName)), k)
    ensures SumOf(byCat, EntryValue) == SumOf(txs, Keyed(Amt, ExpenseKey(Resolver(byName))))
  {
    byCat := SumExpenses(txs, Resolver(byName));
  }

  /**
   * The item line of one budget item: its category, its limit, its
   * frequency falling back from the item to the budget to 0, and its spend.
   */
  function ItemLine(byCat: Entries<string, int>, b: Budget, it: BudgetItem): (x: ItemWithSpent)
    ensures x.category == it.category && x.amount == it.amount
    ensures x.frequency == Some(if it.frequency.Some? then it.frequency.value
                                else if b.frequency.Some? then b.frequency.value else 0)
    ensures x.spent == ItemSpent(byCat, it)
    ensures it.category.None? ==> x.spent == 0
  {
    ItemWithSpent(it.category, it.amount, ItemSpent(byCat, it), Some(it.frequency.GetOr(b.frequency.GetOr(0))))
  }

  function LineOf(byCat: Entries<string, int>, b: Budget): BudgetItem -> ItemWithSpent {
    (it: BudgetItem) => ItemLine(byCat, b, it)
  }

  /** The item lines of a budget, one per item, in order. */
  function Lines(byCat: Entries<string, int>, b: Budget): seq<ItemWithSpent> {
    Map(b.items, LineOf(byCat, b))
  }

  function LineAmount(x: ItemWithSpent): int { x.amount }
  function LineSpent(x: ItemWithSpent): int { x.spent }

  /** `total`: the items' limits, summed. */
  function Total(byCat: Entries<string, int>, b: Budget): int {
    SumOf(Lines(byCat, b), LineAmount)
  }

  /** `spent`: the items' spends, summed. */
  function Spent(byCat: Entries<string, int>, b: Budget): int {
    SumOf(Lines(byCat, b), LineSpent)
  }

  lemma LinesSums(byCat: Entries<string, int>, b: Budget, items: seq<BudgetItem>)
    ensures SumOf(Map(items, LineOf(byCat, b)), LineAmount) == SumOf(items, ItemAmount)
    ensures SumOf(Map(items, LineOf(byCat, b)), LineSpent) == SumOf(items, SpentOf(byCat))
  {
    forall it ensures LineAmount(LineOf(byCat, b)(it)) == ItemAmount(it) && LineSpent(LineOf(byCat, b)(it)) == SpentOf(byCat)(it) {
    }
    SumOfMap(items, LineOf(byCat, b), LineAmount, ItemAmount);
    SumOfMap(items, LineOf(byCat, b), LineSpent, SpentOf(byCat));
  }

  /**
   * The card's total is the sum of the item limits and its spent the sum of
   * the item spends: the same figures the dashboard ranks the budget by.
   */
  lemma TotalsMatchDashboard(byCat: Entries<string, int>, b: Budget)
    ensures Total(byCat, b) == SumOf(b.items, ItemAmount) == Dashboard.RowOf(byCat, b).totalLimit
    ensures Spent(byCat, b) == SumOf(b.items, SpentOf(byCat)) == Dashboard.RowOf(byCat, b).totalSpent
  {
    LinesSums(byCat, b, b.items);
  }

  /** `(b) => b.id !== id`. */
  function NotWithId(id: string): Budget -> bool {
    (b: Budget) => b.id != id
  }

  /** The page's budget list, React state the handlers replace. */
  class Page {
    var budgets: seq<Budget>

    constructor()
      ensures budgets == []
    {
      budgets := [];
    }

    /** `handleCreated`: the new budget goes first. */
    method HandleCreated(b: Budget)
      modifies this
      ensures budgets == [b] + old(budgets)
    {
      budgets := [b] + budgets;
    }

    /** `handleDeleted`: every budget with that id goes, the rest stay in order. */
    method HandleDeleted(id: string)
      modifies this
      ensures budgets == Filter(old(budgets), NotWithId(id))
    {
      budgets := Filter(budgets, NotWithId(id));
    }
  }

  /**
   * After a delete no budget has that id, every other budget is kept, and
   * deleting an id no budget has changes nothing.
   */
  lemma DeletedFacts(budgets: seq<Budget>, id: string)
    ensures forall b :: b in Filter(budgets, NotWithId(id)) ==> b.id != id
    ensures forall b :: b in budgets && b.id != id ==> b in Filter(budgets, NotWithId(id))
    ensures (forall i :: 0 <= i < |budgets| ==> budgets[i].id != id) ==> Filter(budgets, NotWithId(id)) == budgets
  {
    if forall i :: 0 <= i < |budgets| ==> budgets[i].id != id {
      FilterAll(budgets, NotWithId(id));
    }
  }
}
