/**
 * `BudgetService.java`: budgets, categories and transactions are the
 * repositories' documents, keyed by id. Creation validates the owner and
 * the name; update and delete need an existing id; items are added and
 * removed on the stored document; the performance of a budget is the sum
 * of the exactly-"EXPENSE" amounts of its categories in a period.
 */
module BudgetService {
  import opened Common
  import opened Text
  import opened BackendModels

  /** `validateBudget`: the owner first, then the name; each must be present and not blank. */
  function ValidateBudget(b: BudgetDoc): (r: Option<Thrown>)
    ensures r.None? <==> b.userId.Some? && !JavaBlank(b.userId.value) && b.name.Some? && !JavaBlank(b.name.value)
    ensures b.userId.None? || JavaBlank(b.userId.value) ==> r == Some(IllegalArgument("User ID is required"))
    ensures b.userId.Some? && !JavaBlank(b.userId.value) && (b.name.None? || JavaBlank(b.name.value)) ==>
      r == Some(IllegalArgument("Budget name is required"))
  {
    if b.userId.None? || JavaBlank(b.userId.value) then Some(IllegalArgument("User ID is required"))
    else if b.name.None? || JavaBlank(b.name.value) then Some(IllegalArgument("Budget name is required"))
    else None
  }

  /** A name of spaces is refused, a name with one visible character is not. */
  lemma BlankNameRefused(b: BudgetDoc)
    requires b.userId == Some("u1")
    ensures ValidateBudget(b.(name := Some("  "))) == Some(IllegalArgument("Budget name is required"))
    ensures ValidateBudget(b.(name := Some(" x "))).None?
  {
    JavaTrimEmpty("  ");
    JavaTrimEmpty("u1");
    JavaTrimEmpty(" x ");
    assert " x "[1] == 'x';
  }

  /**
   * `findByUserIdAndCategoryAndCreatedBetween`: the owner and the category
   * match exactly (a `null` matches `null`), and the instant lies strictly
   * between the two ends.
   */
  predicate InQuery(t: Tx, userId: Option<string>, categoryId: Option<string>, start: int, end: int) {
    t.userId == userId && t.category == categoryId && t.created.Some? && start < t.created.value < end
  }

  /** `"EXPENSE".equals(t.getType())`: exact, and false for a `null` type. */
  predicate ExactExpense(t: Tx) { t.txType == Some("EXPENSE") }

  /** A transaction's share of a category's spend in the period. */
  function QueryExpense(userId: Option<string>, categoryId: Option<string>, start: int, end: int): Tx -> int {
    (t: Tx) => if InQuery(t, userId, categoryId, start, end) && ExactExpense(t) then t.amount.GetOr(0) else 0
  }

  /** A counted expense without an amount makes `BigDecimal::add` throw. */
  predicate UnpricedExpense(txs: seq<Tx>, userId: Option<string>, categoryId: Option<string>, start: int, end: int) {
    exists i :: 0 <= i < |txs| && InQuery(txs[i], userId, categoryId, start, end) && ExactExpense(txs[i]) && txs[i].amount.None?
  }

  /** One item's `categorySpent`: the query, the filter, the sum. */
  function CategorySpent(txs: seq<Tx>, userId: Option<string>, categoryId: Option<string>, start: int, end: int): Result<int, Thrown> {
    if UnpricedExpense(txs, userId, categoryId, start, end) then Err(NullPointer)
    else Ok(SumOf(txs, QueryExpense(userId, categoryId, start, end)))
  }

  /**
   * A transaction that is not exactly an expense, or is outside the query,
   * changes no category's spend: an "expense" in lower case, an income, a
   * record of another owner, category or period.
   */
  lemma {:induction false} UnmatchedIgnored(txs: seq<Tx>, t: Tx, userId: Option<string>, categoryId: Option<string>, start: int, end: int)
    requires !(InQuery(t, userId, categoryId, start, end) && ExactExpense(t))
    ensures CategorySpent(txs + [t], userId, categoryId, start, end) == CategorySpent(txs, userId, categoryId, start, end)
  {
    var s := txs + [t];
    SumOfAppend(txs, [t], QueryExpense(userId, categoryId, start, end));
    assert SumOf([t], QueryExpense(userId, categoryId, start, end)) == SumOf([t][..0], QueryExpense(userId, categoryId, start, end)) + 0;
    if UnpricedExpense(s, userId, categoryId, start, end) {
      var i :| 0 <= i < |s| && InQuery(s[i], userId, categoryId, start, end) && ExactExpense(s[i]) && s[i].amount.None?;
      assert i < |txs| && s[i] == txs[i];
    }
    if UnpricedExpense(txs, userId, categoryId, start, end) {
      var i :| 0 <= i < |txs| && InQuery(txs[i], userId, categoryId, start, end) && ExactExpense(txs[i]) && txs[i].amount.None?;
      assert s[i] == txs[i];
    }
  }

  /** A priced expense inside the query adds its amount to the category's spend. */
  lemma MatchedAdds(txs: seq<Tx>, t: Tx, userId: Option<string>, categoryId: Option<string>, start: int, end: int)
    requires InQuery(t, userId, categoryId, start, end) && ExactExpense(t) && t.amount.Some?
    requires CategorySpent(txs, userId, categoryId, start, end).Ok?
    ensures CategorySpent(txs + [t], userId, categoryId, start, end) ==
      Ok(CategorySpent(txs, userId, categoryId, start, end).value + t.amount.value)
  {
    var s := txs + [t];
    assert s[..|s| - 1] == txs;
  }

  /** One item: a missing category throws on `item.getCategory().getId()`. */
  function ItemSpend(it: BudgetItem, userId: Option<string>, txs: seq<Tx>, start: int, end: int): Result<int, Thrown> {
    if it.category.None? then Err(NullPointer)
    else CategorySpent(txs, userId, it.category.value.id, start, end)
  }

  /** The loop over the items from the first on: the first failing item's exception, or the sum. */
  function PerformanceFrom(items: seq<BudgetItem>, userId: Option<string>, txs: seq<Tx>, start: int, end: int): Result<int, Thrown>
    decreases |items|
  {
    if |items| == 0 then Ok(0)
    else match ItemSpend(items[0], userId, txs, start, end)
      case Err(e) => Err(e)
      case Ok(s) =>
        match PerformanceFrom(items[1..], userId, txs, start, end)
        case Err(e) => Err(e)
        case Ok(rest) => Ok(s + rest)
  }

  function SpendValue(userId: Option<string>, txs: seq<Tx>, start: int, end: int): BudgetItem -> int {
    (it: BudgetItem) => var r := ItemSpend(it, userId, txs, start, end); if r.Ok? then r.value else 0
  }

  /**
   * The performance is computed exactly when every item has a category and
   * no counted expense lacks an amount, and it is then the sum of the items'
   * spends, so a category allocated twice is counted twice.
   */
  lemma {:induction false} PerformanceFacts(items: seq<BudgetItem>, userId: Option<string>, txs: seq<Tx>, start: int, end: int)
    ensures PerformanceFrom(items, userId, txs, start, end).Ok? <==>
      forall i :: 0 <= i < |items| ==> ItemSpend(items[i], userId, txs, start, end).Ok?
    ensures PerformanceFrom(items, userId, txs, start, end).Ok? ==>
      PerformanceFrom(items, userId, txs, start, end).value == SumOf(items, SpendValue(userId, txs, start, end))
    decreases |items|
  {
    if |items| > 0 {
      PerformanceFacts(items[1..], userId, txs, start, end);
      assert items == [items[0]] + items[1..];
      SumOfCons(items[0], items[1..], SpendValue(userId, txs, start, end));
      assert forall i :: 1 <= i < |items| ==> items[i] == items[1..][i - 1];
    }
  }

  lemma DuplicateCountedTwice(it: BudgetItem, userId: Option<string>, txs: seq<Tx>, start: int, end: int)
    requires ItemSpend(it, userId, txs, start, end).Ok?
    ensures PerformanceFrom([it, it], userId, txs, start, end) == Ok(2 * ItemSpend(it, userId, txs, start, end).value)
  {
    var v := ItemSpend(it, userId, txs, start, end).value;
    assert [it][1..] == [];
    assert PerformanceFrom([it], userId, txs, start, end) == Ok(v + 0);
    assert [it, it][1..] == [it];
  }

  /** `getBudgetPerformance` as a whole: a missing budget throws first. */
  function Performance(budgets: map<string, BudgetDoc>, txs: seq<Tx>, budgetId: string, start: int, end: int): Result<int, Thrown> {
    if budgetId !in budgets then Err(IllegalArgument("Budget not found"))
    else PerformanceFrom(budgets[budgetId].items, budgets[budgetId].userId, txs, start, end)
  }

  /** `Ok(total)` followed by the rest of the loop. */
  function Then(total: int, rest: Result<int, Thrown>): Result<int, Thrown> {
    match rest
    case Ok(v) => Ok(total + v)
    case Err(e) => Err(e)
  }

  class Service {
    var budgets: map<string, BudgetDoc>
    var categories: map<string, Category>
    var transactions: seq<Tx>

    /** Every stored budget and every stored category carries its own key as its id. */
    predicate Valid()
      reads this
    {
      && (forall k :: k in budgets ==> budgets[k].id == Some(k))
      && (forall k :: k in categories ==> categories[k].id == Some(k))
    }

    constructor(categories: map<string, Category>, transactions: seq<Tx>)
      requires forall k :: k in categories ==> categories[k].id == Some(k)
      ensures budgets == map[] && this.categories == categories && this.transactions == transactions
      ensures Valid()
    {
      budgets := map[];
      this.categories := categories;
      this.transactions := transactions;
    }

    /**
     * `createBudget`: a budget that fails validation is not saved; otherwise
     * it is saved under its own id, or under the id the store assigns.
     */
    method CreateBudget(b: BudgetDoc, freshId: string) returns (r: Result<BudgetDoc, Thrown>)
      requires Valid()
      modifies this
      ensures Valid()
      ensures ValidateBudget(b).Some? ==> r == Err(ValidateBudget(b).value) && budgets == old(budgets)
      ensures ValidateBudget(b).None? ==>
        var key := b.id.GetOr(freshId);
        r == Ok(b.(id := Some(key))) && budgets == old(budgets)[key := b.(id := Some(key))]
      ensures categories == old(categories) && transactions == old(transactions)
    {
      var invalid := ValidateBudget(b);
      if invalid.Some? {
        return Err(invalid.value);
      }
      var key := b.id.GetOr(freshId);
      var saved := b.(id := Some(key));
      budgets := budgets[key := saved];
      r := Ok(saved);
    }

    /** `updateBudget`: only an existing id; the stored id is forced to it and nothing is validated. */
    method UpdateBudget(budgetId: string, b: BudgetDoc) returns (r: Result<BudgetDoc, Thrown>)
      requires Valid()
      modifies this
      ensures Valid()
      ensures budgetId !in old(budgets) ==>
        r == Err(IllegalArgument("Budget not found with id: " + budgetId)) && budgets == old(budgets)
      ensures budgetId in old(budgets) ==>
        r == Ok(b.(id := Some(budgetId))) && budgets == old(budgets)[budgetId := b.(id := Some(budgetId))]
      ensures categories == old(categories) && transactions == old(transactions)
    {
      if budgetId !in budgets {
        return Err(IllegalArgument("Budget not found with id: " + budgetId));
      }
      var saved := b.(id := Some(budgetId));
      budgets := budgets[budgetId := saved];
      r := Ok(saved);
    }

    /** `deleteBudget`: only an existing id, and only that one goes. */
    method DeleteBudget(budgetId: string) returns (thrown: Option<Thrown>)
      requires Valid()
      modifies this
      ensures Valid()
      ensures budgetId !in old(budgets) ==>
        thrown == Some(IllegalArgument("Budget not found with id: " + budgetId)) && budgets == old(budgets)
      ensures budgetId in old(budgets) ==> thrown.None? && budgets == old(budgets) - {budgetId}
      ensures categories == old(categories) && transactions == old(transactions)
    {
      if budgetId !in budgets {
        return Some(IllegalArgument("Budget not found with id: " + budgetId));
      }
      budgets := budgets - {budgetId};
      thrown := None;
    }

    /**
     * `addItemToBudget`: the budget must exist, then the category; one item
     * with that category is appended and the budget saved. The update
     * instant is not moved.
     */
    method AddItemToBudget(budgetId: string, categoryId: string, amount: int, frequency: int)
      returns (r: Result<BudgetDoc, Thrown>)
      requires Valid()
      modifies this
      ensures Valid()
      ensures budgetId !in old(budgets) ==> r == Err(IllegalArgument("Budget not found")) && budgets == old(budgets)
      ensures budgetId in old(budgets) && categoryId !in categories ==>
        r == Err(IllegalArgument("Category not found")) && budgets == old(budgets)
      ensures budgetId in old(budgets) && categoryId in categories ==>
        var b := old(budgets)[budgetId];
        var saved := b.(items := b.items + [BudgetItem(Some(categories[categoryId]), amount, frequency)]);
        r == Ok(saved) && budgets == old(budgets)[budgetId := saved]
      ensures r.Ok? ==> r.value.items[|r.value.items| - 1].category.value.id == Some(categoryId)
      ensures categories == old(categories) && transactions == old(transactions)
    {
      if budgetId !in budgets {
        return Err(IllegalArgument("Budget not found"));
      }
      var b := budgets[budgetId];
      if categoryId !in categories {
        return Err(IllegalArgument("Category not found"));
      }
      var saved := b.(items := b.items + [BudgetItem(Some(categories[categoryId]), amount, frequency)]);
      budgets := budgets[budgetId := saved];
      r := Ok(saved);
    }

    /**
     * `removeItemFromBudget`: the budget must exist; every item of that
     * category goes, unless an item without a category id makes `removeIf`
     * throw first, which leaves the budget as stored.
     */
    method RemoveItemFromBudget(budgetId: string, categoryId: Option<string>) returns (r: Result<BudgetDoc, Thrown>)
      requires Valid()
      modifies this
      ensures Valid()
      ensures budgetId !in old(budgets) ==> r == Err(IllegalArgument("Budget not found")) && budgets == old(budgets)
      ensures budgetId in old(budgets) && !RemovableItems(old(budgets)[budgetId].items) ==>
        r == Err(NullPointer) && budgets == old(budgets)
      ensures budgetId in old(budgets) && RemovableItems(old(budgets)[budgetId].items) ==>
        var b := old(budgets)[budgetId];
        var saved := b.(items := ItemsWithout(b.items, categoryId));
        r == Ok(saved) && budgets == old(budgets)[budgetId := saved]
      ensures categories == old(categories) && transactions == old(transactions)
    {
      if budgetId !in budgets {
        return Err(IllegalArgument("Budget not found"));
      }
      var b := budgets[budgetId];
      if !RemovableItems(b.items) {
        return Err(NullPointer);
      }
      var saved := b.(items := ItemsWithout(b.items, categoryId));
      budgets := budgets[budgetId := saved];
      r := Ok(saved);
    }

    /** `getBudgetPerformance`: the loop over the items, adding each category's spend. */
    method GetBudgetPerformance(budgetId: string, start: int, end: int) returns (r: Result<int, Thrown>)
      ensures r == Performance(budgets, transactions, budgetId, start, end)
    {
      if budgetId !in budgets {
        return Err(IllegalArgument("Budget not found"));
      }
      var b := budgets[budgetId];
      var total := 0;
      var i := 0;
      while i < |b.items|
        invariant 0 <= i <= |b.items|
        invariant PerformanceFrom(b.items, b.userId, transactions, start, end) ==
          Then(total, PerformanceFrom(b.items[i..], b.userId, transactions, start, end))
      {
        var rest := b.items[i..];
        assert rest[1..] == b.items[i + 1..];
        var spent := ItemSpend(b.items[i], b.userId, transactions, start, end);
        if spent.Err? {
          return Err(spent.error);
        }
        total := total + spent.value;
        i := i + 1;
      }
      assert b.items[i..] == [];
      r := Ok(total);
    }
  }
}
