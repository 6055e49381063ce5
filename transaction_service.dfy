/**
 * `TransactionService.java`: the transaction repository as the documents it
 * holds, keyed by id. Create and update validate the amount, the type and
 * the category; update and delete need an existing id; every failure of
 * those three surfaces wrapped in a `RuntimeException`. The sums read the
 * repository by exact type.
 */
module TransactionService {
  import opened Common
  import opened Text
  import opened Assoc
  import opened BackendModels

  /** The amount is present and positive. */
  predicate AmountOk(t: Tx) { t.amount.Some? && t.amount.value > 0 }

  /** The type is exactly one of the two words. */
  predicate TypeOk(t: Tx) { t.txType == Some("INCOME") || t.txType == Some("EXPENSE") }

  /** The category is present and not blank. */
  predicate CategoryOk(t: Tx) { t.category.Some? && !JavaBlank(t.category.value) }

  /** `validateTransaction`: the message of the first rule broken, if any. */
  function ValidateTx(t: Tx): (r: Option<string>)
    ensures r.None? <==> AmountOk(t) && TypeOk(t) && CategoryOk(t)
    ensures !AmountOk(t) ==> r == Some("Amount must be greater than zero")
    ensures AmountOk(t) && !TypeOk(t) ==> r == Some("Type must be either 'INCOME' or 'EXPENSE'")
    ensures AmountOk(t) && TypeOk(t) && !CategoryOk(t) ==> r == Some("Category is required")
  {
    if t.amount.None? || t.amount.value <= 0 then Some("Amount must be greater than zero")
    else if t.txType.None? || (t.txType.value != "INCOME" && t.txType.value != "EXPENSE") then
      Some("Type must be either 'INCOME' or 'EXPENSE'")
    else if t.category.None? || JavaBlank(t.category.value) then Some("Category is required")
    else None
  }

  /** The type is compared exactly: a lower-case "expense" is refused. */
  lemma TypeIsCaseSensitive(t: Tx)
    requires t.amount == Some(500) && t.category == Some("Food")
    ensures ValidateTx(t.(txType := Some("expense"))) == Some("Type must be either 'INCOME' or 'EXPENSE'")
    ensures ValidateTx(t.(txType := Some("EXPENSE"))).None?
  {
    JavaTrimEmpty("Food");
  }

  /** The repository's documents: one entry per id, each carrying its own key. */
  predicate StoreOk(store: Entries<string, Tx>) {
    && DistinctKeys(store)
    && forall i :: 0 <= i < |store| ==> store[i].1.transactionId == Some(store[i].0)
  }

  /** Every stored transaction passes validation. */
  predicate AllValidated(store: Entries<string, Tx>) {
    forall i :: 0 <= i < |store| ==> ValidateTx(store[i].1).None?
  }

  lemma PutKeepsStore(store: Entries<string, Tx>, key: string, t: Tx)
    requires StoreOk(store) && t.transactionId == Some(key)
    ensures StoreOk(Put(store, key, t))
    ensures AllValidated(store) && ValidateTx(t).None? ==> AllValidated(Put(store, key, t))
  {
    PutDistinct(store, key, t);
    PutEntries(store, key, t);
  }

  /** `getTotalIncome` / `getTotalExpenses`: `findByType`, then the sum of the amounts. */
  function OfType(ty: string): ((string, Tx)) -> int {
    (e: (string, Tx)) => if e.1.txType == Some(ty) then e.1.amount.GetOr(0) else 0
  }

  /** A record of that type without an amount makes `BigDecimal::add` throw. */
  predicate UnpricedOfType(store: Entries<string, Tx>, ty: string) {
    exists i :: 0 <= i < |store| && store[i].1.txType == Some(ty) && store[i].1.amount.None?
  }

  function TypeTotal(store: Entries<string, Tx>, ty: string, failure: string): Result<int, Thrown> {
    if UnpricedOfType(store, ty) then Err(Runtime(failure, NullPointer))
    else Ok(SumOf(store, OfType(ty)))
  }

  function TotalIncome(store: Entries<string, Tx>): Result<int, Thrown> {
    TypeTotal(store, "INCOME", "Failed to calculate total income")
  }

  function TotalExpenses(store: Entries<string, Tx>): Result<int, Thrown> {
    TypeTotal(store, "EXPENSE", "Failed to calculate total expenses")
  }

  /** `getNetAmount`: income less expenses; a failure of either is wrapped once more. */
  function NetAmount(store: Entries<string, Tx>): Result<int, Thrown> {
    var inc := TotalIncome(store);
    var exp := TotalExpenses(store);
    if inc.Err? then Err(Runtime("Failed to calculate net amount", inc.error))
    else if exp.Err? then Err(Runtime("Failed to calculate net amount", exp.error))
    else Ok(inc.value - exp.value)
  }

  function StoredAmount(e: (string, Tx)): int { e.1.amount.GetOr(0) }

  /**
   * Over validated records the three sums succeed, the net is income less
   * expenses, both totals are non-negative, and together they are the sum
   * of every amount, since every type is one of the two.
   */
  lemma TotalsFacts(store: Entries<string, Tx>)
    requires AllValidated(store)
    ensures TotalIncome(store).Ok? && TotalExpenses(store).Ok? && NetAmount(store).Ok?
    ensures NetAmount(store).value == TotalIncome(store).value - TotalExpenses(store).value
    ensures TotalIncome(store).value + TotalExpenses(store).value == SumOf(store, StoredAmount)
    ensures TotalIncome(store).value >= 0 && TotalExpenses(store).value >= 0
  {
    SumOfAdd(store, StoredAmount, OfType("INCOME"), OfType("EXPENSE"));
    SumOfLe(store, (e: (string, Tx)) => 0, OfType("INCOME"));
    SumOfLe(store, (e: (string, Tx)) => 0, OfType("EXPENSE"));
    ZeroSum(store);
  }

  lemma {:induction false} ZeroSum(store: Entries<string, Tx>)
    ensures SumOf(store, (e: (string, Tx)) => 0) == 0
    decreases |store|
  {
    if |store| > 0 {
      ZeroSum(store[..|store| - 1]);
    }
  }

  /** `getTotalSpendingForPeriod`: the owner's records strictly inside the period. */
  predicate InPeriod(t: Tx, userId: string, start: int, end: int) {
    t.userId == Some(userId) && t.created.Some? && start < t.created.value < end
  }

  /** `t.getType().equals("EXPENSE")` on a record of the period. */
  function PeriodExpense(userId: string, start: int, end: int): ((string, Tx)) -> int {
    (e: (string, Tx)) =>
      if InPeriod(e.1, userId, start, end) && e.1.txType == Some("EXPENSE") then e.1.amount.GetOr(0) else 0
  }

  /** A record of the period without a type, or an expense of it without an amount, throws. */
  predicate PeriodThrows(store: Entries<string, Tx>, userId: string, start: int, end: int) {
    exists i :: 0 <= i < |store| && InPeriod(store[i].1, userId, start, end) &&
      (store[i].1.txType.None? || (store[i].1.txType == Some("EXPENSE") && store[i].1.amount.None?))
  }

  function SpendingForPeriod(store: Entries<string, Tx>, userId: string, start: int, end: int): Result<int, Thrown> {
    if PeriodThrows(store, userId, start, end) then Err(NullPointer)
    else Ok(SumOf(store, PeriodExpense(userId, start, end)))
  }

  /** Over validated records a period's spending succeeds and lies between 0 and the total expenses. */
  lemma SpendingWithinExpenses(store: Entries<string, Tx>, userId: string, start: int, end: int)
    requires AllValidated(store)
    ensures SpendingForPeriod(store, userId, start, end).Ok?
    ensures 0 <= SpendingForPeriod(store, userId, start, end).value <= TotalExpenses(store).value
  {
    SumOfLe(store, PeriodExpense(userId, start, end), OfType("EXPENSE"));
    SumOfLe(store, (e: (string, Tx)) => 0, PeriodExpense(userId, start, end));
    ZeroSum(store);
  }

  /** `findByUserIdAndIsRecurringTrue`. */
  predicate RecurringOf(t: Tx, userId: string) { t.userId == Some(userId) && t.isRecurring }

  function RecurringAmount(userId: string): ((string, Tx)) -> int {
    (e: (string, Tx)) => if RecurringOf(e.1, userId) then e.1.amount.GetOr(0) else 0
  }

  predicate RecurringUnpriced(store: Entries<string, Tx>, userId: string) {
    exists i :: 0 <= i < |store| && RecurringOf(store[i].1, userId) && store[i].1.amount.None?
  }

  /**
   * `projectBalance` as written: the sum of every recurring amount of the
   * owner, whatever its type, times the months, taken off the balance.
   */
  function ProjectBalanceAsWritten(store: Entries<string, Tx>, userId: string, current: int, months: int): Result<int, Thrown> {
    if RecurringUnpriced(store, userId) then Err(NullPointer)
    else Ok(current - SumOf(store, RecurringAmount(userId)) * months)
  }

  /** A recurring income adds to the balance, a recurring expense takes from it. */
  function SignedRecurring(userId: string): ((string, Tx)) -> int {
    (e: (string, Tx)) =>
      if RecurringOf(e.1, userId) then
        if e.1.txType == Some("INCOME") then e.1.amount.GetOr(0) else -e.1.amount.GetOr(0)
      else 0
  }

  /** The projection with each recurring amount counted by its direction. */
  function ProjectBalance(store: Entries<string, Tx>, userId: string, current: int, months: int): Result<int, Thrown> {
    if RecurringUnpriced(store, userId) then Err(NullPointer)
    else Ok(current + SumOf(store, SignedRecurring(userId)) * months)
  }

  /** A store holding one monthly salary of 100.00. */
  function SalaryOnly(): Entries<string, Tx> {
    [("t1", Tx(Some("t1"), Some("u1"), None, None, Some(10000), Some("INCOME"), Some("Pay"), Some(0), true, Some(30)))]
  }

  /** The salary lowers the balance as written, and raises it in the corrected projection. */
  lemma RecurringIncomeSubtracted()
    ensures ProjectBalanceAsWritten(SalaryOnly(), "u1", 0, 1) == Ok(-10000)
    ensures ProjectBalance(SalaryOnly(), "u1", 0, 1) == Ok(10000)
  {
    var s := SalaryOnly();
    assert s[..0] == [];
    assert !RecurringUnpriced(s, "u1");
    assert SumOf(s, RecurringAmount("u1")) == 10000;
    assert SumOf(s, SignedRecurring("u1")) == 10000;
  }

  /**
   * The corrected projection agrees with the one written whenever the owner
   * has no recurring income, and otherwise moves the balance by exactly the
   * months times the recurring incomes less the recurring expenses.
   */
  lemma ProjectionFacts(store: Entries<string, Tx>, userId: string, current: int, months: int)
    requires !RecurringUnpriced(store, userId)
    ensures (forall i :: 0 <= i < |store| ==> !(RecurringOf(store[i].1, userId) && store[i].1.txType == Some("INCOME"))) ==>
      ProjectBalance(store, userId, current, months) == ProjectBalanceAsWritten(store, userId, current, months)
    ensures ProjectBalance(store, userId, current, months) ==
      Ok(current + (SumOf(store, RecurringIncome(userId)) - SumOf(store, RecurringOther(userId))) * months)
  {
    SignedSplit(store, userId);
    if forall i :: 0 <= i < |store| ==> !(RecurringOf(store[i].1, userId) && store[i].1.txType == Some("INCOME")) {
      SignedWithoutIncome(store, userId);
    }
  }

  /** The signed recurring sum is the recurring incomes less the other recurring amounts. */
  lemma SignedSplit(store: Entries<string, Tx>, userId: string)
    ensures SumOf(store, SignedRecurring(userId)) == SumOf(store, RecurringIncome(userId)) - SumOf(store, RecurringOther(userId))
  {
    SumOfAdd(store, SignedRecurring(userId), RecurringIncome(userId), Negated(RecurringOther(userId)));
    SumOfNegated(store, RecurringOther(userId));
  }

  /** Without recurring income, the signed recurring sum is minus the recurring amounts. */
  lemma SignedWithoutIncome(store: Entries<string, Tx>, userId: string)
    requires forall i :: 0 <= i < |store| ==> !(RecurringOf(store[i].1, userId) && store[i].1.txType == Some("INCOME"))
    ensures SumOf(store, SignedRecurring(userId)) == -SumOf(store, RecurringAmount(userId))
  {
    SumOfEq(store, SignedRecurring(userId), Negated(RecurringAmount(userId)));
    SumOfNegated(store, RecurringAmount(userId));
  }

  /** The recurring amounts are the recurring incomes plus the other recurring amounts. */
  lemma RecurringSplit(store: Entries<string, Tx>, userId: string)
    ensures SumOf(store, RecurringAmount(userId)) == SumOf(store, RecurringIncome(userId)) + SumOf(store, RecurringOther(userId))
  {
    SumOfAdd(store, RecurringAmount(userId), RecurringIncome(userId), RecurringOther(userId));
  }

  function RecurringIncome(userId: string): ((string, Tx)) -> int {
    (e: (string, Tx)) => if RecurringOf(e.1, userId) && e.1.txType == Some("INCOME") then e.1.amount.GetOr(0) else 0
  }

  function RecurringOther(userId: string): ((string, Tx)) -> int {
    (e: (string, Tx)) => if RecurringOf(e.1, userId) && e.1.txType != Some("INCOME") then e.1.amount.GetOr(0) else 0
  }

  function Negated(f: ((string, Tx)) -> int): ((string, Tx)) -> int {
    (e: (string, Tx)) => -f(e)
  }

  lemma {:induction false} SumOfNegated(store: Entries<string, Tx>, f: ((string, Tx)) -> int)
    ensures SumOf(store, Negated(f)) == -SumOf(store, f)
    decreases |store|
  {
    if |store| > 0 {
      SumOfNegated(store[..|store| - 1], f);
    }
  }

  /** The service over its repository. */
  class Service {
    var store: Entries<string, Tx>

    predicate Valid()
      reads this
    {
      StoreOk(store)
    }

    constructor(store: Entries<string, Tx>)
      requires StoreOk(store)
      ensures this.store == store && Valid()
    {
      this.store := store;
    }

    /**
     * `createTransaction`: an invalid transaction is not saved; a valid one
     * is saved under its own id, or under the id the store assigns.
     */
    method CreateTransaction(t: Tx, freshId: string) returns (r: Result<Tx, Thrown>)
      requires Valid()
      modifies this
      ensures Valid()
      ensures ValidateTx(t).Some? ==>
        r == Err(Runtime("Failed to create transaction", IllegalArgument(ValidateTx(t).value))) && store == old(store)
      ensures ValidateTx(t).None? ==>
        var key := t.transactionId.GetOr(freshId);
        r == Ok(t.(transactionId := Some(key))) && store == Put(old(store), key, t.(transactionId := Some(key)))
      ensures AllValidated(old(store)) ==> AllValidated(store)
    {
      var invalid := ValidateTx(t);
      if invalid.Some? {
        return Err(Runtime("Failed to create transaction", IllegalArgument(invalid.value)));
      }
      var key := t.transactionId.GetOr(freshId);
      var saved := t.(transactionId := Some(key));
      PutKeepsStore(store, key, saved);
      store := Put(store, key, saved);
      r := Ok(saved);
    }

    /** `updateTransaction`: the id must exist, then the transaction must be valid; the id is forced to the path's. */
    method UpdateTransaction(id: string, t: Tx) returns (r: Result<Tx, Thrown>)
      requires Valid()
      modifies this
      ensures Valid()
      ensures !Has(old(store), id) ==>
        r == Err(Runtime("Failed to update transaction", IllegalArgument("Transaction not found with id: " + id)))
        && store == old(store)
      ensures Has(old(store), id) && ValidateTx(t).Some? ==>
        r == Err(Runtime("Failed to update transaction", IllegalArgument(ValidateTx(t).value))) && store == old(store)
      ensures Has(old(store), id) && ValidateTx(t).None? ==>
        r == Ok(t.(transactionId := Some(id))) && store == Put(old(store), id, t.(transactionId := Some(id)))
        && |store| == |old(store)|
      ensures AllValidated(old(store)) ==> AllValidated(store)
    {
      if !Has(store, id) {
        return Err(Runtime("Failed to update transaction", IllegalArgument("Transaction not found with id: " + id)));
      }
      var invalid := ValidateTx(t);
      if invalid.Some? {
        return Err(Runtime("Failed to update transaction", IllegalArgument(invalid.value)));
      }
      var saved := t.(transactionId := Some(id));
      PutKeepsStore(store, id, saved);
      PutShape(store, id, saved);
      store := Put(store, id, saved);
      r := Ok(saved);
    }

    /** `deleteTransaction`: the id must exist, and only that record goes. */
    method DeleteTransaction(id: string) returns (thrown: Option<Thrown>)
      requires Valid()
      modifies this
      ensures Valid()
      ensures !Has(old(store), id) ==>
        thrown == Some(Runtime("Failed to delete transaction", IllegalArgument("Transaction not found with id: " + id)))
        && store == old(store)
      ensures Has(old(store), id) ==> thrown.None? && store == Remove(old(store), id)
      ensures forall k :: Get(store, k) == if k == id then None else Get(old(store), k)
      ensures AllValidated(old(store)) ==> AllValidated(store)
    {
      if !Has(store, id) {
        return Some(Runtime("Failed to delete transaction", IllegalArgument("Transaction not found with id: " + id)));
      }
      forall k ensures DistinctKeys(Remove(store, id)) && Get(Remove(store, id), k) == if k == id then None else Get(store, k) {
        RemoveGet(store, id, k);
      }
      RemoveGet(store, id, id);
      store := Remove(store, id);
      thrown := None;
    }

    /**
     * `projectBalance` as written: every recurring amount of the owner,
     * income and expense alike, is taken off the balance once per month
     * ahead; an unpriced recurring record throws. It agrees with the
     * corrected projection when the owner has no recurring income.
     */
    method ProjectBalanceFor(userId: string, current: int, months: int) returns (r: Result<int, Thrown>)
      ensures r == ProjectBalanceAsWritten(store, userId, current, months)
      ensures r.Err? <==> RecurringUnpriced(store, userId)
      ensures r.Err? ==> r.error == NullPointer
      ensures r.Ok? ==>
        r.value == current - (SumOf(store, RecurringIncome(userId)) + SumOf(store, RecurringOther(userId))) * months
      ensures (forall i :: 0 <= i < |store| ==> !(RecurringOf(store[i].1, userId) && store[i].1.txType == Some("INCOME"))) ==>
        r == ProjectBalance(store, userId, current, months)
    {
      r := ProjectBalanceAsWritten(store, userId, current, months);
      RecurringSplit(store, userId);
      if !RecurringUnpriced(store, userId) {
        ProjectionFacts(store, userId, current, months);
      }
    }
  }
}
