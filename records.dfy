/**
 * The record shapes the frontend receives from the backend: transactions,
 * categories and budgets, as the response schemas describe them. Amounts
 * are integer cents, instants are integer milliseconds.
 */
module Records {
  import opened Common
  import opened Text

  /**
   * A transaction type as a closed set plus "anything else". The frontend
   * classifies a type text case-insensitively (`LooseKind`), the backend
   * exactly (`ExactKind`).
   */
  datatype Kind = Income | Expense | Other(text: string)

  /** `String(type).toUpperCase() === "INCOME"` / `"EXPENSE"`. */
  function LooseKind(s: string): Kind {
    var u := Upper(s);
    if u == "INCOME" then Income else if u == "EXPENSE" then Expense else Other(s)
  }

  /** `"INCOME".equals(type)` / `"EXPENSE".equals(type)`. */
  function ExactKind(s: string): Kind {
    if s == "INCOME" then Income else if s == "EXPENSE" then Expense else Other(s)
  }

  /** An exact match is also a case-insensitive one; the converse fails on "expense". */
  lemma ExactImpliesLoose(s: string)
    ensures !ExactKind(s).Other? ==> LooseKind(s) == ExactKind(s)
    ensures LooseKind("expense") == Expense && ExactKind("expense") == Other("expense")
  {
    assert Upper("INCOME") == "INCOME";
    assert Upper("EXPENSE") == "EXPENSE";
    assert Upper("expense") == "EXPENSE";
  }

  /**
   * A `created` field: absent, present but not a date `new Date` can read
   * (the empty text included), or an instant in milliseconds.
   */
  datatype Stamp = Missing | Invalid(text: string) | At(ms: int) {
    /** The field is a truthy JavaScript value: present and not the empty string. */
    predicate Truthy() { At? || (Invalid? && text != "") }
  }

  datatype Transaction = Transaction(
    transactionId: string,
    id: Option<string>,
    userId: Option<string>,
    target: Option<string>,
    description: Option<string>,
    amount: Option<int>,
    txType: string,
    category: Option<string>,
    categoryId: Option<string>,
    created: Stamp,
    recurring: bool,
    recurringRate: Option<int>)
  {
    /** `Number(t.amount || 0)`: a missing amount counts as 0. */
    function Amt(): int { amount.GetOr(0) }
    predicate IsIncome() { LooseKind(txType) == Income }
    predicate IsExpense() { LooseKind(txType) == Expense }
    /** `t.recurringRate` is truthy: present and non-zero. */
    predicate HasRate() { recurringRate.Some? && recurringRate.value != 0 }
    /** The instant `created` names; newest-first sorts compare these. */
    function CreatedMs(): int { if created.At? then created.ms else 0 }
  }

  /** A record's amount as the sums read it. */
  function Amt(t: Transaction): int { t.Amt() }

  /** `(a, b) => time(b.created) - time(a.created)`: `a` may come first when it is no older. */
  function NewestFirst(): (Transaction, Transaction) -> bool {
    (a: Transaction, b: Transaction) => a.CreatedMs() >= b.CreatedMs()
  }

  datatype Category = Category(id: string, name: Option<string>, color: Option<string>, icon: Option<string>)

  datatype BudgetItem = BudgetItem(category: Option<Category>, categoryId: Option<string>, amount: int, frequency: Option<int>)

  datatype Budget = Budget(id: string, userId: string, name: string, description: Option<string>,
                           items: seq<BudgetItem>, frequency: Option<int>)
}
