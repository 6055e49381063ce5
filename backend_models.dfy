/**
 * The backend's stored records: categories, transactions and budgets, the
 * exceptions the services throw, and the in-memory budget object whose
 * item list `addItem` and `removeItem` change in place. Amounts are integer
 * cents, instants integer milliseconds; a Java `null` is `None`.
 */
module BackendModels {
  import opened Common

  /** The part of a category the services read: its id, `null` before it is saved. */
  datatype Category = Category(id: Option<string>, name: Option<string>)

  /** A transaction document. */
  datatype Tx = Tx(
    transactionId: Option<string>,
    userId: Option<string>,
    target: Option<string>,
    description: Option<string>,
    amount: Option<int>,
    txType: Option<string>,
    category: Option<string>,
    created: Option<int>,
    isRecurring: bool,
    recurringRate: Option<int>)

  /** What a service call throws; a `RuntimeException` may wrap its cause. */
  datatype Thrown = IllegalArgument(message: string) | NullPointer | Runtime(message: string, cause: Thrown)

  /** One allocation of a budget; the frequency is in days. */
  datatype BudgetItem = BudgetItem(category: Option<Category>, amount: int, frequency: int)

  /** A budget document as the repository stores and returns it. */
  datatype BudgetDoc = BudgetDoc(
    id: Option<string>,
    userId: Option<string>,
    name: Option<string>,
    description: Option<string>,
    items: seq<BudgetItem>,
    createdAt: int,
    updatedAt: int)

  /** `i.getCategory().getId()` can be evaluated: no `null` on the way. */
  predicate ItemHasCategoryId(it: BudgetItem) {
    it.category.Some? && it.category.value.id.Some?
  }

  /** `removeIf` tests every item before removing any, so one unreadable item throws and removes nothing. */
  predicate RemovableItems(items: seq<BudgetItem>) {
    forall i :: 0 <= i < |items| ==> ItemHasCategoryId(items[i])
  }

  /** `i -> i.getCategory().getId().equals(categoryId)`, negated: the items that stay. */
  function KeepsItem(categoryId: Option<string>): BudgetItem -> bool {
    (it: BudgetItem) => !(ItemHasCategoryId(it) && Some(it.category.value.id.value) == categoryId)
  }

  /** The items after removing every one of the given category, the others in order. */
  function ItemsWithout(items: seq<BudgetItem>, categoryId: Option<string>): seq<BudgetItem> {
    Filter(items, KeepsItem(categoryId))
  }

  /**
   * No item of that category is left, every other item is, in order; an id
   * no item has, or a `null` id, leaves the list as it was.
   */
  lemma ItemsWithoutFacts(items: seq<BudgetItem>, categoryId: Option<string>)
    requires RemovableItems(items)
    ensures forall i :: 0 <= i < |ItemsWithout(items, categoryId)| ==>
      Some(ItemsWithout(items, categoryId)[i].category.value.id.value) != categoryId
    ensures forall it :: it in items && Some(it.category.value.id.value) != categoryId ==> it in ItemsWithout(items, categoryId)
    ensures (forall i :: 0 <= i < |items| ==> Some(items[i].category.value.id.value) != categoryId) ==>
      ItemsWithout(items, categoryId) == items
    ensures categoryId.None? ==> ItemsWithout(items, categoryId) == items
  {
    var r := ItemsWithout(items, categoryId);
    forall i | 0 <= i < |r| ensures Some(r[i].category.value.id.value) != categoryId {
      assert r[i] in items;
      assert KeepsItem(categoryId)(r[i]);
    }
    if forall i :: 0 <= i < |items| ==> Some(items[i].category.value.id.value) != categoryId {
      FilterAll(items, KeepsItem(categoryId));
    }
  }

  /** Removing a category and then adding an item of it leaves exactly one item of it, at the end. */
  lemma ReplaceCategoryItem(items: seq<BudgetItem>, c: Category, amount: int, frequency: int)
    requires RemovableItems(items) && c.id.Some?
    ensures var after := ItemsWithout(items, c.id) + [BudgetItem(Some(c), amount, frequency)];
      forall i :: 0 <= i < |after| ==> (after[i].category.value.id == c.id <==> i == |after| - 1)
  {
    ItemsWithoutFacts(items, c.id);
    var w := ItemsWithout(items, c.id);
    forall i | 0 <= i < |w| ensures w[i].category.value.id != c.id {
      assert w[i] in items;
    }
  }

  /** The in-memory budget of `Budget.java`. */
  class Budget {
    var id: Option<string>
    var userId: Option<string>
    var name: Option<string>
    var description: Option<string>
    var items: seq<BudgetItem>
    var createdAt: int
    var updatedAt: int

    /** `new Budget()`: no id, owner or name yet, an empty item list, both instants `now`. */
    constructor(now: int)
      ensures id.None? && userId.None? && name.None? && description.None?
      ensures items == [] && createdAt == now && updatedAt == now
    {
      id := None;
      userId := None;
      name := None;
      description := None;
      items := [];
      createdAt := now;
      updatedAt := now;
    }

    /** `new Budget(userId, name)`: the same, with the owner and the name set. */
    constructor Named(userId: Option<string>, name: Option<string>, now: int)
      ensures this.userId == userId && this.name == name
      ensures id.None? && description.None?
      ensures items == [] && createdAt == now && updatedAt == now
    {
      id := None;
      this.userId := userId;
      this.name := name;
      description := None;
      items := [];
      createdAt := now;
      updatedAt := now;
    }

    /** The object as the document it is saved as. */
    function Doc(): BudgetDoc
      reads this
    {
      BudgetDoc(id, userId, name, description, items, createdAt, updatedAt)
    }

    /** `addItem`: one item at the end, the earlier ones untouched, and the update instant moved. */
    method AddItem(category: Option<Category>, amount: int, frequency: int, now: int)
      modifies this
      ensures items == old(items) + [BudgetItem(category, amount, frequency)]
      ensures |items| == |old(items)| + 1 && items[..|old(items)|] == old(items)
      ensures updatedAt == now
      ensures id == old(id) && userId == old(userId) && name == old(name)
      ensures description == old(description) && createdAt == old(createdAt)
    {
      items := items + [BudgetItem(category, amount, frequency)];
      updatedAt := now;
    }

    /**
     * `removeItem`: every item of that category goes and the update instant
     * moves; an item without a category, or whose category has no id,
     * throws a `NullPointerException` before anything changes.
     */
    method RemoveItem(categoryId: Option<string>, now: int) returns (thrown: Option<Thrown>)
      modifies this
      ensures thrown.Some? <==> !RemovableItems(old(items))
      ensures thrown.Some? ==> thrown == Some(NullPointer) && items == old(items) && updatedAt == old(updatedAt)
      ensures thrown.None? ==> items == ItemsWithout(old(items), categoryId) && updatedAt == now
      ensures id == old(id) && userId == old(userId) && name == old(name)
      ensures description == old(description) && createdAt == old(createdAt)
    {
      if !RemovableItems(items) {
        return Some(NullPointer);
      }
      items := ItemsWithout(items, categoryId);
      updatedAt := now;
      thrown := None;
    }
  }
}
