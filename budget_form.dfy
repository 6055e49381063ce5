/**
 * The budget editor: a name, a description, a frequency and a list of
 * category allocations built one row at a time. No category may be
 * allocated twice; the form is validated on submit and each allocation
 * is sent with its full category and the form's frequency.
 */
module BudgetForm {
  import opened Common
  import opened Text
  import opened Sorting
  import opened Records

  /** One allocation; the amount is in cents. */
  datatype FormItem = FormItem(categoryId: string, amount: int)

  datatype FormData = FormData(name: string, description: Option<string>, frequency: Option<int>, items: seq<FormItem>)

  /** The row being typed: a chosen category and the amount text. */
  datatype Row = Row(categoryId: string, amount: string)

  const InitialData := FormData("", Some(""), Some(2), [])
  const EmptyRow := Row("", "")

  function ItemCategory(it: FormItem): string { it.categoryId }
  function ItemAmount(it: FormItem): int { it.amount }

  /** `total`: the sum of the allocations. */
  function Total(items: seq<FormItem>): int {
    SumOf(items, ItemAmount)
  }

  /** `categoryAlreadyUsed`. */
  predicate CategoryUsed(items: seq<FormItem>, c: string) {
    exists i :: 0 <= i < |items| && items[i].categoryId == c
  }

  /** `canAddRow`. */
  predicate CanAddRow(items: seq<FormItem>, row: Row) {
    && row.categoryId != ""
    && row.amount != ""
    && ParseDecimal(row.amount).Finite?
    && ParseDecimal(row.amount).cents > 0
    && !CategoryUsed(items, row.categoryId)
  }

  /** The items after `addItem`. */
  function AddedItems(items: seq<FormItem>, row: Row): seq<FormItem> {
    if CanAddRow(items, row) then items + [FormItem(row.categoryId, ParseDecimal(row.amount).cents)]
    else items
  }

  function NotCategory(c: string): FormItem -> bool {
    (it: FormItem) => it.categoryId != c
  }

  /** The items after `removeItem(c)`. */
  function RemovedItems(items: seq<FormItem>, c: string): seq<FormItem> {
    Filter(items, NotCategory(c))
  }

  /** What the editor keeps true of its items: distinct, chosen categories and positive amounts. */
  predicate ItemsOk(items: seq<FormItem>) {
    && DistinctBy(items, ItemCategory)
    && forall i :: 0 <= i < |items| ==> items[i].categoryId != "" && items[i].amount > 0
  }

  /**
   * `addItem` does nothing unless the row may be added; otherwise it adds
   * exactly one allocation at the end, from the row, and the total grows by
   * its amount. Either way the items stay distinct.
   */
  lemma AddItemFacts(items: seq<FormItem>, row: Row)
    ensures !CanAddRow(items, row) ==> AddedItems(items, row) == items
    ensures CanAddRow(items, row) ==>
      var r := AddedItems(items, row);
      && |r| == |items| + 1 && r[..|items|] == items
      && r[|items|].categoryId == row.categoryId
      && Finite(r[|items|].amount) == ParseDecimal(row.amount)
      && Total(r) == Total(items) + r[|items|].amount
    ensures ItemsOk(items) ==> ItemsOk(AddedItems(items, row))
  {
    if CanAddRow(items, row) {
      var it := FormItem(row.categoryId, ParseDecimal(row.amount).cents);
      var r := items + [it];
      assert r[..|items|] == items;
      SumOfAppend(items, [it], ItemAmount);
      if ItemsOk(items) {
        forall i, j | 0 <= i < j < |r|
          ensures ItemCategory(r[i]) != ItemCategory(r[j])
        {
          if j == |items| {
            assert r[i] == items[i];
          }
        }
      }
    }
  }

  lemma {:induction false} FilterDistinct(s: seq<FormItem>, p: FormItem -> bool)
    requires DistinctBy(s, ItemCategory)
    ensures DistinctBy(Filter(s, p), ItemCategory)
    decreases |s|
  {
    if |s| > 0 {
      var t := s[1..];
      assert DistinctBy(t, ItemCategory) by {
        forall i, j | 0 <= i < j < |t| ensures ItemCategory(t[i]) != ItemCategory(t[j]) {
          assert t[i] == s[i + 1] && t[j] == s[j + 1];
        }
      }
      FilterDistinct(t, p);
      var ft := Filter(t, p);
      if p(s[0]) {
        var r := [s[0]] + ft;
        forall i, j | 0 <= i < j < |r| ensures ItemCategory(r[i]) != ItemCategory(r[j]) {
          if i == 0 {
            assert r[j] == ft[j - 1];
            assert ft[j - 1] in t;
            var k :| 0 <= k < |t| && t[k] == ft[j - 1];
            assert t[k] == s[k + 1];
          } else {
            assert r[i] == ft[i - 1] && r[j] == ft[j - 1];
          }
        }
      }
    }
  }

  /**
   * `removeItem(c)` drops exactly the allocations of category `c`: an
   * absent category changes nothing, and a present one leaves the other
   * allocations in their order; the items stay distinct.
   */
  lemma RemoveItemFacts(items: seq<FormItem>, c: string)
    ensures forall i :: 0 <= i < |RemovedItems(items, c)| ==> RemovedItems(items, c)[i].categoryId != c
    ensures forall i :: 0 <= i < |items| && items[i].categoryId != c ==> items[i] in RemovedItems(items, c)
    ensures !CategoryUsed(items, c) ==> RemovedItems(items, c) == items
    ensures ItemsOk(items) ==> ItemsOk(RemovedItems(items, c))
  {
    if !CategoryUsed(items, c) {
      FilterAll(items, NotCategory(c));
    }
    if ItemsOk(items) {
      FilterDistinct(items, NotCategory(c));
      var r := RemovedItems(items, c);
      forall i | 0 <= i < |r| ensures r[i].categoryId != "" && r[i].amount > 0 {
        assert r[i] in items;
      }
    }
  }

  /** With distinct categories, removing the category at position `i` removes just that allocation. */
  lemma RemovePresent(items: seq<FormItem>, i: nat)
    requires ItemsOk(items) && i < |items|
    ensures RemovedItems(items, items[i].categoryId) == items[..i] + items[i + 1..]
    ensures Total(RemovedItems(items, items[i].categoryId)) == Total(items) - items[i].amount
  {
    OthersKept(items, i);
    FilterDropsOne(items, i, NotCategory(items[i].categoryId));
    TotalWithout(items, i);
  }

  lemma TotalWithout(items: seq<FormItem>, i: nat)
    requires i < |items|
    ensures Total(items[..i] + items[i + 1..]) == Total(items) - items[i].amount
  {
    SumOfRemove(items, i, ItemAmount);
  }

  lemma OthersKept(items: seq<FormItem>, i: nat)
    requires ItemsOk(items) && i < |items|
    ensures Filter(items[..i], NotCategory(items[i].categoryId)) == items[..i]
    ensures Filter(items[i + 1..], NotCategory(items[i].categoryId)) == items[i + 1..]
  {
    var c := items[i].categoryId;
    var a, b := items[..i], items[i + 1..];
    forall k | 0 <= k < |a| ensures NotCategory(c)(a[k]) {
      assert a[k] == items[k];
      assert ItemCategory(items[k]) != ItemCategory(items[i]);
    }
    forall k | 0 <= k < |b| ensures NotCategory(c)(b[k]) {
      assert b[k] == items[i + 1 + k];
      assert ItemCategory(items[i]) != ItemCategory(items[i + 1 + k]);
    }
    FilterAll(a, NotCategory(c));
    FilterAll(b, NotCategory(c));
  }

  // ---------------------------------------------------------------------
  // FormSchema
  // ---------------------------------------------------------------------

  function IssuesOfItem(i: nat, it: FormItem): seq<FormIssue> {
    (if |it.categoryId| < 1 then [FormIssue([Key("items"), Index(i), Key("categoryId")], "Category is required")] else [])
    + (if it.amount <= 0 then [FormIssue([Key("items"), Index(i), Key("amount")], "Amount must be > 0")] else [])
  }

  function ItemsIssues(items: seq<FormItem>): seq<FormIssue>
    decreases |items|
  {
    if |items| == 0 then []
    else ItemsIssues(items[..|items| - 1]) + IssuesOfItem(|items| - 1, items[|items| - 1])
  }

  /** `FormSchema.safeParse(data)`'s issues, in the order the schema reports them. */
  function ValidateForm(d: FormData): seq<FormIssue> {
    (if |d.name| < 1 then [FormIssue([Key("name")], "Name is required")] else [])
    + (if |d.items| < 1 then [FormIssue([Key("items")], "Add at least one category allocation")] else [])
    + ItemsIssues(d.items)
  }

  predicate ItemPasses(it: FormItem) { it.categoryId != "" && it.amount > 0 }

  lemma {:induction false} ItemsIssuesEmpty(items: seq<FormItem>)
    ensures ItemsIssues(items) == [] <==> forall i :: 0 <= i < |items| ==> ItemPasses(items[i])
    ensures forall j :: 0 <= j < |ItemsIssues(items)| ==>
      |ItemsIssues(items)[j].path| == 3 && ItemsIssues(items)[j].path[0] == Key("items")
    decreases |items|
  {
    if |items| > 0 {
      var p := items[..|items| - 1];
      ItemsIssuesEmpty(p);
      assert forall i :: 0 <= i < |p| ==> p[i] == items[i];
    }
  }

  /**
   * The form passes exactly when it has a name, at least one allocation,
   * and every allocation has a category and a positive amount; so an
   * editor whose items are well kept fails only on the name or an empty list.
   */
  lemma ValidateFormFacts(d: FormData)
    ensures ValidateForm(d) == [] <==>
      |d.name| >= 1 && |d.items| >= 1 && forall i :: 0 <= i < |d.items| ==> ItemPasses(d.items[i])
    ensures ItemsOk(d.items) ==> (ValidateForm(d) == [] <==> d.name != "" && d.items != [])
    ensures forall j :: 0 <= j < |ValidateForm(d)| ==>
      ValidateForm(d)[j].path != [] && ValidateForm(d)[j].path[0] in {Key("name"), Key("items")}
  {
    ItemsIssuesEmpty(d.items);
    var a := if |d.name| < 1 then [FormIssue([Key("name")], "Name is required")] else [];
    var b := if |d.items| < 1 then [FormIssue([Key("items")], "Add at least one category allocation")] else [];
    var c := ItemsIssues(d.items);
    assert ValidateForm(d) == a + b + c;
    forall j | 0 <= j < |ValidateForm(d)|
      ensures ValidateForm(d)[j].path != [] && ValidateForm(d)[j].path[0] in {Key("name"), Key("items")}
    {
      if j >= |a| + |b| {
        assert ValidateForm(d)[j] == c[j - |a| - |b|];
      } else if j >= |a| {
        assert ValidateForm(d)[j] == b[j - |a|];
      }
    }
  }

  // ---------------------------------------------------------------------
  // Field errors
  // ---------------------------------------------------------------------

  function ElemText(e: PathElem): string {
    match e
    case Key(k) => k
    case Index(i) => NatToString(i)
  }

  /** `issue.path.join(".") || "form"`. */
  function FieldKey(issue: FormIssue): string {
    var j := Join(Map(issue.path, ElemText), '.');
    if j == "" then "form" else j
  }

  /** `fe` after the loop over the issues: a later issue on a key replaces an earlier one. */
  function FieldErrorsOf(issues: seq<FormIssue>): map<string, string>
    decreases |issues|
  {
    if |issues| == 0 then map[]
    else FieldErrorsOf(issues[..|issues| - 1])[FieldKey(issues[|issues| - 1]) := issues[|issues| - 1].message]
  }

  method CollectFieldErrors(issues: seq<FormIssue>) returns (fe: map<string, string>)
    ensures fe == FieldErrorsOf(issues)
  {
    fe := map[];
    for i := 0 to |issues|
      invariant fe == FieldErrorsOf(issues[..i])
    {
      assert issues[..i + 1][..i] == issues[..i];
      fe := fe[FieldKey(issues[i]) := issues[i].message];
    }
    assert issues[..|issues|] == issues;
  }

  /** The field errors have one key per distinct issue key. */
  lemma {:induction false} FieldErrorsKeys(issues: seq<FormIssue>)
    ensures forall k :: k in FieldErrorsOf(issues) <==> exists i :: 0 <= i < |issues| && FieldKey(issues[i]) == k
    decreases |issues|
  {
    if |issues| > 0 {
      var p := issues[..|issues| - 1];
      var n := |issues| - 1;
      FieldErrorsKeys(p);
      forall k ensures k in FieldErrorsOf(issues) <==> exists i :: 0 <= i < |issues| && FieldKey(issues[i]) == k {
        if exists i :: 0 <= i < |issues| && FieldKey(issues[i]) == k {
          var i :| 0 <= i < |issues| && FieldKey(issues[i]) == k;
          if i < n {
            assert p[i] == issues[i];
          }
        }
        if k in FieldErrorsOf(p) {
          var i :| 0 <= i < |p| && FieldKey(p[i]) == k;
          assert issues[i] == p[i];
        }
      }
    }
  }

  /** The issue whose message a key holds: one with that key and no later one with it. */
  predicate LastWithKey(issues: seq<FormIssue>, i: int, k: string) {
    && 0 <= i < |issues| && FieldKey(issues[i]) == k
    && forall j :: i < j < |issues| ==> FieldKey(issues[j]) != k
  }

  /** Each field error holds the message of the last issue with its key. */
  lemma {:induction false} FieldErrorsLast(issues: seq<FormIssue>)
    ensures forall k :: k in FieldErrorsOf(issues) ==>
      exists i :: LastWithKey(issues, i, k) && FieldErrorsOf(issues)[k] == issues[i].message
    decreases |issues|
  {
    if |issues| > 0 {
      var p := issues[..|issues| - 1];
      var n := |issues| - 1;
      FieldErrorsLast(p);
      forall k | k in FieldErrorsOf(issues)
        ensures exists i :: LastWithKey(issues, i, k) && FieldErrorsOf(issues)[k] == issues[i].message
      {
        if k == FieldKey(issues[n]) {
          assert LastWithKey(issues, n, k);
        } else {
          var i :| LastWithKey(p, i, k) && FieldErrorsOf(p)[k] == p[i].message;
          assert issues[i] == p[i];
          forall j | i < j < |issues| ensures FieldKey(issues[j]) != k {
            if j < n {
              assert issues[j] == p[j];
            }
          }
          assert LastWithKey(issues, i, k);
        }
      }
    }
  }

  lemma JoinStartsWithFirst(parts: seq<string>, sep: char)
    requires |parts| > 0
    ensures parts[0] <= Join(parts, sep)
  {
  }

  /** The banner: the "form" error if there is one, else a generic prompt. */
  function Banner(fe: map<string, string>): string {
    if "form" in fe then fe["form"] else "Please fix the highlighted errors."
  }

  /**
   * Every issue of this schema sits under "name" or "items", so no field
   * error is keyed "form" and the banner is always the generic prompt.
   */
  lemma BannerIsGeneric(d: FormData)
    ensures "form" !in FieldErrorsOf(ValidateForm(d))
    ensures Banner(FieldErrorsOf(ValidateForm(d))) == "Please fix the highlighted errors."
  {
    var issues := ValidateForm(d);
    ValidateFormFacts(d);
    FieldErrorsKeys(issues);
    forall i | 0 <= i < |issues| ensures FieldKey(issues[i]) != "form" {
      var parts := Map(issues[i].path, ElemText);
      JoinStartsWithFirst(parts, '.');
      var j := Join(parts, '.');
      assert parts[0] == "name" || parts[0] == "items";
      assert j[..|parts[0]|] == parts[0];
    }
  }

  // ---------------------------------------------------------------------
  // The create request
  // ---------------------------------------------------------------------

  /** `categories.find(c => c.id === id)`: the first category with that id. */
  function FindCategory(cs: seq<Category>, id: string): (r: Option<Category>)
    ensures r.Some? ==> r.value in cs && r.value.id == id
    ensures r.None? <==> forall i :: 0 <= i < |cs| ==> cs[i].id != id
    decreases |cs|
  {
    if |cs| == 0 then None
    else if cs[0].id == id then Some(cs[0])
    else FindCategory(cs[1..], id)
  }

  datatype PayloadItem = PayloadItem(category: Category, amount: int, frequency: int)

  datatype BudgetPayload = BudgetPayload(userId: string, name: string, description: Option<string>, items: seq<PayloadItem>)

  /**
   * One allocation of the request: the full category, from the page's list
   * or else from the category service (`fetch`), the amount, and the form's
   * frequency or 0.
   */
  function PayloadItemOf(categories: seq<Category>, fetch: string -> Category, frequency: Option<int>): FormItem -> PayloadItem {
    (it: FormItem) => PayloadItem(FindCategory(categories, it.categoryId).GetOr(fetch(it.categoryId)), it.amount, frequency.GetOr(0))
  }

  function ToPayload(userId: string, categories: seq<Category>, fetch: string -> Category, d: FormData): BudgetPayload {
    BudgetPayload(userId, d.name, d.description, Map(d.items, PayloadItemOf(categories, fetch, d.frequency)))
  }

  /**
   * The request has one allocation per form item, in order, with the same
   * amount, the form's frequency (0 when unset), and a category whose id
   * is the item's whenever the page knows that category.
   */
  lemma PayloadFacts(userId: string, categories: seq<Category>, fetch: string -> Category, d: FormData)
    ensures var p := ToPayload(userId, categories, fetch, d);
      && p.userId == userId && p.name == d.name && p.description == d.description
      && |p.items| == |d.items|
      && forall i :: 0 <= i < |d.items| ==>
        && p.items[i].amount == d.items[i].amount
        && p.items[i].frequency == (if d.frequency.Some? then d.frequency.value else 0)
        && (FindCategory(categories, d.items[i].categoryId).Some? ==> p.items[i].category.id == d.items[i].categoryId)
        && (FindCategory(categories, d.items[i].categoryId).None? ==> p.items[i].category == fetch(d.items[i].categoryId))
  {
    var p := ToPayload(userId, categories, fetch, d);
    forall i | 0 <= i < |d.items|
      ensures p.items[i] == PayloadItem(FindCategory(categories, d.items[i].categoryId).GetOr(fetch(d.items[i].categoryId)),
                                        d.items[i].amount, d.frequency.GetOr(0))
    {
      assert p.items[i] == PayloadItemOf(categories, fetch, d.frequency)(d.items[i]);
    }
  }

  /** What submitting sends, or the field errors it shows. */
  function SubmitOutcome(userId: string, categories: seq<Category>, fetch: string -> Category, d: FormData)
    : Result<BudgetPayload, map<string, string>>
  {
    var issues := ValidateForm(d);
    if issues == [] then Ok(ToPayload(userId, categories, fetch, d)) else Err(FieldErrorsOf(issues))
  }

  /** The mounted editor: the form data and the row are React state. */
  class Editor {
    var data: FormData
    var row: Row

    predicate Valid()
      reads this
    {
      ItemsOk(data.items)
    }

    constructor()
      ensures data == InitialData && row == EmptyRow
      ensures Valid()
    {
      data := InitialData;
      row := EmptyRow;
    }

    method SetRow(r: Row)
      modifies this
      ensures data == old(data) && row == r
    {
      row := r;
    }

    /** `addItem`: append the row as an allocation and clear the row, when the row may be added. */
    method AddItem()
      requires Valid()
      modifies this
      ensures Valid()
      ensures data == old(data).(items := AddedItems(old(data.items), old(row)))
      ensures row == if CanAddRow(old(data.items), old(row)) then EmptyRow else old(row)
    {
      AddItemFacts(data.items, row);
      if !CanAddRow(data.items, row) {
        return;
      }
      data := data.(items := data.items + [FormItem(row.categoryId, ParseDecimal(row.amount).cents)]);
      row := EmptyRow;
    }

    /** `removeItem(c)`. */
    method RemoveItem(c: string)
      requires Valid()
      modifies this
      ensures Valid()
      ensures data == old(data).(items := RemovedItems(old(data.items), c)) && row == old(row)
    {
      RemoveItemFacts(data.items, c);
      data := data.(items := Filter(data.items, NotCategory(c)));
    }

    /**
     * `handleSubmit`: validate; on issues return the field errors; on
     * success build the request, and when the backend creates the budget
     * (`created`) reset the form and the row.
     */
    method Submit(userId: string, categories: seq<Category>, fetch: string -> Category, created: bool)
      returns (outcome: Result<BudgetPayload, map<string, string>>)
      requires Valid()
      modifies this
      ensures Valid()
      ensures outcome == SubmitOutcome(userId, categories, fetch, old(data))
      ensures outcome.Ok? && created ==> data == InitialData && row == EmptyRow
      ensures !(outcome.Ok? && created) ==> data == old(data) && row == old(row)
    {
      var issues := ValidateForm(data);
      if issues != [] {
        var fe := CollectFieldErrors(issues);
        outcome := Err(fe);
        return;
      }
      outcome := Ok(ToPayload(userId, categories, fetch, data));
      if created {
        data := InitialData;
        row := EmptyRow;
      }
    }
  }
}
