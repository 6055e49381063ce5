/**
 * The budget card: the frequency badge, the spent-against-total summary
 * line, and for every item its progress percentage, its overspend and
 * what is left, with the defaults shown for an item without a category.
 */
module BudgetCard {
  import opened Common
  import opened Records

  /** One item line as the budgets page hands it to the card. */
  datatype ItemWithSpent = ItemWithSpent(category: Option<Category>, amount: int, spent: int, frequency: Option<int>)

  /** `freqLabel`: the budget's frequency code 1, 2 or 3 has a name; any other value, or none, has none. */
  function FreqLabel(f: Option<int>): (r: Option<string>)
    ensures r.Some? <==> f.Some? && 1 <= f.value <= 3
    ensures r == Some("Weekly") <==> f == Some(1)
    ensures r == Some("Monthly") <==> f == Some(2)
    ensures r == Some("Yearly") <==> f == Some(3)
  {
    if f == Some(1) then Some("Weekly")
    else if f == Some(2) then Some("Monthly")
    else if f == Some(3) then Some("Yearly")
    else None
  }

  /**
   * The editor's frequency choices are 7, 30 and 365 days, and none of them
   * has a label on the card; only the editor's initial value 2 has one.
   */
  lemma EditorChoicesUnlabelled()
    ensures FreqLabel(Some(7)).None? && FreqLabel(Some(30)).None? && FreqLabel(Some(365)).None?
    ensures FreqLabel(Some(2)) == Some("Monthly")
  {
  }

  /** `budget.description || "No description."`. */
  function DescriptionText(d: Option<string>): (r: string)
    ensures r != ""
    ensures d.Some? && d.value != "" ==> r == d.value
    ensures !(d.Some? && d.value != "") ==> r == "No description."
  {
    if d.Some? && d.value != "" then d.value else "No description."
  }

  /** The text after "Spent $x / $y" in the card's header. */
  datatype Summary = RemainingBy(left: int) | OverBy(excess: int) | NoSummary

  /**
   * `total > spent ? Remaining max(total - spent, 0) : total > 0 ? Over by
   * (spent - total) : nothing`.
   */
  function SummaryLine(total: int, spent: int): (r: Summary)
    ensures r.RemainingBy? <==> total > spent
    ensures r.OverBy? <==> total <= spent && total > 0
    ensures r.RemainingBy? ==> r.left > 0 && spent + r.left == total
    ensures r.OverBy? ==> r.excess >= 0 && total + r.excess == spent
  {
    if total > spent then RemainingBy(if total - spent > 0 then total - spent else 0)
    else if total > 0 then OverBy(spent - total)
    else NoSummary
  }

  /** The icon, colour and name an item line shows. */
  datatype Display = Display(icon: string, color: string, name: string)

  /** A missing category, or a missing part of one, shows the defaults. */
  function ItemDisplay(c: Option<Category>): (r: Display)
    ensures c.None? ==> r == Display("\U{1F3F7}\U{FE0F}", "#999", "Uncategorized")
    ensures c.Some? ==>
      && r.icon == c.value.icon.GetOr("\U{1F3F7}\U{FE0F}")
      && r.color == c.value.color.GetOr("#999")
      && r.name == c.value.name.GetOr("Uncategorized")
  {
    if c.None? then Display("\U{1F3F7}\U{FE0F}", "#999", "Uncategorized")
    else Display(c.value.icon.GetOr("\U{1F3F7}\U{FE0F}"), c.value.color.GetOr("#999"),
                 c.value.name.GetOr("Uncategorized"))
  }

  /** `x.amount > 0 ? Math.min((x.spent / x.amount) * 100, 100) : 0`. */
  function ItemPct(x: ItemWithSpent): real {
    if x.amount > 0 then
      var p := (x.spent as real) / (x.amount as real) * 100.0;
      if p < 100.0 then p else 100.0
    else 0.0
  }

  /** `x.amount > 0 ? Math.max(x.spent - x.amount, 0) : 0`. */
  function ItemOver(x: ItemWithSpent): int {
    if x.amount > 0 then (if x.spent - x.amount > 0 then x.spent - x.amount else 0) else 0
  }

  /** `Math.max(x.amount - x.spent, 0)`. */
  function ItemRemaining(x: ItemWithSpent): int {
    if x.amount - x.spent > 0 then x.amount - x.spent else 0
  }

  /** The badge under an item's bar: "Over by" when it is overspent, else "Remaining". */
  function ItemBadge(x: ItemWithSpent): (r: Summary)
    ensures r.OverBy? <==> ItemOver(x) > 0
    ensures r.OverBy? ==> r.excess == ItemOver(x)
    ensures r.RemainingBy? ==> r.left == ItemRemaining(x)
    ensures !r.NoSummary?
  {
    if ItemOver(x) > 0 then OverBy(ItemOver(x)) else RemainingBy(ItemRemaining(x))
  }

  lemma RatioBelow(s: real, a: real)
    requires a > 0.0 && s < a
    ensures s / a * 100.0 < 100.0
  {
    assert s / a < 1.0;
  }

  lemma RatioAtLeast(s: real, a: real)
    requires a > 0.0 && s >= a
    ensures s / a * 100.0 >= 100.0
  {
    assert s / a >= 1.0;
  }

  lemma RatioNonNeg(s: real, a: real)
    requires a > 0.0 && s >= 0.0
    ensures s / a * 100.0 >= 0.0
  {
    assert s / a >= 0.0;
  }

  /**
   * The bar never passes 100 and is full exactly when the limit is
   * positive and reached; it is empty without a positive limit and never
   * negative for a non-negative spend. The overspend and what is left are
   * never negative and never both positive; an item is overspent exactly
   * when its positive limit is exceeded, and has something left exactly
   * when its limit is above its spend.
   */
  lemma ItemProgress(x: ItemWithSpent)
    ensures ItemPct(x) <= 100.0
    ensures ItemPct(x) == 100.0 <==> x.amount > 0 && x.spent >= x.amount
    ensures x.amount <= 0 ==> ItemPct(x) == 0.0
    ensures x.spent >= 0 ==> ItemPct(x) >= 0.0
    ensures ItemOver(x) >= 0 && ItemRemaining(x) >= 0
    ensures !(ItemOver(x) > 0 && ItemRemaining(x) > 0)
    ensures ItemOver(x) > 0 <==> x.amount > 0 && x.spent > x.amount
    ensures ItemRemaining(x) > 0 <==> x.amount > x.spent
    ensures x.amount > 0 ==> ItemOver(x) - ItemRemaining(x) == x.spent - x.amount
  {
    if x.amount > 0 {
      var s := x.spent as real;
      var a := x.amount as real;
      if x.spent < x.amount {
        RatioBelow(s, a);
      } else {
        RatioAtLeast(s, a);
      }
      if x.spent >= 0 {
        RatioNonNeg(s, a);
      }
    }
  }
}
