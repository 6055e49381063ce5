/** Display helpers for a transaction row: its key, its date and its signed amount. */
module TxFormat {
  import opened Common
  import opened Text
  import opened Records

  /** `t.id ?? t.transactionId`: the row key prefers `id`. */
  function TxId(t: Transaction): (r: string)
    ensures t.id.Some? ==> r == t.id.value
    ensures t.id.None? ==> r == t.transactionId
  {
    t.id.GetOr(t.transactionId)
  }

  /**
   * `formatDate(created)`: "-" for a missing, empty or unreadable date,
   * otherwise the locale rendering of the instant (a parameter here).
   */
  function FormatDate(created: Stamp, localeDate: int -> string): (r: string)
    ensures !created.At? ==> r == "-"
    ensures created.At? ==> r == localeDate(created.ms)
  {
    match created
    case At(ms) => localeDate(ms)
    case _ => "-"
  }

  /** `(isExpense ? "-" : "+") + "$" + Math.abs(Number(t.amount ?? 0)).toFixed(2)`. */
  function FormatAmount(amount: Option<int>, txType: Option<string>): string {
    var amt := amount.GetOr(0);
    var isExpense := Upper(txType.GetOr("")) == "EXPENSE";
    var v := ToFixed2(if amt < 0 then -amt else amt);
    (if isExpense then "-" else "+") + "$" + v
  }

  /**
   * The text starts with "-" exactly for an expense and with "+" otherwise,
   * then "$", then the absolute amount with two decimals that reads back
   * as that amount; a missing amount shows as 0.
   */
  lemma FormatAmountShape(amount: Option<int>, txType: Option<string>)
    ensures var r := FormatAmount(amount, txType);
      var amt := amount.GetOr(0);
      && |r| >= 6
      && (r[0] == '-' <==> LooseKind(txType.GetOr("")) == Expense)
      && (r[0] == '+' <==> LooseKind(txType.GetOr("")) != Expense)
      && r[1] == '$'
      && IsDigit(r[2])
      && ParseDecimal(r[2..]) == Finite(if amt < 0 then -amt else amt)
  {
    var amt := amount.GetOr(0);
    var m := if amt < 0 then -amt else amt;
    var r := FormatAmount(amount, txType);
    var v := ToFixed2(m);
    assert r[2..] == v;
    assert v == NatToString(m / 100) + "." + TwoDigits(m % 100);
    assert v[0] == NatToString(m / 100)[0];
    ParseToFixed2(m);
  }
}
