/**
 * The two export actions of the transaction list: a CSV file of quoted
 * cells in list order, and an HTML table, newest first, that a spreadsheet
 * opens with income rows green and expense rows red. The download itself
 * is left out; an export is the file name and content it would download.
 */
module TransactionExport {
  import opened Common
  import opened Text
  import opened Records
  import opened Sorting

  /**
   * What an export does: alert that there is nothing to export, fail
   * because `toFixed` was called on a missing amount, or download a file.
   */
  datatype ExportOutcome = NothingToExport | Fails | File(name: string, content: string)

  const FilePrefix: string := "transactions_"

  /**
   * The default file name: "transactions_", then the ISO instant up to its
   * first 'T' (the date part), then ".csv".
   */
  function DefaultFilename(isoNow: string): (r: string)
    ensures |r| >= |FilePrefix| + 4
    ensures r[..|FilePrefix|] == FilePrefix && r[|r| - 4..] == ".csv"
    ensures BeforeFirst(isoNow, 'T', r[|FilePrefix|..|r| - 4])
  {
    var m := Split(isoNow, 'T')[0];
    SplitFirst(isoNow, 'T');
    ThreeParts(FilePrefix, m, ".csv");
    FilePrefix + m + ".csv"
  }

  /** The three pieces of `a + m + b` can be sliced back out. */
  lemma ThreeParts<T>(a: seq<T>, m: seq<T>, b: seq<T>)
    ensures var r := a + m + b;
      && |r| == |a| + |m| + |b|
      && r[..|a|] == a && r[|r| - |b|..] == b && r[|a|..|r| - |b|] == m
  {
  }

  const Headers: seq<string> :=
    ["Date", "Type", "Target", "Description", "Amount", "Category", "Recurring", "Recurring Rate"]

  /** `new Date(created).toLocaleDateString()`: an unreadable date renders as "Invalid Date". */
  function DateCell(created: Stamp, localeDate: int -> string): (r: string)
    ensures created.At? ==> r == localeDate(created.ms)
    ensures !created.At? ==> r == "Invalid Date"
  {
    match created
    case At(ms) => localeDate(ms)
    case _ => "Invalid Date"
  }

  /** "N days" for a truthy rate, "-" otherwise. */
  function RateCell(t: Transaction): string {
    if t.HasRate() then IntToString(t.recurringRate.value) + " days" else "-"
  }

  predicate Priced(t: Transaction) { t.amount.Some? }

  predicate AllPriced(txs: seq<Transaction>) {
    forall i :: 0 <= i < |txs| ==> Priced(txs[i])
  }

  /** The eight cells of a record, under the eight headers. */
  function Cells(t: Transaction, categoryName: string -> string, localeDate: int -> string): (c: seq<string>)
    requires Priced(t)
    ensures |c| == |Headers|
  {
    [ DateCell(t.created, localeDate),
      t.txType,
      t.target.GetOr("-"),
      t.description.GetOr("-"),
      ToFixed2(t.amount.value),
      categoryName(t.category.GetOr("")),
      if t.recurring then "Yes" else "No",
      RateCell(t) ]
  }

  /**
   * What the cells say about the record: the amount cell reads back as the
   * amount, the recurring cell is "Yes" exactly for a recurring record, a
   * missing target or description shows as "-", and the rate cell is "-"
   * exactly when there is no (non-zero) rate and otherwise splits into the
   * rate and "days".
   */
  lemma CellsFacts(t: Transaction, categoryName: string -> string, localeDate: int -> string)
    requires Priced(t)
    ensures var c := Cells(t, categoryName, localeDate);
      && ParseDecimal(c[4]) == Finite(t.amount.value)
      && (c[6] == "Yes" <==> t.recurring)
      && (t.target.None? ==> c[2] == "-")
      && (t.description.None? ==> c[3] == "-")
      && (c[7] == "-" <==> !t.HasRate())
      && (t.HasRate() ==> Split(c[7], ' ') == [IntToString(t.recurringRate.value), "days"])
  {
    ParseToFixed2(t.amount.value);
    if t.HasRate() {
      var n := IntToString(t.recurringRate.value);
      assert ' ' !in n by { IntToStringNoSpace(t.recurringRate.value); }
      assert n + " days" == Join([n, "days"], ' ');
      SplitJoin([n, "days"], ' ');
      assert |RateCell(t)| > 1;
    }
  }

  lemma IntToStringNoSpace(n: int)
    ensures ' ' !in IntToString(n)
  {
    var d := NatToString(if n < 0 then -n else n);
    assert forall i :: 0 <= i < |d| ==> d[i] != ' ';
    if n < 0 {
      assert IntToString(n) == "-" + d;
    }
  }

  /** A cell between double quotes, with nothing escaped. */
  function Quote(cell: string): string {
    "\"" + cell + "\""
  }

  /** `row.map(cell => `"${cell}"`).join(",")`. */
  function CsvLine(cells: seq<string>): string {
    Join(Map(cells, Quote), ',')
  }

  function RowLines(txs: seq<Transaction>, categoryName: string -> string, localeDate: int -> string): (r: seq<string>)
    requires AllPriced(txs)
    ensures |r| == |txs|
    ensures forall i :: 0 <= i < |txs| ==> r[i] == CsvLine(Cells(txs[i], categoryName, localeDate))
  {
    seq(|txs|, i requires 0 <= i < |txs| => CsvLine(Cells(txs[i], categoryName, localeDate)))
  }

  /** The header line, then one line per record in list order. */
  function CsvContent(txs: seq<Transaction>, categoryName: string -> string, localeDate: int -> string): string
    requires AllPriced(txs)
  {
    Join([Join(Headers, ',')] + RowLines(txs, categoryName, localeDate), '\n')
  }

  /** `exportTransactionsToCSV`. */
  function ExportCsv(txs: seq<Transaction>, categoryName: string -> string, localeDate: int -> string,
                     filename: string): (r: ExportOutcome)
    ensures r.NothingToExport? <==> |txs| == 0
    ensures r.Fails? <==> |txs| > 0 && !AllPriced(txs)
    ensures r.File? ==> r.name == filename
  {
    if |txs| == 0 then NothingToExport
    else if !AllPriced(txs) then Fails
    else File(filename, CsvContent(txs, categoryName, localeDate))
  }

  /** No cell of any record breaks a line. */
  predicate OneLineCells(txs: seq<Transaction>, categoryName: string -> string, localeDate: int -> string)
    requires AllPriced(txs)
  {
    forall i, j :: 0 <= i < |txs| && 0 <= j < |Headers| ==> '\n' !in Cells(txs[i], categoryName, localeDate)[j]
  }

  lemma JoinNoSep(parts: seq<string>, sep: char, c: char)
    requires c != sep
    requires forall i :: 0 <= i < |parts| ==> c !in parts[i]
    ensures c !in Join(parts, sep)
    decreases |parts|
  {
    if |parts| > 1 {
      JoinNoSep(parts[1..], sep, c);
    }
  }

  /**
   * Reading the CSV file back: split at line breaks it has the header line
   * of the eight header names and then one line per record, in list order,
   * holding that record's quoted cells.
   */
  lemma {:induction false} CsvLinesReadBack(txs: seq<Transaction>, categoryName: string -> string,
                                            localeDate: int -> string, filename: string)
    requires AllPriced(txs)
    requires OneLineCells(txs, categoryName, localeDate)
    ensures var r := ExportCsv(txs, categoryName, localeDate, filename);
      r.File? ==>
        var lines := Split(r.content, '\n');
        && |lines| == |txs| + 1
        && Split(lines[0], ',') == Headers
        && forall i :: 0 <= i < |txs| ==> lines[i + 1] == CsvLine(Cells(txs[i], categoryName, localeDate))
  {
    var rows := RowLines(txs, categoryName, localeDate);
    var parts := [Join(Headers, ',')] + rows;
    HeaderLine();
    forall i | 0 <= i < |parts|
      ensures '\n' !in parts[i]
    {
      if i > 0 {
        CsvLineOneLine(Cells(txs[i - 1], categoryName, localeDate));
      }
    }
    SplitJoin(parts, '\n');
  }

  /** The header line is one line that splits at commas into the eight names. */
  lemma HeaderLine()
    ensures '\n' !in Join(Headers, ',')
    ensures Split(Join(Headers, ','), ',') == Headers
  {
    PlainNames(Headers);
  }

  lemma PlainNames(h: seq<string>)
    requires h == Headers
    ensures '\n' !in Join(h, ',')
    ensures Split(Join(h, ','), ',') == h
  {
    forall i | 0 <= i < |h|
      ensures '\n' !in h[i] && ',' !in h[i]
    {
    }
    JoinNoSep(h, ',', '\n');
    SplitJoin(h, ',');
  }

  lemma CsvLineOneLine(cells: seq<string>)
    requires forall j :: 0 <= j < |cells| ==> '\n' !in cells[j]
    ensures '\n' !in CsvLine(cells)
  {
    var q := Map(cells, Quote);
    forall j | 0 <= j < |q|
      ensures '\n' !in q[j]
    {
      assert q[j] == "\"" + cells[j] + "\"";
    }
    JoinNoSep(q, ',', '\n');
  }

  /** The length of the leading run of `s` without a double quote. */
  function QuoteFree(s: string): (k: nat)
    ensures k <= |s|
    ensures forall i :: 0 <= i < k ==> s[i] != '"'
    ensures k < |s| ==> s[k] == '"'
    decreases |s|
  {
    if |s| == 0 || s[0] == '"' then 0 else 1 + QuoteFree(s[1..])
  }

  lemma {:induction false} QuoteFreePrefix(p: string, rest: string)
    requires '"' !in p
    requires rest != [] && rest[0] == '"'
    ensures QuoteFree(p + rest) == |p|
    decreases |p|
  {
    if |p| > 0 {
      assert (p + rest)[1..] == p[1..] + rest;
      QuoteFreePrefix(p[1..], rest);
    } else {
      assert p + rest == rest;
    }
  }

  /**
   * A reader for a line of quoted cells, `"a","b",…`, whose cells hold no
   * double quote; the partner of `CsvLine`.
   */
  function ReadQuoted(s: string): Option<seq<string>>
    decreases |s|
  {
    if |s| < 2 || s[0] != '"' then None
    else
      var k := QuoteFree(s[1..]);
      if k == |s| - 1 then None
      else
        var rest := s[k + 2..];
        if rest == [] then Some([s[1..k + 1]])
        else if rest[0] != ',' then None
        else
          match ReadQuoted(rest[1..])
          case None => None
          case Some(more) => Some([s[1..k + 1]] + more)
  }

  /**
   * Quoting lets a cell hold commas: a CSV line reads back as its cells
   * when no cell holds a double quote (quotes inside a cell are not doubled).
   */
  lemma {:induction false} CsvLineReadBack(cells: seq<string>)
    requires |cells| >= 1
    requires forall i :: 0 <= i < |cells| ==> '"' !in cells[i]
    ensures ReadQuoted(CsvLine(cells)) == Some(cells)
    decreases |cells|
  {
    var c := cells[0];
    var rest: string := if |cells| == 1 then "" else [','] + CsvLine(cells[1..]);
    CsvLineShape(cells);
    ReadQuotedStep(c, rest);
    if |cells| > 1 {
      assert rest[1..] == CsvLine(cells[1..]);
      CsvLineReadBack(cells[1..]);
      assert cells == [c] + cells[1..];
    } else {
      assert cells == [c];
    }
  }

  /** A line is the first quoted cell, then a comma and the line of the others when there are any. */
  lemma CsvLineShape(cells: seq<string>)
    requires |cells| >= 1
    ensures CsvLine(cells) == Quote(cells[0]) + (if |cells| == 1 then "" else [','] + CsvLine(cells[1..]))
  {
    var q := Map(cells, Quote);
    if |cells| > 1 {
      assert q[1..] == Map(cells[1..], Quote);
    }
  }

  /** Reading a quoted cell without quotes inside gives the cell back, then reads on after the comma. */
  lemma ReadQuotedStep(c: string, rest: string)
    requires '"' !in c
    requires rest == [] || rest[0] == ','
    ensures ReadQuoted(Quote(c) + rest) ==
      if rest == [] then Some([c])
      else match ReadQuoted(rest[1..])
        case None => None
        case Some(more) => Some([c] + more)
  {
    var s := Quote(c) + rest;
    var tail := "\"" + rest;
    assert s == "\"" + (c + tail);
    assert s[1..] == c + tail;
    QuoteFreePrefix(c, tail);
    assert s[1..|c| + 1] == c;
    assert s[|c| + 2..] == rest;
  }

  // ---- the coloured export ----

  const HtmlHead: string :=
    "<html><head><meta charset=\"utf-8\"><style>"
    + "table { border-collapse: collapse; width: 100%; font-family: Arial, sans-serif; }"
    + "th { background-color: #f0f0f0; padding: 8px; border: 1px solid #ddd; font-weight: bold; text-align: left; }"
    + "td { padding: 8px; border: 1px solid #ddd; }"
    + ".income { color: #16a34a; font-weight: 600; }"
    + ".expense { color: #dc2626; font-weight: 600; }"
    + "</style></head><body><table><thead><tr>"
    + "<th>Date</th><th>Type</th><th>Target</th><th>Description</th>"
    + "<th>Amount</th><th>Category</th><th>Recurring</th><th>Recurring Rate</th>"
    + "</tr></thead><tbody>"

  const HtmlTail: string := "</tbody></table></body></html>"

  /** `tx.type === "INCOME" ? "income" : "expense"`: exact, unlike the list's badges. */
  function ColorClass(t: Transaction): string {
    if t.txType == "INCOME" then "income" else "expense"
  }

  function Td(cell: string): string {
    "<td>" + cell + "</td>"
  }

  /** One table row: the CSV cells, the amount behind a "$". */
  function HtmlRow(t: Transaction, categoryName: string -> string, localeDate: int -> string): string
    requires Priced(t)
  {
    var c := Cells(t, categoryName, localeDate);
    RowOpen(t)
      + Td(c[0]) + Td(c[1]) + Td(c[2]) + Td(c[3]) + Td("$" + c[4]) + Td(c[5]) + Td(c[6]) + Td(c[7])
      + "</tr>"
  }

  /** The row's opening tag, carrying its colour class. */
  function RowOpen(t: Transaction): string {
    "<tr class=\"" + ColorClass(t) + "\">"
  }

  const IncomeOpen: string := "<tr class=\"income\">"

  /** A row opens with the income class exactly when the type is exactly "INCOME". */
  lemma RowClass(t: Transaction, categoryName: string -> string, localeDate: int -> string)
    requires Priced(t)
    ensures var row := HtmlRow(t, categoryName, localeDate);
      && |row| >= |IncomeOpen|
      && (row[..|IncomeOpen|] == IncomeOpen <==> t.txType == "INCOME")
  {
    var c := Cells(t, categoryName, localeDate);
    var rest := Td(c[0]) + Td(c[1]) + Td(c[2]) + Td(c[3]) + Td("$" + c[4]) + Td(c[5]) + Td(c[6]) + Td(c[7]) + "</tr>";
    ConcatAssoc8(RowOpen(t), c, rest);
    OpenClass(t);
    PrefixThrough(RowOpen(t), rest, |IncomeOpen|);
  }

  /** `HtmlRow` is its opening tag followed by the cells. */
  lemma ConcatAssoc8(open: string, c: seq<string>, rest: string)
    requires |c| == 8
    requires rest == Td(c[0]) + Td(c[1]) + Td(c[2]) + Td(c[3]) + Td("$" + c[4]) + Td(c[5]) + Td(c[6]) + Td(c[7]) + "</tr>"
    ensures open + Td(c[0]) + Td(c[1]) + Td(c[2]) + Td(c[3]) + Td("$" + c[4]) + Td(c[5]) + Td(c[6]) + Td(c[7]) + "</tr>"
      == open + rest
  {
  }

  /** The opening tag is at least as long as the income tag, and begins with it exactly for "INCOME". */
  lemma OpenClass(t: Transaction)
    ensures |RowOpen(t)| >= |IncomeOpen|
    ensures RowOpen(t)[..|IncomeOpen|] == IncomeOpen <==> t.txType == "INCOME"
  {
    if t.txType != "INCOME" {
      assert RowOpen(t)[11] == 'e' && IncomeOpen[11] == 'i';
    }
  }

  /** A prefix no longer than `a` of `a + b` is that prefix of `a`. */
  lemma PrefixThrough<T>(a: seq<T>, b: seq<T>, n: nat)
    requires n <= |a|
    ensures |a + b| >= n && (a + b)[..n] == a[..n]
  {
  }

  /** The rows of `ts`, in order. */
  function HtmlRows(ts: seq<Transaction>, categoryName: string -> string, localeDate: int -> string): string
    requires AllPriced(ts)
    decreases |ts|
  {
    if |ts| == 0 then ""
    else HtmlRows(ts[..|ts| - 1], categoryName, localeDate) + HtmlRow(ts[|ts| - 1], categoryName, localeDate)
  }

  lemma HtmlRowsSnoc(s: seq<Transaction>, i: nat, categoryName: string -> string, localeDate: int -> string)
    requires i < |s| && AllPriced(s[..i]) && Priced(s[i])
    ensures AllPriced(s[..i + 1])
    ensures HtmlRows(s[..i + 1], categoryName, localeDate)
      == HtmlRows(s[..i], categoryName, localeDate) + HtmlRow(s[i], categoryName, localeDate)
  {
    assert s[..i + 1][..i] == s[..i];
  }

  /** The copy `[...transactions].sort(...)` the table is built from. */
  function NewestFirstOrder(txs: seq<Transaction>): seq<Transaction> {
    SortBy(txs, NewestFirst())
  }

  /** `exportTransactionsToColoredExcel`, as a value. */
  function ColoredOutcome(txs: seq<Transaction>, categoryName: string -> string, localeDate: int -> string,
                          filename: string): ExportOutcome
  {
    if |txs| == 0 then NothingToExport
    else
      var sorted := NewestFirstOrder(txs);
      if !AllPriced(sorted) then Fails
      else File(ReplaceFirst(filename, ".csv", ".xls"),
                HtmlHead + HtmlRows(sorted, categoryName, localeDate) + HtmlTail)
  }

  /** `exportTransactionsToColoredExcel`: sort a copy, then append one row per record. */
  method ExportColored(txs: seq<Transaction>, categoryName: string -> string, localeDate: int -> string,
                       filename: string) returns (outcome: ExportOutcome)
    ensures outcome == ColoredOutcome(txs, categoryName, localeDate, filename)
  {
    if |txs| == 0 {
      return NothingToExport;
    }
    var sorted := NewestFirstOrder(txs);
    var rows := BuildRows(sorted, categoryName, localeDate);
    if rows.None? {
      return Fails;
    }
    outcome := File(ReplaceFirst(filename, ".csv", ".xls"), HtmlHead + rows.value + HtmlTail);
  }

  /** The loop that appends one row per record; a record without an amount throws. */
  method BuildRows(sorted: seq<Transaction>, categoryName: string -> string, localeDate: int -> string)
    returns (rows: Option<string>)
    ensures rows.Some? <==> AllPriced(sorted)
    ensures rows.Some? ==> rows.value == HtmlRows(sorted, categoryName, localeDate)
  {
    var acc := "";
    var i := 0;
    while i < |sorted|
      invariant 0 <= i <= |sorted|
      invariant AllPriced(sorted[..i])
      invariant acc == HtmlRows(sorted[..i], categoryName, localeDate)
    {
      if sorted[i].amount.None? {
        assert !Priced(sorted[i]);
        return None;
      }
      HtmlRowsSnoc(sorted, i, categoryName, localeDate);
      acc := acc + HtmlRow(sorted[i], categoryName, localeDate);
      i := i + 1;
    }
    TakeAll(sorted);
    rows := Some(acc);
  }

  lemma AllPricedPermutation(a: seq<Transaction>, b: seq<Transaction>)
    requires multiset(a) == multiset(b)
    ensures AllPriced(a) <==> AllPriced(b)
  {
    if AllPriced(a) {
      forall i | 0 <= i < |b| ensures Priced(b[i]) {
        assert b[i] in multiset(a);
      }
    }
    if AllPriced(b) {
      forall i | 0 <= i < |a| ensures Priced(a[i]) {
        assert a[i] in multiset(b);
      }
    }
  }

  /**
   * The coloured export alerts and fails exactly when the CSV export does:
   * on an empty list and on a record with no amount.
   */
  lemma ColoredFailsLikeCsv(txs: seq<Transaction>, categoryName: string -> string, localeDate: int -> string,
                            filename: string)
    ensures var r := ColoredOutcome(txs, categoryName, localeDate, filename);
      && (r.NothingToExport? <==> ExportCsv(txs, categoryName, localeDate, filename).NothingToExport?)
      && (r.Fails? <==> ExportCsv(txs, categoryName, localeDate, filename).Fails?)
      && (r.File? ==> r.name == ReplaceFirst(filename, ".csv", ".xls"))
  {
    AllPricedPermutation(txs, NewestFirstOrder(txs));
  }

  /**
   * The table holds the same records as the list, newest first once every
   * record has its date.
   */
  lemma {:induction false} NewestFirstRows(txs: seq<Transaction>)
    ensures multiset(NewestFirstOrder(txs)) == multiset(txs)
    ensures forall i, j :: 0 <= i < j < |NewestFirstOrder(txs)| ==>
      NewestFirstOrder(txs)[i].CreatedMs() >= NewestFirstOrder(txs)[j].CreatedMs()
    ensures (forall k :: 0 <= k < |txs| ==> txs[k].created.At?) ==>
      forall i :: 0 <= i < |NewestFirstOrder(txs)| ==> NewestFirstOrder(txs)[i].created.At?
  {
    var sorted := NewestFirstOrder(txs);
    SortBySorted(txs, NewestFirst());
    forall i, j | 0 <= i < j < |sorted|
      ensures sorted[i].CreatedMs() >= sorted[j].CreatedMs()
    {
      assert NewestFirst()(sorted[i], sorted[j]);
    }
    if forall k :: 0 <= k < |txs| ==> txs[k].created.At? {
      forall i | 0 <= i < |sorted|
        ensures sorted[i].created.At?
      {
        assert sorted[i] in multiset(txs);
      }
    }
  }

  // ---- the file name ----

  /** `s.replace(pat, rep)` with a text pattern: only the first occurrence is replaced. */
  function ReplaceFirst(s: string, pat: string, rep: string): string
    decreases |s|
  {
    if pat <= s then rep + s[|pat|..]
    else if |s| == 0 then s
    else [s[0]] + ReplaceFirst(s[1..], pat, rep)
  }

  /** A text without the pattern is left alone. */
  lemma {:induction false} ReplaceAbsent(s: string, pat: string, rep: string)
    requires !Contains(s, pat)
    ensures ReplaceFirst(s, pat, rep) == s
    decreases |s|
  {
    if |s| > 0 {
      ReplaceAbsent(s[1..], pat, rep);
    }
  }

  /** A prefix free of the pattern's first character is passed over. */
  lemma {:induction false} ReplaceSkips(a: string, b: string, pat: string, rep: string)
    requires |pat| > 0 && pat[0] !in a
    ensures ReplaceFirst(a + b, pat, rep) == a + ReplaceFirst(b, pat, rep)
    decreases |a|
  {
    if |a| > 0 {
      assert (a + b)[0] == a[0] != pat[0];
      assert !(pat <= a + b);
      assert (a + b)[1..] == a[1..] + b;
      ReplaceSkips(a[1..], b, pat, rep);
    } else {
      assert a + b == b;
    }
  }

  /** The default name becomes the same name with the `.xls` extension. */
  lemma DefaultXlsName(isoNow: string)
    requires '.' !in Split(isoNow, 'T')[0]
    ensures ReplaceFirst(DefaultFilename(isoNow), ".csv", ".xls")
      == "transactions_" + Split(isoNow, 'T')[0] + ".xls"
  {
    var a := "transactions_" + Split(isoNow, 'T')[0];
    assert '.' !in "transactions_";
    assert DefaultFilename(isoNow) == a + ".csv";
    ReplaceSkips(a, ".csv", ".csv", ".xls");
  }
}
