# Treasurly core, modelled in Dafny

Treasurly is a personal-finance application. Its React frontend lists a
user's transactions and budgets, builds reports from them and exports them.
Its Spring backend stores transactions and budgets in MongoDB and enforces
the rules for creating, changing and deleting them. This project models
the rules of both halves and proves what the code promises about them.

Frontend:

- the analytics engine: totals, category breakdown, monthly
  trend, the recurrence counter, projected spending, upcoming recurring
  expenses, and budget against actual spend;
- the budget editor, the transaction form, and the transaction validator
  and decoder;
- the amount, date and row-key formatting, and the CSV and coloured
  spreadsheet exports;
- the dashboard's category resolution, its top-budgets ranking and its
  recent-transactions table;
- the budgets page and the budget card;
- the sign-up page's password hints and error handling.

Backend:

- the in-memory `Budget` object;
- `BudgetService`;
- `TransactionService`.

Conventions:

- Amounts are integer cents. The card's progress ratio is a `real`.
- Instants are integer milliseconds.
- A JavaScript `undefined` or `null`, or a Java `null`, is `None`.
- A JavaScript `Map` is an ordered association list (`Assoc.Entries`).
  `set` on a present key keeps its position, as a `Map` does.
- The frontend reads transaction types case-insensitively (ASCII upper-casing).
  The backend compares them exactly. `Records.Kind` keeps both readings apart.
- React state becomes a class whose fields the handlers replace: `BudgetForm.Editor`,
  `TransactionForm.Form`, `BudgetsPage.Page` and `Signup.Page`.
- Budget.java's objects and the services' repositories are classes with
  `modifies` clauses. The budget repository is a `map` from id to
  document. The transaction repository is an association list keyed by
  transaction id.
- Each loop of the source is a method with its invariants, proved against
  a function that states the result. Properties of that function are proved as lemmas.

## Model

| member | source | states |
|---|---|---|
| Analytics.GetTotals | frontend/src/lib/analytics.ts:10-22 | income sums the records whose upper-cased type is INCOME, expenses sums every other record, net is income less expenses, and income plus expenses is the sum of all amounts; a missing amount counts 0 |
| Analytics.TotalsPartition | frontend/src/lib/analytics.ts:13-15 | each record falls in exactly one of the two sums, so they add up to the sum of all amounts |
| Analytics.GetCategoryBreakdown | frontend/src/lib/analytics.ts:26-34 | one slice per category (missing category as "unknown") in first-seen order, distinct ids, a category has a slice iff some expense is filed under it, each slice is the sum of that category's expenses, and the slices sum to all upper-cased EXPENSE amounts |
| Grouping.SumInto | frontend/src/lib/analytics.ts:28-32 | `map.set(k, (map.get(k) || 0) + v)` over a run of records extends the first-seen grouping with per-key sums by exactly those records |
| Analytics.BreakdownFacts | frontend/src/lib/analytics.ts:26-34 | the grouping the loop computes has distinct keys, per-key sums, exactly the occurring keys, and sums to the total expense |
| Analytics.MonthLeTotal | frontend/src/lib/analytics.ts:50 | the month comparator is a total preorder, so the month sort is well defined |
| Analytics.GetMonthlyTrend | frontend/src/lib/analytics.ts:38-52 | unreadable dates are skipped; months are strictly ascending; each month's income and expenses are the sums of its records; all points together sum to all dated amounts |
| Analytics.TrendFacts | frontend/src/lib/analytics.ts:38-52 | the sorted buckets have strictly increasing keys and per-month income and non-income sums that partition the dated records |
| Recurrence.CeilDiv | frontend/src/lib/analytics.ts:64-65 | the result is the least integer whose multiple of the divisor reaches the dividend |
| Recurrence.NestedCeil | frontend/src/lib/analytics.ts:64-66 | ceiling of day difference then ceiling by interval equals one ceiling by the interval in milliseconds |
| Recurrence.OccurrencesWithin | frontend/src/lib/analytics.ts:57-72 | 0 for a missing or non-positive interval; for a positive one, 0 iff the first occurrence lies after the window end; never negative |
| Recurrence.FirstStepIsLeast | frontend/src/lib/analytics.ts:59-67 | the first occurrence is at or after `from`, it is an occurrence with index at least 0, and no earlier occurrence index is at or after `from` |
| Recurrence.OccurrencesExact | frontend/src/lib/analytics.ts:57-72 | an occurrence index lies in the closed window from `from` to `from + horizon` iff it is one of the counted consecutive indices from the first step |
| Recurrence.OccurrenceMonotone | frontend/src/lib/analytics.ts:66 | a later occurrence index is a later instant for a positive interval |
| Recurrence.HorizonMonotone | frontend/src/lib/analytics.ts:57-72 | a longer horizon never counts fewer occurrences |
| Recurrence.NextOnOrAfter | frontend/src/lib/analytics.ts:107-110 | the stepping loop stops at the first occurrence at or after `now` (the start itself when it is not before `now`) |
| Analytics.GetProjectedSpending | frontend/src/lib/analytics.ts:74-86 | the total is the sum over recurring upper-cased EXPENSE records with a truthy rate and a readable date of occurrences in the horizon times the amount |
| Analytics.ProjectionMonotone | frontend/src/lib/analytics.ts:74-86 | with non-negative amounts a longer horizon never projects less |
| Analytics.ListUpcomingRecurring | frontend/src/lib/analytics.ts:96-123 | the items are the qualifying records' next dates sorted soonest first, a permutation of the per-record list |
| Analytics.UpcomingMatchesProjection | frontend/src/lib/analytics.ts:96-123 | a record is listed iff the counter counts at least one occurrence for it, and its next date is the earliest occurrence at or after `now` |
| Analytics.UpcomingFromRecords | frontend/src/lib/analytics.ts:100-120 | every item comes from a recurring expense, lies within the horizon, and carries that record's id, amount and rate |
| Analytics.Dedup | frontend/src/lib/analytics.ts:151 | the set of ids keeps exactly the values of the list, each once |
| Analytics.SumBudgetsByCategory | frontend/src/lib/analytics.ts:142-149 | the nested loop sums every budget item's amount under `category.id`, else `categoryId`, else "unknown" |
| Analytics.BuildRows | frontend/src/lib/analytics.ts:152-157 | one row per id, in order, from the two sums |
| Analytics.GetBudgetComparison | frontend/src/lib/analytics.ts:132-159 | rows sorted by spend descending, one per category, a category has a row iff it has an expense or a budget item, and each row's remaining is budgeted less spent |
| Analytics.ComparisonOrder | frontend/src/lib/analytics.ts:158 | the sorted rows are ordered by spend and have distinct ids |
| Analytics.ComparisonKeys | frontend/src/lib/analytics.ts:151-157 | a category has a row iff it is a key of the actuals or of the budget sums |
| Analytics.ComparisonValues | frontend/src/lib/analytics.ts:153-157 | each row holds its category's budget sum, spend, and their difference |
| BudgetForm.AddItemFacts | frontend/src/components/Budget/BudgetForm.tsx:59-78 | when the row may not be added nothing changes; otherwise exactly one item from the row is appended, the total grows by its amount, and the categories stay distinct |
| BudgetForm.RemoveItemFacts | frontend/src/components/Budget/BudgetForm.tsx:80-82 | no item of the category remains, the others stay in order, an absent category changes nothing, and the categories stay distinct |
| BudgetForm.RemovePresent | frontend/src/components/Budget/BudgetForm.tsx:80-82 | removing the category at one position removes just that item |
| BudgetForm.TotalWithout | frontend/src/components/Budget/BudgetForm.tsx:49-52 | removing an item lowers the total by exactly its amount |
| BudgetForm.OthersKept | frontend/src/components/Budget/BudgetForm.tsx:80-82 | removing one item keeps every other item |
| BudgetForm.ItemsIssuesEmpty | frontend/src/components/Budget/BudgetForm.tsx:12-17 | the items raise no issue iff each has a category and a positive amount |
| BudgetForm.ValidateFormFacts | frontend/src/components/Budget/BudgetForm.tsx:8-18 | the form passes iff it has a name, at least one item, and every item passes |
| BudgetForm.CollectFieldErrors | frontend/src/components/Budget/BudgetForm.tsx:123-127 | the loop builds the map of each issue's dotted path (or "form") to its message, a later issue overwriting |
| BudgetForm.FieldErrorsKeys | frontend/src/components/Budget/BudgetForm.tsx:123-127 | the field errors have exactly one key per distinct issue key |
| BudgetForm.FieldErrorsLast | frontend/src/components/Budget/BudgetForm.tsx:123-127 | each key holds the message of the last issue with that key |
| BudgetForm.BannerIsGeneric | frontend/src/components/Budget/BudgetForm.tsx:129 | no issue of this schema has an empty path, so the banner is always the generic prompt |
| BudgetForm.FindCategory | frontend/src/components/Budget/BudgetForm.tsx:96 | the first category with that id, none when no category has it |
| BudgetForm.PayloadFacts | frontend/src/components/Budget/BudgetForm.tsx:94-112 | one request item per form item, in order, same amount, the form frequency or 0, and the category the page knows for that id |
| BudgetForm.Editor.constructor | frontend/src/components/Budget/BudgetForm.tsx:35-44 | starts with an empty name, frequency 2, no items and an empty row |
| BudgetForm.Editor.SetRow | frontend/src/components/Budget/BudgetForm.tsx:41-44 | replaces the row only |
| BudgetForm.Editor.AddItem | frontend/src/components/Budget/BudgetForm.tsx:71-78 | items become the added items, and the row is reset only when the row could be added; the editor invariant is kept |
| BudgetForm.Editor.RemoveItem | frontend/src/components/Budget/BudgetForm.tsx:80-82 | items lose that category and the row is unchanged; the invariant is kept |
| BudgetForm.Editor.Submit | frontend/src/components/Budget/BudgetForm.tsx:85-135 | the outcome is the request or the field errors; after a created budget the editor is reset, otherwise unchanged |
| TransactionForm.Changed | frontend/src/components/Transaction/TransactionForm.tsx:35-49 | the recurring switch takes `checked` or `value === "true"` and clears the rate when switched off; the amount stores `Number(value)`; any other field stores its value; nothing else changes |
| TransactionForm.RateClearedPreserved | frontend/src/components/Transaction/TransactionForm.tsx:41-44 | a form switched off with no rate stays so under every event but a rate change |
| TransactionForm.ToInput | frontend/src/components/Transaction/TransactionForm.tsx:56 | the validator receives the form's own target, amount, type, category, flag and rate text |
| TransactionForm.CanSubmitImpliesFieldsPass | frontend/src/components/Transaction/TransactionForm.tsx:95-99 | a submittable form gets no target or amount issue from the validator |
| TransactionForm.BlankTargetValidButBlocked | frontend/src/components/Transaction/TransactionForm.tsx:95-99 | a target of spaces passes the validator but closes the gate |
| TransactionForm.BlankTargetPasses | frontend/src/services/transaction.ts:80-89 | any non-empty target, spaces included, passes the schema when the other fields do |
| TransactionForm.SubmitOutcomeFacts | frontend/src/components/Transaction/TransactionForm.tsx:55-71 | a request is sent iff `schema.parse` accepts the values; it carries the form's fields, "" for a missing description, the recurring flag, and a rate iff recurring, read from the rate text through `z.coerce.number()` |
| TransactionForm.EmptyRateSubmitted | frontend/src/components/Transaction/TransactionForm.tsx:55-68 | a recurring form left on the empty rate choice, otherwise valid, is sent with rate 0 |
| TransactionForm.SubmitIntendedFacts | frontend/src/services/transaction.ts:90-100 | with the corrected coercion a recurring request always carries a rate read from a non-empty rate text |
| TransactionForm.Form.constructor | frontend/src/components/Transaction/TransactionForm.tsx:21-29 | starts at the initial values |
| TransactionForm.Form.HandleChange | frontend/src/components/Transaction/TransactionForm.tsx:35-49 | the values become the changed values |
| TransactionForm.Form.Submit | frontend/src/components/Transaction/TransactionForm.tsx:51-93 | the outcome is the request `schema.parse` lets through, or its issues; a created transaction resets the form to its initial values, otherwise nothing changes |
| TransactionForm.InitialFacts | frontend/src/components/Transaction/TransactionForm.tsx:21-29 | the initial form has no rate and cannot be submitted |
| TransactionSchema.CheckAccepts | frontend/src/services/transaction.ts:79-101 | accepted iff target non-empty, amount a positive number, type one of the two, category allowed, rate not an unreadable text, and a recurring input has a rate; the result keeps the input, `isRecurring` defaulting to false |
| TransactionSchema.CheckErr | frontend/src/services/transaction.ts:79-101 | the validator fails iff some issue is raised, and then reports all of them |
| TransactionSchema.AllPaths | frontend/src/services/transaction.ts:81-101 | the issue paths are those of the field checks followed by the object-level check |
| TransactionSchema.CheckFieldIssues | frontend/src/services/transaction.ts:82-88 | each field check reports on its own path iff that field is wrong |
| TransactionSchema.CheckRateIssues | frontend/src/services/transaction.ts:89-100 | at most one rate issue; one iff the rate text is unreadable, or the input is recurring with no rate and no type error; a non-recurring input gets one only from an unreadable text |
| TransactionSchema.AbortedPieces | frontend/src/services/transaction.ts:84-91 | a type error is present iff the amount or rate is not a number or the type is unknown |
| TransactionSchema.EmptyRateAccepted | frontend/src/services/transaction.ts:90-100 | as written, a recurring input with the empty rate choice is accepted with rate 0 |
| TransactionSchema.CoerceIntended | frontend/src/services/transaction.ts:90 | the empty text counts as no rate; every other value coerces as before |
| TransactionSchema.ValidateIntendedRate | frontend/src/services/transaction.ts:89-100 | with the corrected coercion an accepted recurring input has a rate, and the empty choice raises the rate issue |
| TransactionSchema.DecodeFacts | frontend/src/services/transaction.ts:8-22 | a decoded transaction has an exact type, a readable date and an amount, absent `recurring` reads false, and decoding fails iff one of the ten field checks reports an issue, and then reports exactly those issues in the schema's order |
| TransactionSchema.DecodeEncode | frontend/src/services/transaction.ts:8-22 | decoding the backend's JSON of a decoded transaction gives it back |
| TransactionSchema.DecodeRejectsLowerCase | frontend/src/services/transaction.ts:14 | a lower-case type is rejected |
| TxFormat.TxId | frontend/src/components/Transaction/util.ts:3-5 | `id` when present, else `transactionId` |
| TxFormat.FormatDate | frontend/src/components/Transaction/util.ts:8-18 | "-" for a missing, empty or unreadable date, otherwise the locale rendering |
| TxFormat.FormatAmountShape | frontend/src/components/Transaction/util.ts:21-26 | starts with "-" iff the upper-cased type is EXPENSE and "+" otherwise, then "$" and the absolute amount with two decimals that reads back as it; a missing amount shows 0 |
| Text.ParseToFixed2 | frontend/src/components/Transaction/util.ts:24 | a two-decimal rendering of an amount reads back as that amount |
| TransactionExport.DefaultFilename | frontend/src/services/TransactionExport.ts:17 | the name starts with "transactions_" and ends with ".csv", and its middle is the ISO instant up to its first 'T' |
| Text.SplitFirst | frontend/src/services/TransactionExport.ts:17 | the first part of `split(sep)` is the text before the first separator, or all of it |
| TransactionExport.DateCell | frontend/src/services/TransactionExport.ts:38 | an unreadable date renders "Invalid Date", a readable one its locale rendering |
| TransactionExport.Cells | frontend/src/services/TransactionExport.ts:37-53 | eight cells in header order |
| TransactionExport.CellsFacts | frontend/src/services/TransactionExport.ts:37-53 | the amount cell reads back as the amount, "Yes" iff recurring, "-" for a missing target or description, the rate cell "-" iff no non-zero rate and otherwise the rate then "days" |
| TransactionExport.ExportCsv | frontend/src/services/TransactionExport.ts:14-59 | alerts iff the list is empty, fails iff a record of a non-empty list has no amount, and otherwise downloads under the given name |
| TransactionExport.CsvLinesReadBack | frontend/src/services/TransactionExport.ts:56-59 | split at line breaks the file is the header line and then one line per record, in order |
| TransactionExport.HeaderLine | frontend/src/services/TransactionExport.ts:25-34 | the header is one line of the eight names |
| TransactionExport.CsvLineReadBack | frontend/src/services/TransactionExport.ts:58 | a quoted line reads back as its cells when no cell holds a double quote |
| TransactionExport.RowClass | frontend/src/services/TransactionExport.ts:131-134 | a row has class "income" iff the type is exactly "INCOME" |
| TransactionExport.ExportColored | frontend/src/services/TransactionExport.ts:81-152 | the loop appends exactly the rows of the newest-first copy |
| TransactionExport.BuildRows | frontend/src/services/TransactionExport.ts:126-145 | the `forEach` fails exactly when some record has no amount to format, and otherwise appends one row per record, in order |
| TransactionExport.ColoredFailsLikeCsv | frontend/src/services/TransactionExport.ts:86-89 | the coloured export alerts and fails exactly when the CSV export does |
| TransactionExport.NewestFirstRows | frontend/src/services/TransactionExport.ts:92-94 | the table holds the same records, newest first once all are dated |
| TransactionExport.DefaultXlsName | frontend/src/services/TransactionExport.ts:160 | the default name gets the ".xls" extension |
| TransactionExport.ReplaceAbsent | frontend/src/services/TransactionExport.ts:160 | a name without ".csv" is left as it is |
| CategoryLookup.BuildNameToId | frontend/src/pages/Dashboard.tsx:92-99 | the map equals the name-and-id entries of every category, with distinct keys |
| CategoryLookup.NameToIdGet | frontend/src/pages/Dashboard.tsx:92-99 | a key finds the id of the last category entered under it by name or id |
| CategoryLookup.NameToIdDistinct | frontend/src/pages/Dashboard.tsx:92-99 | the map has distinct keys |
| CategoryLookup.LastEnteredSome | frontend/src/pages/Dashboard.tsx:94-97 | a key resolves iff some category is entered under it |
| CategoryLookup.LastEnteredIsLast | frontend/src/pages/Dashboard.tsx:94-97 | a resolved key names a category entered under it with no later one |
| CategoryLookup.SumExpenses | frontend/src/pages/Dashboard.tsx:110-121 | each category's sum is the sum of the expenses filed under it, it has a key iff one is filed, and the sums add up to every filed expense |
| CategoryLookup.ItemSpent | frontend/src/pages/Dashboard.tsx:127-128 | an item without a category id has spent 0, one with it its category's sum or 0 |
| Dashboard.ResolveCategory | frontend/src/pages/Dashboard.tsx:101-107 | a known `categoryId` wins, else the non-empty legacy text looked up lower-cased and trimmed, else none |
| Dashboard.ResolvesToKnownId | frontend/src/pages/Dashboard.tsx:92-107 | a transaction resolves only to an id some category has |
| Dashboard.ExpenseByCat | frontend/src/pages/Dashboard.tsx:110-121 | sums only upper-cased EXPENSE amounts whose category resolves, per category |
| Dashboard.PctFacts | frontend/src/pages/Dashboard.tsx:134 | 0 without a positive limit, never above 100, the nearest whole percentage below the cap, 100 once spend reaches the limit |
| Dashboard.RowOf | frontend/src/pages/Dashboard.tsx:125-135 | the limit and spend are the items' sums and the utilisation is computed from them |
| Dashboard.TopBudgetsFacts | frontend/src/pages/Dashboard.tsx:124-139 | at most three rows, all budgets up to three, each a budget's row, highest utilisation first, none above 100, none left out used more than one kept |
| Dashboard.RankedFacts | frontend/src/pages/Dashboard.tsx:138 | the ranking reorders the rows, highest first, none above 100 |
| Dashboard.RecentFacts | frontend/src/pages/Dashboard.tsx:226-233 | at most ten transactions with a `created` value, from the list, all shown when ten or fewer; when those values are readable dates, newest first and none left out newer than one shown |
| BudgetCard.FreqLabel | frontend/src/components/Budget/BudgetCard.tsx:42-48 | Weekly iff 1, Monthly iff 2, Yearly iff 3, no label otherwise |
| BudgetCard.EditorChoicesUnlabelled | frontend/src/components/Budget/BudgetCard.tsx:42-48 | 7, 30 and 365 have no label; 2 is Monthly |
| BudgetCard.DescriptionText | frontend/src/components/Budget/BudgetCard.tsx:55 | "No description." for a missing or empty description, else the description |
| BudgetCard.SummaryLine | frontend/src/components/Budget/BudgetCard.tsx:74-78 | Remaining iff total above spent (by their difference), Over by iff total not above spent and positive, nothing otherwise |
| BudgetCard.ItemDisplay | frontend/src/components/Budget/BudgetCard.tsx:83-85 | each missing part falls back to the tag icon, "#999" and "Uncategorized" |
| BudgetCard.ItemBadge | frontend/src/components/Budget/BudgetCard.tsx:112-116 | Over by iff the overspend is positive, by that amount, else Remaining by what is left |
| BudgetCard.ItemProgress | frontend/src/components/Budget/BudgetCard.tsx:86-88 | the bar is at most 100 and full iff the positive limit is reached; overspend and remainder are never negative and never both positive; overspent iff a positive limit is exceeded |
| BudgetsPage.ResolveCategory | frontend/src/pages/BudgetsPage.tsx:68-72 | none for a missing category or one empty once lower-cased and trimmed, else the map's entry for it |
| BudgetsPage.ResolvesToKnownId | frontend/src/pages/BudgetsPage.tsx:58-72 | a resolved id belongs to a category entered under the transaction's text |
| BudgetsPage.AgreesWithDashboard | frontend/src/pages/BudgetsPage.tsx:68-72 | the page and the dashboard resolve alike unless the dashboard first finds a known `categoryId` or the text is blank but non-empty |
| BudgetsPage.ExpenseByCat | frontend/src/pages/BudgetsPage.tsx:75-86 | sums only upper-cased EXPENSE amounts whose category resolves, per category, with distinct keys |
| BudgetsPage.ItemLine | frontend/src/pages/BudgetsPage.tsx:132-141 | category and amount of the item, frequency from the item, else the budget, else 0, and the item's spend |
| BudgetsPage.LinesSums | frontend/src/pages/BudgetsPage.tsx:143-144 | the lines' amounts and spends sum like the items' |
| BudgetsPage.TotalsMatchDashboard | frontend/src/pages/BudgetsPage.tsx:143-144 | total and spent are the items' sums, the figures the dashboard ranks by |
| BudgetsPage.Page.constructor | frontend/src/pages/BudgetsPage.tsx:48 | the list starts empty |
| BudgetsPage.Page.HandleCreated | frontend/src/pages/BudgetsPage.tsx:48-51 | the new budget goes first |
| BudgetsPage.Page.HandleDeleted | frontend/src/pages/BudgetsPage.tsx:53-55 | the budgets with that id are filtered out |
| BudgetsPage.DeletedFacts | frontend/src/pages/BudgetsPage.tsx:53-55 | no budget with the id remains, all others do, an absent id changes nothing |
| Signup.AnyChar | frontend/src/pages/SignupPage.tsx:31-34 | true iff some character satisfies the class |
| Signup.PasswordHints | frontend/src/pages/SignupPage.tsx:29-35 | each of the five hints holds iff length at least 8, a digit, an upper-case letter, a lower-case letter, a non-alphanumeric character |
| Signup.ValidPasswordAccepted | frontend/src/pages/SignupPage.tsx:38 | a valid password meets the backend's rule and the schema's length; a backend-accepted password need not be valid |
| Signup.EnabledMeansValid | frontend/src/pages/SignupPage.tsx:194 | an enabled button means a valid password and nothing in flight |
| Signup.SchemaIssues | frontend/src/services/auth_service.ts:18-23 | no issue iff both names are non-empty, the email is well formed and the password has 8 characters; each issue names its field |
| Signup.FieldErrorsFacts | frontend/src/pages/SignupPage.tsx:70-74 | a field has an error iff some keyed issue names it, with the last such message |
| Signup.FieldErrors | frontend/src/pages/SignupPage.tsx:71-74 | the loop builds the field-error map of the issues |
| Signup.SchemaFieldErrors | frontend/src/pages/SignupPage.tsx:70-76 | one error per failing field under its own name, none for a password the hints accept |
| Signup.ServerMessage | frontend/src/pages/SignupPage.tsx:56-65 | "Email" gives the duplicate-account message, else "Password" the password message, else the server text |
| Signup.UnmappedServerText | frontend/src/pages/SignupPage.tsx:64 | as written an unmapped text shows nothing; the corrected mapping shows it |
| Signup.DuplicateRefusalMapped | frontend/src/pages/SignupPage.tsx:57-58 | the backend's duplicate refusal shows the duplicate-account message |
| Signup.EmailCheckedFirst | frontend/src/pages/SignupPage.tsx:57-59 | a text with both words counts as the email refusal |
| Signup.Page.constructor | frontend/src/pages/SignupPage.tsx:17-20 | no errors, no message, not loading |
| Signup.Page.HandleSubmit | frontend/src/pages/SignupPage.tsx:40-84 | schema failure gives the field errors and the correction prompt; success navigates; a rejection without a server text shows the generic message, one naming "Email" or "Password" shows its message, and both end loading; any other server text throws with no message and loading still set |
| Records.ExactImpliesLoose | backend/src/main/java/com/example/backend/services/BudgetService.java:96 | an exact type is also read so case-insensitively, but not conversely |
| Text.JavaTrimEmpty | backend/src/main/java/com/example/backend/services/BudgetService.java:107-111 | a Java string trims to empty iff all its characters are at most U+0020 |
| BackendModels.Budget.constructor | backend/src/main/java/com/example/backend/models/Budget.java:23-27 | empty item list, both instants `now`, nothing else set |
| BackendModels.Budget.Named | backend/src/main/java/com/example/backend/models/Budget.java:29-33 | as above with the owner and the name set |
| BackendModels.Budget.AddItem | backend/src/main/java/com/example/backend/models/Budget.java:56-59 | one item at the end, earlier items unchanged, size up by one, update instant moved, nothing else changed |
| BackendModels.Budget.RemoveItem | backend/src/main/java/com/example/backend/models/Budget.java:61-64 | throws iff some item lacks a category id, changing nothing; otherwise removes that category's items |
| BackendModels.ItemsWithoutFacts | backend/src/main/java/com/example/backend/models/Budget.java:61-64 | no item of the category remains, every other does, an absent or null id changes nothing |
| BackendModels.ReplaceCategoryItem | backend/src/main/java/com/example/backend/models/Budget.java:56-64 | remove then add leaves exactly one item of that category, at the end |
| BudgetService.ValidateBudget | backend/src/main/java/com/example/backend/services/BudgetService.java:106-113 | "User ID is required" iff the owner is null or blank, else "Budget name is required" iff the name is, else none |
| BudgetService.BlankNameRefused | backend/src/main/java/com/example/backend/services/BudgetService.java:110-112 | a name of spaces is refused, one with a visible character is not |
| BudgetService.UnmatchedIgnored | backend/src/main/java/com/example/backend/services/BudgetService.java:92-98 | a record outside the query or not exactly EXPENSE changes no category's spend |
| BudgetService.MatchedAdds | backend/src/main/java/com/example/backend/services/BudgetService.java:92-98 | a priced expense inside the query adds its amount |
| BudgetService.PerformanceFacts | backend/src/main/java/com/example/backend/services/BudgetService.java:89-103 | the loop succeeds iff every item has a category and no counted expense lacks an amount, with the sum of the items' spends |
| BudgetService.DuplicateCountedTwice | backend/src/main/java/com/example/backend/services/BudgetService.java:91-101 | a category allocated twice is counted twice |
| BudgetService.Service.constructor | backend/src/main/java/com/example/backend/services/BudgetService.java:27-34 | an empty budget store over the given categories, each stored under its own id, and transactions |
| BudgetService.Service.CreateBudget | backend/src/main/java/com/example/backend/services/BudgetService.java:44-47 | an invalid budget is refused, unsaved; a valid one is saved under its id or a fresh one |
| BudgetService.Service.UpdateBudget | backend/src/main/java/com/example/backend/services/BudgetService.java:49-55 | an absent id throws "Budget not found with id: ..."; otherwise the document with that id is saved, unvalidated |
| BudgetService.Service.DeleteBudget | backend/src/main/java/com/example/backend/services/BudgetService.java:57-62 | an absent id throws; otherwise just that id goes |
| BudgetService.Service.AddItemToBudget | backend/src/main/java/com/example/backend/services/BudgetService.java:64-75 | a missing budget, then a missing category, throws; otherwise one item is appended and saved, its category carrying the requested id |
| BudgetService.Service.RemoveItemFromBudget | backend/src/main/java/com/example/backend/services/BudgetService.java:77-83 | a missing budget throws, an unreadable item throws with nothing saved; otherwise that category's items go |
| BudgetService.Service.GetBudgetPerformance | backend/src/main/java/com/example/backend/services/BudgetService.java:85-104 | the loop's result is the performance: "Budget not found", the first item's error, or the sum of exactly-EXPENSE amounts per item category |
| TransactionService.ValidateTx | backend/src/main/java/com/example/backend/services/TransactionService.java:163-178 | none iff positive amount, exact type and non-blank category; otherwise the first broken rule's message |
| TransactionService.TypeIsCaseSensitive | backend/src/main/java/com/example/backend/services/TransactionService.java:169-171 | "expense" is refused, "EXPENSE" accepted |
| TransactionService.PutKeepsStore | backend/src/main/java/com/example/backend/services/TransactionService.java:55 | saving under a record's own id keeps one entry per id and keeps all records validated |
| TransactionService.TotalsFacts | backend/src/main/java/com/example/backend/services/TransactionService.java:120-161 | over validated records all three succeed, net is income less expenses, both are non-negative and they sum to all amounts |
| TransactionService.SpendingWithinExpenses | backend/src/main/java/com/example/backend/services/TransactionService.java:191-196 | over validated records a period's spending succeeds and lies between 0 and the total expenses |
| TransactionService.RecurringIncomeSubtracted | backend/src/main/java/com/example/backend/services/TransactionService.java:212-219 | as written a monthly income of 100.00 lowers the projection by 100.00; the corrected one raises it |
| TransactionService.ProjectionFacts | backend/src/main/java/com/example/backend/services/TransactionService.java:212-219 | the corrected projection moves by months times recurring income less recurring expense, and agrees with the code as written without recurring income |
| TransactionService.Service.constructor | backend/src/main/java/com/example/backend/services/TransactionService.java:21-24 | the service over a well-formed store |
| TransactionService.Service.CreateTransaction | backend/src/main/java/com/example/backend/services/TransactionService.java:52-63 | an invalid record is refused, wrapped as "Failed to create transaction", unsaved; a valid one is saved under its id or a fresh one |
| TransactionService.Service.UpdateTransaction | backend/src/main/java/com/example/backend/services/TransactionService.java:65-81 | an absent id, then an invalid record, is refused, wrapped; otherwise the record is saved under the path id, in place |
| TransactionService.Service.DeleteTransaction | backend/src/main/java/com/example/backend/services/TransactionService.java:83-96 | an absent id is refused, wrapped; otherwise only that id goes and every other keeps its record |
| TransactionService.Service.ProjectBalanceFor | backend/src/main/java/com/example/backend/services/TransactionService.java:212-219 | as written: an unpriced recurring record throws; otherwise the balance loses the months times every recurring amount, incomes and expenses alike, agreeing with the corrected projection when there is no recurring income |
| TransactionService.RecurringSplit | backend/src/main/java/com/example/backend/services/TransactionService.java:214-216 | the recurring sum is the recurring incomes plus the other recurring amounts |

## Left out

- Text.Upper / Text.Lower: only ASCII letters change case; the rest of Unicode case mapping is not modelled.
- `Number(text)` is read for plain decimal texts with up to two fraction digits (`Text.ParseDecimal`); exponents, hexadecimal, Infinity and rounding of longer fractions are not modelled, and amounts are exact cents rather than IEEE doubles.
- Dates are integer milliseconds. `Date.parse`, `toISOString`, `toLocaleDateString` and the local-time month key are function parameters.
- The HTML rows of the coloured export are compared without the template's indentation whitespace.
- Analytics.ListUpcomingRecurring: requires that each record stops the stepping loop (a positive rate, or a start not before `now`); the source loops forever on a negative rate, which the filter lets through.
- `nextDate` is kept as an instant; its ISO rendering is left out, and sorting by instant stands for `localeCompare` on ISO texts of one format.
- `crypto.randomUUID` and the dashboard's random row id are not modelled; a missing key stays empty.
- BudgetsPage.ExpenseByCat: a missing amount reads as 0, where `Number(undefined)` gives NaN; the transaction schema makes the amount present.
- String lengths count characters, not UTF-16 code units.
- The zod email rule is the parameter `emailOk`.
- The HTTP client, the Blob/DOM download, `alert`, navigation, localStorage and React rendering are not modelled. Their effects are a returned outcome or a flag.
- Category.java is not part of this model. A category is its id and name.
- The CSV export does not escape embedded double quotes; the read-back lemma is stated for cells without them.
- Mongo's id generator is the `freshId` parameter and `LocalDateTime.now()` the `now` parameter. `save` does not touch `updatedAt`, and the service's item changes go to the item list directly rather than through `Budget.addItem`/`removeItem`, so a stored budget keeps its `updatedAt`, as modelled.
- Repositories are values inside the service classes. Concurrency, persistence failures and the logger are not modelled.
- The read-only service calls (`getAll…`, `getBy…`, `getTotalByCategoryForPeriod`, `getTotalIncomeByUser`, `getTotalExpensesByUser`) are repository queries outside the modelled rules.
- Dashboard.RecentFacts: the newest-first order is promised only when every `created` value is a readable date; for unreadable text the comparator yields NaN and the order the source gets is implementation-defined, while the model sorts such records as instant 0.
- TransactionExport.NewestFirstRows: as for the dashboard, records with an unreadable date sort as instant 0 in the model, where the source's NaN comparator leaves their order implementation-defined.
- BigDecimal scale and `compareTo` are integer cents; `projectBalance`'s multiplication is exact.

## Findings

| source | as written | input that shows it | evidently intended | confidence | as-written member | corrected member |
|---|---|---|---|---|---|---|
| frontend/src/services/transaction.ts:90-100 | `z.coerce.number()` turns the rate select's empty choice into 0, so the recurring-needs-rate check never fires | a recurring transaction submitted with the rate left on its empty choice | the empty choice counts as no rate and raises the rate issue | medium, not executed | TransactionSchema.EmptyRateAccepted | TransactionSchema.ValidateIntendedRate |
| frontend/src/pages/SignupPage.tsx:64 | an unmapped server error reads `err.response.data.error`, but apiClient.ts:45-51 rejects with `data` and no `response`, so the handler throws with no message and `loading` stuck | the server error text "Database unavailable" | show the server's text and end loading | high, not executed | Signup.UnmappedServerText | Signup.ServerMessage |
| backend/src/main/java/com/example/backend/services/TransactionService.java:212-219 | every recurring amount, income included, is taken off the balance | one recurring INCOME of 100.00, balance 0, one month: projected -100.00 | a recurring income adds to the balance | medium, not executed | TransactionService.RecurringIncomeSubtracted | TransactionService.ProjectionFacts |
