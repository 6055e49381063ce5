/**
 * The two transaction schemas of the frontend: the validator the entry
 * form's values go through before a transaction is created, and the
 * shape check every transaction fetched from the backend goes through.
 *
 * Both follow the schema library's rules: fields are checked in declaration
 * order; a wrong type (a value that is not a number, a text outside an
 * enumeration) stops the object-level refinement from running, while a
 * failed bound or predicate does not; keys the schema does not name are
 * dropped from the parsed value.
 */
module TransactionSchema {
  import opened Common
  import opened Text
  import opened Records

  datatype IssueKind =
    | InvalidType
    | InvalidEnum
    | TooSmall(message: string)
    | NotPositive(message: string)
    | Custom(message: string)
  {
    /** A type error: the object-level refinement does not run after one. */
    predicate Aborts() { InvalidType? || InvalidEnum? }
  }

  datatype Issue = Issue(path: string, kind: IssueKind)

  /** The paths of the issues, in order. */
  function Paths(issues: seq<Issue>): (r: seq<string>)
    ensures |r| == |issues|
    ensures forall i :: 0 <= i < |issues| ==> r[i] == issues[i].path
  {
    seq(|issues|, i requires 0 <= i < |issues| => issues[i].path)
  }

  lemma PathsAppend(a: seq<Issue>, b: seq<Issue>)
    ensures Paths(a + b) == Paths(a) + Paths(b)
  {
  }

  /** How many issues have path `path`. */
  function CountAt(issues: seq<Issue>, path: string): nat {
    multiset(Paths(issues))[path]
  }

  predicate Aborted(issues: seq<Issue>) {
    exists i :: 0 <= i < |issues| && issues[i].kind.Aborts()
  }

  // ---------------------------------------------------------------------
  // makeTransactionSchema(allowedCategoryIds)
  // ---------------------------------------------------------------------

  const TargetRequired := "Target is required"
  const AmountPositive := "Amount must be > 0"
  const InvalidCategory := "Invalid category"
  const RateRequired := "Please specify a recurring rate when 'Recurring' is enabled."

  /**
   * The values handed to the validator. The amount is already a number;
   * the rate is the text of its select, or `None` for a null or absent
   * value, which the number coercion passes through untouched.
   */
  datatype TxInput = TxInput(
    target: string,
    description: Option<string>,
    amount: Num,
    txType: string,
    categoryId: string,
    isRecurring: Option<bool>,
    recurringRate: Option<string>)

  /** A validated input; the rate is the coerced number in hundredths. */
  datatype ValidTx = ValidTx(
    target: string,
    description: Option<string>,
    amount: int,
    txType: string,
    categoryId: string,
    isRecurring: bool,
    recurringRate: Option<int>)

  /** `z.coerce.number().nullable().optional()`: null and absent stay so, a text becomes `Number(text)`. */
  function Coerce(rate: Option<string>): Option<Num> {
    match rate
    case None => None
    case Some(s) => Some(ParseDecimal(s))
  }

  /** `z.string().min(1, ...)`. */
  function TargetIssues(x: TxInput): seq<Issue> {
    if |x.target| < 1 then [Issue("target", TooSmall(TargetRequired))] else []
  }

  /** `z.coerce.number().positive(...)` on a value that is already a number. */
  function AmountIssues(x: TxInput): seq<Issue> {
    match x.amount
    case NaN => [Issue("amount", InvalidType)]
    case Finite(c) => if c <= 0 then [Issue("amount", NotPositive(AmountPositive))] else []
  }

  /** `z.enum(["EXPENSE", "INCOME"])`. */
  function TypeIssues(x: TxInput): seq<Issue> {
    if x.txType == "EXPENSE" || x.txType == "INCOME" then [] else [Issue("type", InvalidEnum)]
  }

  /** `z.string().refine(id => allowedCategoryIds.has(id), ...)`. */
  function CategoryIssues(allowed: set<string>, x: TxInput): seq<Issue> {
    if x.categoryId in allowed then [] else [Issue("categoryId", Custom(InvalidCategory))]
  }

  /** The rate coerced to something that is not a number. */
  function RateIssues(rate: Option<Num>): seq<Issue> {
    if rate == Some(NaN) then [Issue("recurringRate", InvalidType)] else []
  }

  function FieldIssues(allowed: set<string>, x: TxInput, rate: Option<Num>): seq<Issue> {
    TargetIssues(x) + AmountIssues(x) + TypeIssues(x) + CategoryIssues(allowed, x) + RateIssues(rate)
  }

  /** The object-level check: recurring, but the rate is null, absent or not a number. */
  function RefineIssues(x: TxInput, rate: Option<Num>): seq<Issue> {
    if x.isRecurring.GetOr(false) && (rate.None? || rate == Some(NaN))
    then [Issue("recurringRate", Custom(RateRequired))]
    else []
  }

  /** The object-level check runs only when no field has a type error. */
  function RefinePart(allowed: set<string>, x: TxInput, rate: Option<Num>): seq<Issue> {
    if Aborted(FieldIssues(allowed, x, rate)) then [] else RefineIssues(x, rate)
  }

  function AllIssues(allowed: set<string>, x: TxInput, rate: Option<Num>): seq<Issue> {
    FieldIssues(allowed, x, rate) + RefinePart(allowed, x, rate)
  }

  /** The validator applied to an input whose rate coerces to `rate`. */
  function Check(allowed: set<string>, x: TxInput, rate: Option<Num>): Result<ValidTx, seq<Issue>> {
    var all := AllIssues(allowed, x, rate);
    if all == [] && x.amount.Finite? then
      Ok(ValidTx(x.target, x.description, x.amount.cents, x.txType, x.categoryId,
                 x.isRecurring.GetOr(false),
                 match rate case Some(Finite(r)) => Some(r) case _ => None))
    else Err(all)
  }

  /** `makeTransactionSchema(allowed).safeParse(x)`. */
  function Validate(allowed: set<string>, x: TxInput): Result<ValidTx, seq<Issue>> {
    Check(allowed, x, Coerce(x.recurringRate))
  }

  predicate HasIssueAt(r: Result<ValidTx, seq<Issue>>, path: string) {
    r.Err? && path in Paths(r.error)
  }

  /**
   * An input is accepted exactly when the target is non-empty, the amount
   * is a positive number, the type is one of the two, the category is
   * allowed, the rate is not an unreadable text, and a recurring input has
   * a rate; the accepted value keeps the input's fields, with `isRecurring`
   * defaulting to false.
   */
  lemma CheckAccepts(allowed: set<string>, x: TxInput, rate: Option<Num>)
    ensures Check(allowed, x, rate).Ok? <==>
      && |x.target| >= 1
      && x.amount.Finite? && x.amount.cents > 0
      && (x.txType == "EXPENSE" || x.txType == "INCOME")
      && x.categoryId in allowed
      && rate != Some(NaN)
      && !(x.isRecurring.GetOr(false) && rate.None?)
    ensures Check(allowed, x, rate).Ok? ==>
      var v := Check(allowed, x, rate).value;
      && v.target == x.target && v.description == x.description
      && Finite(v.amount) == x.amount && v.amount > 0
      && v.txType == x.txType && v.categoryId == x.categoryId
      && v.isRecurring == x.isRecurring.GetOr(false)
      && (rate.Some? <==> v.recurringRate.Some?)
      && (rate.Some? ==> rate == Some(Finite(v.recurringRate.value)))
  {
    var fi := FieldIssues(allowed, x, rate);
    if fi != [] {
      assert fi[0] in fi;
    }
  }

  /** The validator fails exactly when some issue is raised, and then reports all of them. */
  lemma CheckErr(allowed: set<string>, x: TxInput, rate: Option<Num>)
    ensures Check(allowed, x, rate).Err? <==> AllIssues(allowed, x, rate) != []
    ensures Check(allowed, x, rate).Err? ==> Check(allowed, x, rate).error == AllIssues(allowed, x, rate)
  {
    if x.amount.NaN? {
      assert AmountIssues(x) != [];
      assert AllIssues(allowed, x, rate)[|TargetIssues(x)|] == Issue("amount", InvalidType);
    }
  }

  /** The paths of all issues, piece by piece. */
  lemma AllPaths(allowed: set<string>, x: TxInput, rate: Option<Num>)
    ensures Paths(AllIssues(allowed, x, rate)) ==
      Paths(TargetIssues(x)) + Paths(AmountIssues(x)) + Paths(TypeIssues(x))
      + Paths(CategoryIssues(allowed, x)) + Paths(RateIssues(rate)) + Paths(RefinePart(allowed, x, rate))
  {
    var t, a, y, c, q := TargetIssues(x), AmountIssues(x), TypeIssues(x), CategoryIssues(allowed, x), RateIssues(rate);
    var rf := RefinePart(allowed, x, rate);
    assert AllIssues(allowed, x, rate) == t + a + y + c + q + rf;
    PathsAppend(t + a + y + c + q, rf);
    PathsAppend(t + a + y + c, q);
    PathsAppend(t + a + y, c);
    PathsAppend(t + a, y);
    PathsAppend(t, a);
  }

  lemma PathsOne(i: Issue)
    ensures Paths([i]) == [i.path]
    ensures Paths([]) == []
  {
  }

  /** Each piece raises at most one issue, on its own path. */
  lemma PiecePaths(allowed: set<string>, x: TxInput, rate: Option<Num>)
    ensures Paths(TargetIssues(x)) == if |x.target| < 1 then ["target"] else []
    ensures Paths(AmountIssues(x)) == if x.amount.Finite? && x.amount.cents > 0 then [] else ["amount"]
    ensures Paths(TypeIssues(x)) == if x.txType == "EXPENSE" || x.txType == "INCOME" then [] else ["type"]
    ensures Paths(CategoryIssues(allowed, x)) == if x.categoryId in allowed then [] else ["categoryId"]
    ensures Paths(RateIssues(rate)) == if rate == Some(NaN) then ["recurringRate"] else []
    ensures Paths(RefinePart(allowed, x, rate)) == if RefinePart(allowed, x, rate) == [] then [] else ["recurringRate"]
  {
    PathsOne(Issue("target", TooSmall(TargetRequired)));
    PathsOne(Issue("amount", InvalidType));
    PathsOne(Issue("amount", NotPositive(AmountPositive)));
    PathsOne(Issue("type", InvalidEnum));
    PathsOne(Issue("categoryId", Custom(InvalidCategory)));
    PathsOne(Issue("recurringRate", InvalidType));
    PathsOne(Issue("recurringRate", Custom(RateRequired)));
  }

  /** Each field check reports on its own path exactly when that field is wrong. */
  lemma CheckFieldIssues(allowed: set<string>, x: TxInput, rate: Option<Num>)
    ensures HasIssueAt(Check(allowed, x, rate), "target") <==> |x.target| == 0
    ensures HasIssueAt(Check(allowed, x, rate), "amount") <==> !(x.amount.Finite? && x.amount.cents > 0)
    ensures HasIssueAt(Check(allowed, x, rate), "type") <==> !(x.txType == "EXPENSE" || x.txType == "INCOME")
    ensures HasIssueAt(Check(allowed, x, rate), "categoryId") <==> x.categoryId !in allowed
  {
    CheckErr(allowed, x, rate);
    FieldPaths(allowed, x, rate);
  }

  /** Membership in the concatenation of the six pieces is membership in one of them. */
  lemma InPieces(p: string, a: seq<string>, b: seq<string>, c: seq<string>, d: seq<string>, e: seq<string>, f: seq<string>)
    ensures p in a + b + c + d + e + f <==> p in a || p in b || p in c || p in d || p in e || p in f
  {
  }

  lemma FieldPaths(allowed: set<string>, x: TxInput, rate: Option<Num>)
    ensures "target" in Paths(AllIssues(allowed, x, rate)) <==> |x.target| == 0
    ensures "amount" in Paths(AllIssues(allowed, x, rate)) <==> !(x.amount.Finite? && x.amount.cents > 0)
    ensures "type" in Paths(AllIssues(allowed, x, rate)) <==> !(x.txType == "EXPENSE" || x.txType == "INCOME")
    ensures "categoryId" in Paths(AllIssues(allowed, x, rate)) <==> x.categoryId !in allowed
  {
    PiecePaths(allowed, x, rate);
    PathIn(allowed, x, rate, "target");
    PathIn(allowed, x, rate, "amount");
    PathIn(allowed, x, rate, "type");
    PathIn(allowed, x, rate, "categoryId");
  }

  /** A path is reported exactly when one of the pieces reports it. */
  lemma PathIn(allowed: set<string>, x: TxInput, rate: Option<Num>, p: string)
    ensures p in Paths(AllIssues(allowed, x, rate)) <==>
      || p in Paths(TargetIssues(x)) || p in Paths(AmountIssues(x)) || p in Paths(TypeIssues(x))
      || p in Paths(CategoryIssues(allowed, x)) || p in Paths(RateIssues(rate)) || p in Paths(RefinePart(allowed, x, rate))
  {
    AllPaths(allowed, x, rate);
    InPieces(p, Paths(TargetIssues(x)), Paths(AmountIssues(x)), Paths(TypeIssues(x)),
             Paths(CategoryIssues(allowed, x)), Paths(RateIssues(rate)), Paths(RefinePart(allowed, x, rate)));
  }

  /**
   * The rate path: at most one issue. There is one exactly when the rate
   * text does not read as a number, or when the input is recurring, has no
   * rate and no field has a type error; so a non-recurring input gets a
   * rate issue only from an unreadable rate text.
   */
  lemma CheckRateIssues(allowed: set<string>, x: TxInput, rate: Option<Num>)
    ensures var r := Check(allowed, x, rate);
      var n := if r.Err? then CountAt(r.error, "recurringRate") else 0;
      && n <= 1
      && (n == 1 <==>
           rate == Some(NaN)
           || (x.isRecurring.GetOr(false) && rate.None? && x.amount.Finite?
               && (x.txType == "EXPENSE" || x.txType == "INCOME")))
  {
    CheckErr(allowed, x, rate);
    RatePathCount(allowed, x, rate);
    AbortedPieces(allowed, x, rate);
    if CountAt(AllIssues(allowed, x, rate), "recurringRate") != 0 {
      assert AllIssues(allowed, x, rate) != [];
    }
  }

  lemma RatePathCount(allowed: set<string>, x: TxInput, rate: Option<Num>)
    ensures CountAt(AllIssues(allowed, x, rate), "recurringRate") ==
      (if rate == Some(NaN) then 1 else 0) + (if RefinePart(allowed, x, rate) == [] then 0 else 1)
  {
    AllPaths(allowed, x, rate);
    PiecePaths(allowed, x, rate);
    CountPieces("recurringRate", Paths(TargetIssues(x)), Paths(AmountIssues(x)), Paths(TypeIssues(x)),
                Paths(CategoryIssues(allowed, x)), Paths(RateIssues(rate)), Paths(RefinePart(allowed, x, rate)));
  }

  /** Occurrences in the concatenation of the six pieces add up piece by piece. */
  lemma CountPieces(p: string, a: seq<string>, b: seq<string>, c: seq<string>, d: seq<string>, e: seq<string>, f: seq<string>)
    ensures multiset(a + b + c + d + e + f)[p] ==
      multiset(a)[p] + multiset(b)[p] + multiset(c)[p] + multiset(d)[p] + multiset(e)[p] + multiset(f)[p]
  {
    assert multiset(a + b + c + d + e + f) ==
      multiset(a) + multiset(b) + multiset(c) + multiset(d) + multiset(e) + multiset(f);
  }


  /** The field issues hold a type error exactly when the amount or the rate is not a number or the type is unknown. */
  lemma AbortedPieces(allowed: set<string>, x: TxInput, rate: Option<Num>)
    ensures Aborted(FieldIssues(allowed, x, rate)) <==>
      rate == Some(NaN) || x.amount.NaN? || !(x.txType == "EXPENSE" || x.txType == "INCOME")
  {
    var fi := FieldIssues(allowed, x, rate);
    var t, a, y, c, q := TargetIssues(x), AmountIssues(x), TypeIssues(x), CategoryIssues(allowed, x), RateIssues(rate);
    if Aborted(fi) {
      var i :| 0 <= i < |fi| && fi[i].kind.Aborts();
      assert fi[i] in t || fi[i] in a || fi[i] in y || fi[i] in c || fi[i] in q;
    }
    if rate == Some(NaN) {
      assert fi[|fi| - 1] == Issue("recurringRate", InvalidType);
    } else if x.amount.NaN? {
      assert fi[|t|] == Issue("amount", InvalidType);
    } else if !(x.txType == "EXPENSE" || x.txType == "INCOME") {
      assert fi[|t| + |a|] == Issue("type", InvalidEnum);
    }
  }

  // ---------------------------------------------------------------------
  // The empty rate choice
  // ---------------------------------------------------------------------

  /**
   * As written: a recurring input whose rate select is left on its empty
   * choice passes, because coercing the empty text gives 0, not a missing
   * value, so the "specify a rate" check never fires for it.
   */
  lemma EmptyRateAccepted()
    ensures Validate({"c1"}, TxInput("Rent", Some(""), Finite(100), "EXPENSE", "c1", Some(true), Some(""))) ==
            Ok(ValidTx("Rent", Some(""), 100, "EXPENSE", "c1", true, Some(0)))
  {
    assert Coerce(Some("")) == Some(Finite(0));
    assert !Aborted(FieldIssues({"c1"}, TxInput("Rent", Some(""), Finite(100), "EXPENSE", "c1", Some(true), Some("")), Some(Finite(0))));
  }

  /** The intended coercion: an empty rate text counts as no rate. */
  function CoerceIntended(rate: Option<string>): (r: Option<Num>)
    ensures rate == Some("") ==> r.None?
    ensures rate != Some("") ==> r == Coerce(rate)
  {
    if rate == Some("") then None else Coerce(rate)
  }

  /** The validator with the empty rate text read as a missing rate. */
  function ValidateIntended(allowed: set<string>, x: TxInput): Result<ValidTx, seq<Issue>> {
    Check(allowed, x, CoerceIntended(x.recurringRate))
  }

  /**
   * With the intended coercion an accepted recurring input always carries a
   * rate, and the empty choice raises the one rate issue whenever no field
   * has a type error; inputs with a rate text are judged as before.
   */
  lemma ValidateIntendedRate(allowed: set<string>, x: TxInput)
    ensures var r := ValidateIntended(allowed, x);
      r.Ok? && r.value.isRecurring ==> r.value.recurringRate.Some?
    ensures x.recurringRate != Some("") ==> ValidateIntended(allowed, x) == Validate(allowed, x)
    ensures x.isRecurring == Some(true) && x.recurringRate == Some("") && x.amount.Finite?
            && (x.txType == "EXPENSE" || x.txType == "INCOME") ==>
            var r := ValidateIntended(allowed, x);
            r.Err? && CountAt(r.error, "recurringRate") == 1
  {
    CheckAccepts(allowed, x, CoerceIntended(x.recurringRate));
    CheckRateIssues(allowed, x, CoerceIntended(x.recurringRate));
  }

  // ---------------------------------------------------------------------
  // TransactionSchema: a fetched transaction
  // ---------------------------------------------------------------------

  /** A decoded JSON value; numbers are exact decimals held in hundredths. */
  datatype Json = JNull | JBool(b: bool) | JNum(hundredths: int) | JStr(s: string) | JOther

  type JsonObject = map<string, Json>

  /** `z.string()`. */
  function StringField(o: JsonObject, k: string): Result<string, Issue> {
    if k in o && o[k].JStr? then Ok(o[k].s) else Err(Issue(k, InvalidType))
  }

  /** `z.string().nullable()`: the key must be there, and may hold null. */
  function NullableStringField(o: JsonObject, k: string): Result<Option<string>, Issue> {
    if k in o && o[k].JStr? then Ok(Some(o[k].s))
    else if k in o && o[k].JNull? then Ok(None)
    else Err(Issue(k, InvalidType))
  }

  /** `z.string().nullable().optional()`. */
  function OptionalNullableStringField(o: JsonObject, k: string): Result<Option<string>, Issue> {
    if k !in o || o[k].JNull? then Ok(None)
    else if o[k].JStr? then Ok(Some(o[k].s))
    else Err(Issue(k, InvalidType))
  }

  /** `z.string().optional()`: absent is fine, null is not. */
  function OptionalStringField(o: JsonObject, k: string): Result<Option<string>, Issue> {
    if k !in o then Ok(None)
    else if o[k].JStr? then Ok(Some(o[k].s))
    else Err(Issue(k, InvalidType))
  }

  /** `z.number()`. */
  function NumberField(o: JsonObject, k: string): Result<int, Issue> {
    if k in o && o[k].JNum? then Ok(o[k].hundredths) else Err(Issue(k, InvalidType))
  }

  /** `z.enum(["INCOME", "EXPENSE"])`: compared exactly. */
  function TypeField(o: JsonObject, k: string): Result<string, Issue> {
    if k in o && o[k].JStr? then
      if o[k].s == "INCOME" || o[k].s == "EXPENSE" then Ok(o[k].s) else Err(Issue(k, InvalidEnum))
    else Err(Issue(k, InvalidType))
  }

  /** `z.string().refine(val => !isNaN(Date.parse(val)))`, with `Date.parse` a parameter. */
  function CreatedField(o: JsonObject, k: string, parseDate: string -> Option<int>): Result<int, Issue> {
    if k in o && o[k].JStr? then
      match parseDate(o[k].s)
      case Some(ms) => Ok(ms)
      case None => Err(Issue(k, Custom("Invalid datetime")))
    else Err(Issue(k, InvalidType))
  }

  /** `z.number().int().nullable().optional()`, as whole days. */
  function IntegerField(o: JsonObject, k: string): Result<Option<int>, Issue> {
    if k !in o || o[k].JNull? then Ok(None)
    else if o[k].JNum? && o[k].hundredths % 100 == 0 then Ok(Some(o[k].hundredths / 100))
    else Err(Issue(k, InvalidType))
  }

  /** `z.boolean().default(false)`: only an absent key takes the default. */
  function BooleanField(o: JsonObject, k: string): Result<bool, Issue> {
    if k !in o then Ok(false)
    else if o[k].JBool? then Ok(o[k].b)
    else Err(Issue(k, InvalidType))
  }

  function IssueOf<T>(r: Result<T, Issue>): seq<Issue> {
    if r.Err? then [r.error] else []
  }

  /** The issues of the ten fields, in the schema's order. */
  function DecodeIssues(o: JsonObject, parseDate: string -> Option<int>): seq<Issue> {
    IssueOf(StringField(o, "transactionId")) + IssueOf(NullableStringField(o, "userId"))
      + IssueOf(OptionalNullableStringField(o, "target")) + IssueOf(OptionalNullableStringField(o, "description"))
      + IssueOf(NumberField(o, "amount")) + IssueOf(TypeField(o, "type"))
      + IssueOf(OptionalStringField(o, "category")) + IssueOf(CreatedField(o, "created", parseDate))
      + IssueOf(IntegerField(o, "recurringRate")) + IssueOf(BooleanField(o, "recurring"))
  }

  /**
   * `TransactionSchema.safeParse(o)`. Keys the schema does not name
   * (`id`, `categoryId`, ...) are dropped, so they are absent on the result.
   */
  function Decode(o: JsonObject, parseDate: string -> Option<int>): Result<Transaction, seq<Issue>> {
    var transactionId := StringField(o, "transactionId");
    var userId := NullableStringField(o, "userId");
    var target := OptionalNullableStringField(o, "target");
    var description := OptionalNullableStringField(o, "description");
    var amount := NumberField(o, "amount");
    var txType := TypeField(o, "type");
    var category := OptionalStringField(o, "category");
    var created := CreatedField(o, "created", parseDate);
    var rate := IntegerField(o, "recurringRate");
    var recurring := BooleanField(o, "recurring");
    if transactionId.Ok? && userId.Ok? && target.Ok? && description.Ok? && amount.Ok? && txType.Ok?
       && category.Ok? && created.Ok? && rate.Ok? && recurring.Ok? then
      Ok(Transaction(transactionId.value, None, userId.value, target.value, description.value,
                     Some(amount.value), txType.value, category.value, None, At(created.value),
                     recurring.value, rate.value))
    else Err(DecodeIssues(o, parseDate))
  }

  /** What a decoded transaction always satisfies. */
  predicate Decoded(t: Transaction) {
    && t.id.None? && t.categoryId.None?
    && t.amount.Some?
    && (t.txType == "INCOME" || t.txType == "EXPENSE")
    && t.created.At?
  }

  /** The backend's JSON for a transaction, with `iso` rendering an instant. */
  function Encode(t: Transaction, iso: int -> string): JsonObject
    requires Decoded(t)
  {
    map[
      "transactionId" := JStr(t.transactionId),
      "userId" := (match t.userId case Some(u) => JStr(u) case None => JNull),
      "target" := (match t.target case Some(s) => JStr(s) case None => JNull),
      "description" := (match t.description case Some(s) => JStr(s) case None => JNull),
      "amount" := JNum(t.amount.value),
      "type" := JStr(t.txType),
      "created" := JStr(iso(t.created.ms)),
      "recurringRate" := (match t.recurringRate case Some(d) => JNum(d * 100) case None => JNull),
      "recurring" := JBool(t.recurring)
    ] + (match t.category case Some(c) => map["category" := JStr(c)] case None => map[])
  }

  /**
   * A decoded transaction has one of the two exact types (which the
   * case-insensitive reading classifies the same way), a readable date and
   * an amount, and carries no `id` or `categoryId`; an absent `recurring`
   * reads as false. Decoding fails exactly when some field reports an issue.
   */
  lemma DecodeFacts(o: JsonObject, parseDate: string -> Option<int>)
    ensures Decode(o, parseDate).Ok? ==>
      var t := Decode(o, parseDate).value;
      && Decoded(t)
      && LooseKind(t.txType) == ExactKind(t.txType)
      && ("recurring" !in o ==> !t.recurring)
    ensures Decode(o, parseDate).Err? <==> DecodeIssues(o, parseDate) != []
    ensures Decode(o, parseDate).Err? ==> Decode(o, parseDate).error == DecodeIssues(o, parseDate)
  {
    if Decode(o, parseDate).Ok? {
      ExactImpliesLoose(Decode(o, parseDate).value.txType);
    }
  }

  /** Decoding the backend's JSON of a decoded transaction gives it back. */
  lemma DecodeEncode(t: Transaction, iso: int -> string, parseDate: string -> Option<int>)
    requires Decoded(t)
    requires parseDate(iso(t.created.ms)) == Some(t.created.ms)
    ensures Decode(Encode(t, iso), parseDate) == Ok(t)
  {
    EncodedTexts(t, iso);
    EncodedOthers(t, iso, parseDate);
  }

  /** The text fields of the JSON read back as the record's. */
  lemma EncodedTexts(t: Transaction, iso: int -> string)
    requires Decoded(t)
    ensures var o := Encode(t, iso);
      && StringField(o, "transactionId") == Ok(t.transactionId)
      && NullableStringField(o, "userId") == Ok(t.userId)
      && OptionalNullableStringField(o, "target") == Ok(t.target)
      && OptionalNullableStringField(o, "description") == Ok(t.description)
      && OptionalStringField(o, "category") == Ok(t.category)
  {
  }

  /** The amount, type, date and recurrence fields of the JSON read back as the record's. */
  lemma EncodedOthers(t: Transaction, iso: int -> string, parseDate: string -> Option<int>)
    requires Decoded(t)
    requires parseDate(iso(t.created.ms)) == Some(t.created.ms)
    ensures var o := Encode(t, iso);
      && NumberField(o, "amount") == Ok(t.amount.value)
      && TypeField(o, "type") == Ok(t.txType)
      && CreatedField(o, "created", parseDate) == Ok(t.created.ms)
      && BooleanField(o, "recurring") == Ok(t.recurring)
      && IntegerField(o, "recurringRate") == Ok(t.recurringRate)
  {
    if t.recurringRate.Some? {
      assert (t.recurringRate.value * 100) / 100 == t.recurringRate.value;
    }
  }

  /** The type is compared exactly: a lower-case type is rejected. */
  lemma DecodeRejectsLowerCase(o: JsonObject, parseDate: string -> Option<int>)
    requires "type" in o && o["type"] == JStr("expense")
    ensures Decode(o, parseDate).Err?
    ensures Issue("type", InvalidEnum) in Decode(o, parseDate).error
  {
  }
}
