/**
 * The entry form for a new transaction: its values, the change handler
 * its inputs call, the submit gate, and the submit path that validates the
 * values, turns them into the create request and resets the form.
 */
module TransactionForm {
  import opened Common
  import opened Text
  import opened TransactionSchema

  /** The form's values; the amount is `Number` of the amount input's text. */
  datatype FormValues = FormValues(
    target: string,
    description: string,
    amount: Num,
    txType: string,
    categoryId: string,
    isRecurring: bool,
    recurringRate: string)

  /** The values the form starts with and returns to after a successful create. */
  const Initial := FormValues("", "", Finite(0), "EXPENSE", "", false, "")

  /** What a change event reports about its input element. */
  datatype ChangeEvent = ChangeEvent(name: string, inputType: string, value: string, checked: bool)

  /**
   * `handleChange`'s update. The recurring switch takes `checked` from a
   * checkbox and `value === "true"` otherwise, and switching it off clears
   * the rate; the amount stores `Number(value)`; every other field stores
   * the value. Nothing else changes.
   */
  function Changed(prev: FormValues, ev: ChangeEvent): (v: FormValues)
    ensures ev.name == "isRecurring" ==>
      && (ev.inputType == "checkbox" ==> v.isRecurring == ev.checked)
      && (ev.inputType != "checkbox" ==> (v.isRecurring <==> ev.value == "true"))
      && (!v.isRecurring ==> v.recurringRate == "")
      && (v.isRecurring ==> v.recurringRate == prev.recurringRate)
      && v.(isRecurring := prev.isRecurring, recurringRate := prev.recurringRate) == prev
    ensures ev.name != "isRecurring" ==>
      && v.isRecurring == prev.isRecurring
      && (ev.name == "amount" ==> v == prev.(amount := ParseDecimal(ev.value)))
      && (ev.name != "amount" ==> v.amount == prev.amount)
      && (v.target != prev.target ==> ev.name == "target" && v.target == ev.value)
      && (v.description != prev.description ==> ev.name == "description" && v.description == ev.value)
      && (v.txType != prev.txType ==> ev.name == "type" && v.txType == ev.value)
      && (v.categoryId != prev.categoryId ==> ev.name == "categoryId" && v.categoryId == ev.value)
      && (v.recurringRate != prev.recurringRate ==> ev.name == "recurringRate" && v.recurringRate == ev.value)
  {
    if ev.name == "isRecurring" then
      var next := if ev.inputType == "checkbox" then ev.checked else ev.value == "true";
      prev.(isRecurring := next, recurringRate := if next then prev.recurringRate else "")
    else if ev.name == "amount" then prev.(amount := ParseDecimal(ev.value))
    else if ev.name == "target" then prev.(target := ev.value)
    else if ev.name == "description" then prev.(description := ev.value)
    else if ev.name == "type" then prev.(txType := ev.value)
    else if ev.name == "categoryId" then prev.(categoryId := ev.value)
    else if ev.name == "recurringRate" then prev.(recurringRate := ev.value)
    else prev
  }

  /** A switched-off form has no rate: every event but a rate change keeps that so. */
  predicate RateClearedWhenOff(v: FormValues) {
    !v.isRecurring ==> v.recurringRate == ""
  }

  lemma RateClearedPreserved(prev: FormValues, ev: ChangeEvent)
    requires RateClearedWhenOff(prev)
    requires ev.name != "recurringRate"
    ensures RateClearedWhenOff(Changed(prev, ev))
  {
  }

  /** `canSubmit`. */
  predicate CanSubmit(v: FormValues, catsLoading: bool) {
    && !catsLoading
    && Trim(v.target) != ""
    && v.amount.Finite? && v.amount.cents > 0
    && v.categoryId != ""
  }

  /** The form's values as the validator receives them. */
  function ToInput(v: FormValues): (x: TxInput)
    ensures x.isRecurring.Some? && x.recurringRate.Some? && x.description.Some?
  {
    TxInput(v.target, Some(v.description), v.amount, v.txType, v.categoryId,
            Some(v.isRecurring), Some(v.recurringRate))
  }

  /**
   * The submit gate is stricter than the validator on the target and the
   * amount: a form that may be submitted never gets a target or amount
   * issue, while a blank target passes the validator but closes the gate.
   */
  lemma CanSubmitImpliesFieldsPass(allowed: set<string>, v: FormValues, catsLoading: bool)
    requires CanSubmit(v, catsLoading)
    ensures !HasIssueAt(Validate(allowed, ToInput(v)), "target")
    ensures !HasIssueAt(Validate(allowed, ToInput(v)), "amount")
  {
    TrimEmpty(v.target);
    CheckFieldIssues(allowed, ToInput(v), Coerce(ToInput(v).recurringRate));
  }

  lemma BlankTargetValidButBlocked()
    ensures !CanSubmit(FormValues(" ", "", Finite(500), "EXPENSE", "c1", false, ""), false)
    ensures Validate({"c1"}, ToInput(FormValues(" ", "", Finite(500), "EXPENSE", "c1", false, ""))).Ok?
  {
    assert Trim(" ") == "";
    BlankTargetPasses({"c1"}, FormValues(" ", "", Finite(500), "EXPENSE", "c1", false, ""));
  }

  /** A target of spaces meets `min(1)`, so the schema alone accepts an otherwise valid form with it. */
  lemma BlankTargetPasses(allowed: set<string>, v: FormValues)
    requires |v.target| >= 1 && v.amount.Finite? && v.amount.cents > 0
    requires (v.txType == "EXPENSE" || v.txType == "INCOME") && v.categoryId in allowed
    requires !v.isRecurring && v.recurringRate == ""
    ensures Validate(allowed, ToInput(v)).Ok?
  {
    assert Coerce(Some("")) == Some(Finite(0));
    CheckAccepts(allowed, ToInput(v), Some(Finite(0)));
  }

  /** The create request. The rate is the coerced number, in hundredths. */
  datatype Payload = Payload(
    userId: Option<string>,
    target: string,
    description: string,
    amount: int,
    txType: string,
    category: string,
    recurring: bool,
    recurringRate: Option<int>)

  /**
   * The form-to-request mapping: a missing description becomes "", the
   * category id goes in `category`, and the rate is sent only for a
   * recurring transaction. A validated recurring value always has a rate.
   */
  function ToPayload(userId: Option<string>, p: ValidTx): Payload
    requires p.isRecurring ==> p.recurringRate.Some?
  {
    Payload(userId, p.target, p.description.GetOr(""), p.amount, p.txType, p.categoryId,
            p.isRecurring, if p.isRecurring then p.recurringRate else None)
  }

  /**
   * What the form sends, if it sends anything: the values of the form as
   * `schema.parse` validates them, the rate text through `z.coerce.number()`.
   */
  function SubmitOutcome(allowed: set<string>, userId: Option<string>, v: FormValues): Result<Payload, seq<Issue>> {
    var r := Validate(allowed, ToInput(v));
    CheckAccepts(allowed, ToInput(v), Coerce(ToInput(v).recurringRate));
    match r
    case Ok(p) => Ok(ToPayload(userId, p))
    case Err(e) => Err(e)
  }

  /**
   * A request is sent exactly for values the schema accepts, and it carries
   * the form's own target, description, type and category, a positive
   * amount, the recurring flag, and a rate exactly when recurring: the
   * number the rate text reads as, which is 0 for the empty choice.
   */
  lemma SubmitOutcomeFacts(allowed: set<string>, userId: Option<string>, v: FormValues)
    ensures SubmitOutcome(allowed, userId, v).Ok? <==> Validate(allowed, ToInput(v)).Ok?
    ensures SubmitOutcome(allowed, userId, v).Ok? ==>
      var q := SubmitOutcome(allowed, userId, v).value;
      && q.userId == userId
      && q.target == v.target && |q.target| >= 1
      && q.description == v.description
      && Finite(q.amount) == v.amount && q.amount > 0
      && q.txType == v.txType && (q.txType == "EXPENSE" || q.txType == "INCOME")
      && q.category == v.categoryId && q.category in allowed
      && q.recurring == v.isRecurring
      && (q.recurringRate.Some? <==> v.isRecurring)
      && (v.isRecurring ==> ParseDecimal(v.recurringRate) == Finite(q.recurringRate.value))
  {
    CheckAccepts(allowed, ToInput(v), Coerce(ToInput(v).recurringRate));
  }

  /**
   * A recurring form whose rate was left on the empty choice, and whose
   * other fields pass, is sent with rate 0.
   */
  lemma EmptyRateSubmitted(allowed: set<string>, userId: Option<string>, v: FormValues)
    requires v.isRecurring && v.recurringRate == ""
    requires |v.target| >= 1 && v.amount.Finite? && v.amount.cents > 0
    requires (v.txType == "EXPENSE" || v.txType == "INCOME") && v.categoryId in allowed
    ensures SubmitOutcome(allowed, userId, v).Ok?
    ensures SubmitOutcome(allowed, userId, v).value.recurringRate == Some(0)
  {
    assert Coerce(Some("")) == Some(Finite(0));
    SubmitOutcomeFacts(allowed, userId, v);
  }

  /** The request the form would send with the corrected coercion, where the empty choice is no rate. */
  function SubmitIntended(allowed: set<string>, userId: Option<string>, v: FormValues): Result<Payload, seq<Issue>> {
    var r := ValidateIntended(allowed, ToInput(v));
    CheckAccepts(allowed, ToInput(v), CoerceIntended(ToInput(v).recurringRate));
    match r
    case Ok(p) => Ok(ToPayload(userId, p))
    case Err(e) => Err(e)
  }

  /**
   * With the corrected coercion a recurring request always carries a rate
   * read from a non-empty text, never from the empty choice.
   */
  lemma SubmitIntendedFacts(allowed: set<string>, userId: Option<string>, v: FormValues)
    ensures SubmitIntended(allowed, userId, v).Ok? <==> ValidateIntended(allowed, ToInput(v)).Ok?
    ensures SubmitIntended(allowed, userId, v).Ok? ==>
      var q := SubmitIntended(allowed, userId, v).value;
      && q.target == v.target && Finite(q.amount) == v.amount
      && q.txType == v.txType && q.category == v.categoryId
      && q.recurring == v.isRecurring
      && (q.recurringRate.Some? <==> v.isRecurring)
      && (v.isRecurring ==> v.recurringRate != "" && ParseDecimal(v.recurringRate) == Finite(q.recurringRate.value))
  {
    CheckAccepts(allowed, ToInput(v), CoerceIntended(ToInput(v).recurringRate));
  }

  /** The mounted form: its values are React state that the handlers replace. */
  class Form {
    var values: FormValues

    constructor()
      ensures values == Initial
    {
      values := Initial;
    }

    method HandleChange(ev: ChangeEvent)
      modifies this
      ensures values == Changed(old(values), ev)
    {
      values := Changed(values, ev);
    }

    /**
     * `handleSubmit`: validate, build the request, and when the backend
     * accepts it (`created`) reset the form; a failure leaves the values.
     */
    method Submit(allowed: set<string>, userId: Option<string>, created: bool)
      returns (outcome: Result<Payload, seq<Issue>>)
      modifies this
      ensures outcome == SubmitOutcome(allowed, userId, old(values))
      ensures outcome.Ok? && created ==> values == Initial
      ensures !(outcome.Ok? && created) ==> values == old(values)
    {
      outcome := SubmitOutcome(allowed, userId, values);
      if outcome.Ok? && created {
        values := Initial;
      }
    }
  }

  /** The initial form has no rate and cannot be submitted. */
  lemma InitialFacts(catsLoading: bool)
    ensures RateClearedWhenOff(Initial)
    ensures !CanSubmit(Initial, catsLoading)
  {
  }
}
