/**
 * The sign-up page: the password hints shown while typing, the gate on the
 * submit button, the schema the form is checked against before it is sent,
 * and how a failed sign-up is reported: field by field for a schema
 * failure, by one general message otherwise.
 */
module Signup {
  import opened Common
  import opened Text

  /** Some character of `s` satisfies `p`: `regex.test(s)` for a one-character class. */
  function AnyChar(s: string, p: char -> bool): (r: bool)
    ensures r <==> exists i :: 0 <= i < |s| && p(s[i])
    decreases |s|
  {
    if |s| == 0 then false
    else if p(s[0]) then true
    else
      var r := AnyChar(s[1..], p);
      assert forall i :: 1 <= i < |s| ==> s[i] == s[1..][i - 1];
      r
  }

  /** `[^A-Za-z0-9]`. */
  predicate IsSymbol(c: char) { !IsAlnumAscii(c) }

  datatype Hints = Hints(length: bool, number: bool, uppercase: bool, lowercase: bool, symbol: bool)

  /** `getPasswordHints`: the five checks, each against the whole password. */
  function PasswordHints(pwd: string): (h: Hints)
    ensures h.length <==> |pwd| >= 8
    ensures h.number <==> exists i :: 0 <= i < |pwd| && IsDigit(pwd[i])
    ensures h.uppercase <==> exists i :: 0 <= i < |pwd| && IsUpperAscii(pwd[i])
    ensures h.lowercase <==> exists i :: 0 <= i < |pwd| && IsLowerAscii(pwd[i])
    ensures h.symbol <==> exists i :: 0 <= i < |pwd| && IsSymbol(pwd[i])
  {
    Hints(|pwd| >= 8, AnyChar(pwd, IsDigit), AnyChar(pwd, IsUpperAscii),
          AnyChar(pwd, IsLowerAscii), AnyChar(pwd, IsSymbol))
  }

  /** `Object.values(hints).every(Boolean)`. */
  predicate PasswordValid(pwd: string) {
    var h := PasswordHints(pwd);
    h.length && h.number && h.uppercase && h.lowercase && h.symbol
  }

  /** The submit button's `disabled`. */
  predicate SubmitDisabled(loading: bool, pwd: string) {
    loading || !PasswordValid(pwd)
  }

  /** The backend's own password rule: at least 8 characters and a digit. */
  predicate ServerAcceptsPassword(pwd: string) {
    |pwd| >= 8 && exists i :: 0 <= i < |pwd| && IsDigit(pwd[i])
  }

  /**
   * A password the page lets through meets the backend's rule and the
   * schema's length; the converse fails, since the backend asks for no
   * letters or symbols.
   */
  lemma ValidPasswordAccepted(pwd: string)
    requires PasswordValid(pwd)
    ensures ServerAcceptsPassword(pwd) && |pwd| >= 8
    ensures PasswordValid("Abcdefg1!") && !PasswordValid("abcdefg1") && ServerAcceptsPassword("abcdefg1")
  {
    var ok := "Abcdefg1!";
    assert IsDigit(ok[7]) && IsUpperAscii(ok[0]) && IsLowerAscii(ok[1]) && IsSymbol(ok[8]);
    var weak := "abcdefg1";
    assert IsDigit(weak[7]);
    assert forall i :: 0 <= i < |weak| ==> !IsUpperAscii(weak[i]);
  }

  /** An enabled button means a valid password and no request in flight. */
  lemma EnabledMeansValid(loading: bool, pwd: string)
    requires !SubmitDisabled(loading, pwd)
    ensures !loading && ServerAcceptsPassword(pwd)
  {
    ValidPasswordAccepted(pwd);
  }

  datatype SignupForm = SignupForm(firstname: string, lastname: string, email: string, password: string)

  /**
   * `SignupSchema.parse(form)`'s issues, field by field in the schema's
   * order; whether an email is well formed is the parameter `emailOk`.
   */
  function SchemaIssues(f: SignupForm, emailOk: string -> bool): (r: seq<FormIssue>)
    ensures r == [] <==> |f.firstname| >= 1 && |f.lastname| >= 1 && emailOk(f.email) && |f.password| >= 8
    ensures forall i :: 0 <= i < |r| ==> |r[i].path| == 1
  {
    IssueIf(|f.firstname| < 1, "firstname", "First name is required")
    + IssueIf(|f.lastname| < 1, "lastname", "Last name is required")
    + IssueIf(!emailOk(f.email), "email", "Invalid email")
    + IssueIf(|f.password| < 8, "password", "Password must be at least 8 characters")
  }

  /** One field's check: an issue under the field's name when it fails, none otherwise. */
  function IssueIf(fails: bool, key: string, message: string): seq<FormIssue> {
    if fails then [FormIssue([Key(key)], message)] else []
  }

  /** `e.path[0]` is truthy: a non-empty key or a non-zero index. */
  predicate HasFieldKey(e: FormIssue) {
    |e.path| > 0 && (if e.path[0].Key? then e.path[0].k != "" else e.path[0].i != 0)
  }

  /** `e.path[0] as string`, a property name. */
  function FieldKey(e: FormIssue): string
    requires |e.path| > 0
  {
    if e.path[0].Key? then e.path[0].k else NatToString(e.path[0].i)
  }

  /** The field errors after the loop has seen `issues`: a later issue on the same field overwrites. */
  function FieldErrorsOf(issues: seq<FormIssue>): map<string, string>
    decreases |issues|
  {
    if |issues| == 0 then map[]
    else
      var m := FieldErrorsOf(issues[..|issues| - 1]);
      var e := issues[|issues| - 1];
      if HasFieldKey(e) then m[FieldKey(e) := e.message] else m
  }

  /** `issues[i]` is the last issue reported on field `k`. */
  predicate LastOnField(issues: seq<FormIssue>, i: int, k: string) {
    && 0 <= i < |issues| && HasFieldKey(issues[i]) && FieldKey(issues[i]) == k
    && forall j :: i < j < |issues| ==> !(HasFieldKey(issues[j]) && FieldKey(issues[j]) == k)
  }

  /**
   * A field has an error exactly when some issue with a key names it, and
   * its message is the one of the last such issue.
   */
  lemma {:induction false} FieldErrorsFacts(issues: seq<FormIssue>, k: string)
    ensures k in FieldErrorsOf(issues) <==>
      exists i :: 0 <= i < |issues| && HasFieldKey(issues[i]) && FieldKey(issues[i]) == k
    ensures k in FieldErrorsOf(issues) ==>
      exists i :: LastOnField(issues, i, k) && issues[i].message == FieldErrorsOf(issues)[k]
    decreases |issues|
  {
    if |issues| > 0 {
      var n := |issues| - 1;
      var q := issues[..n];
      FieldErrorsFacts(q, k);
      assert forall i :: 0 <= i < n ==> issues[i] == q[i];
      var e := issues[n];
      if HasFieldKey(e) && FieldKey(e) == k {
        assert LastOnField(issues, n, k);
      } else if k in FieldErrorsOf(issues) {
        var i :| LastOnField(q, i, k) && q[i].message == FieldErrorsOf(q)[k];
        assert LastOnField(issues, i, k);
      }
    }
  }

  /** `err.errors.forEach(...)` filling `fieldErrors`. */
  method FieldErrors(issues: seq<FormIssue>) returns (m: map<string, string>)
    ensures m == FieldErrorsOf(issues)
    ensures forall k :: k in m <==> exists i :: 0 <= i < |issues| && HasFieldKey(issues[i]) && FieldKey(issues[i]) == k
  {
    m := map[];
    for i := 0 to |issues|
      invariant m == FieldErrorsOf(issues[..i])
    {
      var e := issues[i];
      assert issues[..i + 1][..i] == issues[..i];
      if HasFieldKey(e) {
        m := m[FieldKey(e) := e.message];
      }
    }
    assert issues[..|issues|] == issues;
    forall k ensures k in m <==> exists i :: 0 <= i < |issues| && HasFieldKey(issues[i]) && FieldKey(issues[i]) == k {
      FieldErrorsFacts(issues, k);
    }
  }

  /**
   * The schema's field errors: one per failing field, under the field's
   * own name, and never one for a password the hints accept.
   */
  lemma SchemaFieldErrors(f: SignupForm, emailOk: string -> bool)
    ensures "firstname" in FieldErrorsOf(SchemaIssues(f, emailOk)) <==> f.firstname == ""
    ensures "password" in FieldErrorsOf(SchemaIssues(f, emailOk)) <==> |f.password| < 8
    ensures PasswordValid(f.password) ==> "password" !in FieldErrorsOf(SchemaIssues(f, emailOk))
  {
    FirstnameError(f, emailOk);
    PasswordError(f, emailOk);
  }

  /** The first name has an error exactly when it is empty. */
  lemma FirstnameError(f: SignupForm, emailOk: string -> bool)
    ensures "firstname" in FieldErrorsOf(SchemaIssues(f, emailOk)) <==> f.firstname == ""
  {
    var a := IssueIf(|f.firstname| < 1, "firstname", "First name is required");
    var b := IssueIf(|f.lastname| < 1, "lastname", "Last name is required");
    var c := IssueIf(!emailOk(f.email), "email", "Invalid email");
    var d := IssueIf(|f.password| < 8, "password", "Password must be at least 8 characters");
    var r := SchemaIssues(f, emailOk);
    assert r == a + b + c + d;
    FieldErrorsFacts(r, "firstname");
    if f.firstname == "" {
      assert HasFieldKey(r[0]) && FieldKey(r[0]) == "firstname";
    } else {
      OtherField(|f.lastname| < 1, "lastname", "Last name is required", "firstname");
      OtherField(!emailOk(f.email), "email", "Invalid email", "firstname");
      OtherField(|f.password| < 8, "password", "Password must be at least 8 characters", "firstname");
      NoKeyAppend(a, b, "firstname");
      NoKeyAppend(a + b, c, "firstname");
      NoKeyAppend(a + b + c, d, "firstname");
    }
  }

  /** The password has an error exactly when it is shorter than 8 characters. */
  lemma PasswordError(f: SignupForm, emailOk: string -> bool)
    ensures "password" in FieldErrorsOf(SchemaIssues(f, emailOk)) <==> |f.password| < 8
  {
    var a := IssueIf(|f.firstname| < 1, "firstname", "First name is required");
    var b := IssueIf(|f.lastname| < 1, "lastname", "Last name is required");
    var c := IssueIf(!emailOk(f.email), "email", "Invalid email");
    var d := IssueIf(|f.password| < 8, "password", "Password must be at least 8 characters");
    var r := SchemaIssues(f, emailOk);
    assert r == a + b + c + d;
    FieldErrorsFacts(r, "password");
    if |f.password| < 8 {
      assert HasFieldKey(r[|r| - 1]) && FieldKey(r[|r| - 1]) == "password";
    } else {
      OtherField(|f.firstname| < 1, "firstname", "First name is required", "password");
      OtherField(|f.lastname| < 1, "lastname", "Last name is required", "password");
      OtherField(!emailOk(f.email), "email", "Invalid email", "password");
      NoKeyAppend(a, b, "password");
      NoKeyAppend(a + b, c, "password");
      NoKeyAppend(a + b + c, d, "password");
    }
  }

  /** No issue of the list is reported on field `k`. */
  predicate NoKey(issues: seq<FormIssue>, k: string) {
    forall i :: 0 <= i < |issues| ==> !(HasFieldKey(issues[i]) && FieldKey(issues[i]) == k)
  }

  /** A check on another field reports nothing on `k`. */
  lemma OtherField(fails: bool, key: string, message: string, k: string)
    requires key != k
    ensures NoKey(IssueIf(fails, key, message), k)
  {
  }

  /** Two lists that report nothing on `k` concatenate to one that does not either. */
  lemma NoKeyAppend(a: seq<FormIssue>, b: seq<FormIssue>, k: string)
    requires NoKey(a, k) && NoKey(b, k)
    ensures NoKey(a + b, k)
  {
    forall i | 0 <= i < |a + b| ensures !(HasFieldKey((a + b)[i]) && FieldKey((a + b)[i]) == k) {
      if i >= |a| {
        assert (a + b)[i] == b[i - |a|];
      }
    }
  }

  /** How sign-up came back: registered, or rejected with `err.data?.error`. */
  datatype Response = Registered | Rejected(dataError: Option<string>)

  const DuplicateMessage := "An account with this email already exists."
  const PasswordMessage := "Password must be at least 8 characters long and contain at least one number."
  const FieldsMessage := "Please correct the highlighted fields."
  const UnknownMessage := "Something went wrong. Please try again."

  /**
   * The general message for a server error as written: `Email` first, then
   * `Password`; any other text reads `err.response.data.error`, a field the
   * rejection the HTTP client builds does not have, so the handler throws
   * (None) before it shows anything or clears `loading`.
   */
  function ServerMessageAsWritten(e: string): Option<string> {
    if Contains(e, "Email") then Some(DuplicateMessage)
    else if Contains(e, "Password") then Some(PasswordMessage)
    else None
  }

  /** The general message for a server error, showing any other text as it came. */
  function ServerMessage(e: string): (r: string)
    ensures Contains(e, "Email") ==> r == DuplicateMessage
    ensures !Contains(e, "Email") && Contains(e, "Password") ==> r == PasswordMessage
    ensures !Contains(e, "Email") && !Contains(e, "Password") ==> r == e
    ensures ServerMessageAsWritten(e).Some? ==> r == ServerMessageAsWritten(e).value
  {
    if Contains(e, "Email") then DuplicateMessage
    else if Contains(e, "Password") then PasswordMessage
    else e
  }

  /**
   * A server text with neither word leaves the page as written without a
   * message and still loading, where the corrected mapping shows the text.
   */
  lemma UnmappedServerText(e: string)
    requires e == "Database unavailable"
    ensures ServerMessageAsWritten(e).None?
    ensures ServerMessage(e) == e
  {
    NoWord(e, "Email");
    NoPasswordWord(e);
  }

  /** That text does not name the password either. */
  lemma NoPasswordWord(e: string)
    requires e == "Database unavailable"
    ensures !Contains(e, "Password")
  {
    var w := "Password";
    assert w[0] == 'P';
    NoWord(e, w);
  }

  /** The backend's refusal of a taken address is shown as the duplicate-account message. */
  lemma DuplicateRefusalMapped(dup: string)
    requires dup == "Email already registered."
    ensures ServerMessage(dup) == DuplicateMessage
  {
    assert "Email" <= dup;
  }

  /** A text naming both words counts as the email refusal. */
  lemma EmailCheckedFirst(e: string)
    requires Contains(e, "Email") && Contains(e, "Password")
    ensures ServerMessage(e) == DuplicateMessage
  {
  }

  /** A text in which the word's first letter does not occur does not contain the word. */
  lemma {:induction false} NoWord(s: string, w: string)
    requires |w| > 0 && forall i :: 0 <= i < |s| ==> s[i] != w[0]
    ensures !Contains(s, w)
    decreases |s|
  {
    if |s| > 0 {
      assert s[0] != w[0];
      NoWord(s[1..], w);
    } else {
      assert !(w <= s);
    }
  }

  /** The page's state: field errors, the general message, and the busy flag. */
  class Page {
    var errors: map<string, string>
    var generalError: string
    var loading: bool
    var navigated: bool

    constructor()
      ensures errors == map[] && generalError == "" && !loading && !navigated
    {
      errors := map[];
      generalError := "";
      loading := false;
      navigated := false;
    }

    /**
     * `handleSubmit`: clear the messages; a form the schema refuses gets its
     * field errors and the general hint; otherwise the request is sent, and
     * a registered user is taken to the dashboard while a rejection shows
     * the message for "Email" or "Password", or the catch-all without a
     * server text. A server text with neither word reads
     * `err.response.data.error` of a rejection that has no `response`: the
     * handler throws (`thrown`) with no message shown and `loading` still set.
     */
    method HandleSubmit(f: SignupForm, emailOk: string -> bool, response: Response) returns (thrown: bool)
      modifies this
      ensures SchemaIssues(f, emailOk) != [] ==>
        errors == FieldErrorsOf(SchemaIssues(f, emailOk)) && generalError == FieldsMessage
        && !loading && navigated == old(navigated) && !thrown
      ensures SchemaIssues(f, emailOk) == [] && response.Registered? ==>
        errors == map[] && generalError == "" && loading && navigated && !thrown
      ensures SchemaIssues(f, emailOk) == [] && response.Rejected? ==>
        errors == map[] && navigated == old(navigated)
      ensures SchemaIssues(f, emailOk) == [] && response.Rejected? && !(response.dataError.Some? && response.dataError.value != "") ==>
        generalError == UnknownMessage && !loading && !thrown
      ensures SchemaIssues(f, emailOk) == [] && response.Rejected? && response.dataError.Some? && response.dataError.value != "" ==>
        var shown := ServerMessageAsWritten(response.dataError.value);
        && (thrown <==> shown.None?)
        && (shown.Some? ==> generalError == shown.value && !loading)
        && (shown.None? ==> generalError == "" && loading)
    {
      errors := map[];
      generalError := "";
      thrown := false;
      var issues := SchemaIssues(f, emailOk);
      if issues != [] {
        errors := FieldErrors(issues);
        generalError := FieldsMessage;
        loading := false;
        return;
      }
      loading := true;
      match response
      case Registered =>
        navigated := true;
      case Rejected(dataError) =>
        if dataError.Some? && dataError.value != "" {
          match ServerMessageAsWritten(dataError.value)
          case Some(m) =>
            generalError := m;
            loading := false;
          case None =>
            thrown := true;
        } else {
          generalError := UnknownMessage;
          loading := false;
        }
    }
  }
}
