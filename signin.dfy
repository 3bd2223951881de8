/**
 * The sign-in page: field validation, what a login reply leads to, the
 * error text shown for a failed login, and the page state that
 * `validateForm` and `handleSubmit` update.
 */
module SignIn {
  import opened Options
  import opened Text
  import opened UserModel
  import DashboardPage

  const SIGNIN_PATH := "/signin"

  const EMAIL_REQUIRED := "Email is required"
  const EMAIL_INVALID := "Please enter a valid email address"
  const PASSWORD_REQUIRED := "Password is required"
  const PASSWORD_TOO_SHORT := "Password must be at least 6 characters"
  const MIN_PASSWORD_LENGTH := 6

  // ---------------------------------------------------------------------
  // The e-mail pattern /\S+@\S+\.\S+/, which is not anchored
  // ---------------------------------------------------------------------

  /** `s[i..j]` is a non-empty run of non-white-space characters (`\S+`). */
  predicate NonSpaceRun(s: string, i: int, j: int) {
    0 <= i < j <= |s| && forall k | i <= k < j :: !IsJsSpace(s[k])
  }

  /** The pattern matches the block `s[p..q]`, with its '@' at `a` and its '.' at `b`. */
  ghost predicate LooseMatchAt(s: string, p: int, a: int, b: int, q: int) {
    && NonSpaceRun(s, p, a) && a < |s| && s[a] == '@'
    && NonSpaceRun(s, a + 1, b) && b < |s| && s[b] == '.'
    && NonSpaceRun(s, b + 1, q)
  }

  /** The pattern matches somewhere in `s`. */
  ghost predicate LooseEmailPattern(s: string) {
    exists p, a, b, q :: LooseMatchAt(s, p, a, b, q)
  }

  /**
   * A shortest match: a non-space before an '@' at `a`, then non-spaces up
   * to a '.' at `b` at least two places later, then one more non-space.
   */
  predicate ShortestMatch(s: string, a: int, b: int) {
    && 0 < a < b && b + 1 < |s|
    && !IsJsSpace(s[a - 1]) && s[a] == '@'
    && NonSpaceRun(s, a + 1, b) && s[b] == '.'
    && !IsJsSpace(s[b + 1])
  }

  /** The character-level test the page performs. */
  predicate LooseEmailTest(s: string) {
    exists a, b | 0 < a < b < |s| :: ShortestMatch(s, a, b)
  }

  /** The character-level test accepts exactly the strings the pattern matches somewhere. */
  lemma LooseEmailTestCorrect(s: string)
    ensures LooseEmailTest(s) <==> LooseEmailPattern(s)
  {
    if LooseEmailTest(s) {
      var a, b :| 0 < a < b < |s| && ShortestMatch(s, a, b);
      assert LooseMatchAt(s, a - 1, a, b, b + 2);
    }
    if LooseEmailPattern(s) {
      var p, a, b, q :| LooseMatchAt(s, p, a, b, q);
      assert !IsJsSpace(s[a - 1]) && !IsJsSpace(s[b + 1]);
      assert ShortestMatch(s, a, b);
    }
  }

  /** The pattern is not anchored: text around a match does not matter. */
  lemma LooseEmailIgnoresSurroundings(pre: string, s: string, post: string)
    requires LooseEmailPattern(s)
    ensures LooseEmailPattern(pre + s + post)
  {
    var p, a, b, q :| LooseMatchAt(s, p, a, b, q);
    var t, n := pre + s + post, |pre|;
    assert forall k | 0 <= k < |s| :: t[n + k] == s[k];
    assert LooseMatchAt(t, n + p, n + a, n + b, n + q);
  }

  // ---------------------------------------------------------------------
  // validateForm
  // ---------------------------------------------------------------------

  /**
   * The errors `validateForm` collects, keyed by field name. The two fields
   * are checked independently, so both can be present.
   */
  function SignInErrors(email: string, password: string): (errors: map<string, string>)
    ensures errors.Keys <= {"email", "password"}
    ensures "email" in errors <==> !LooseEmailPattern(email)
    ensures "email" in errors ==> errors["email"] == if email == "" then EMAIL_REQUIRED else EMAIL_INVALID
    ensures "password" in errors <==> |password| < MIN_PASSWORD_LENGTH
    ensures "password" in errors ==> errors["password"] == if password == "" then PASSWORD_REQUIRED else PASSWORD_TOO_SHORT
  {
    LooseEmailTestCorrect(email);
    var emailErrors: map<string, string> :=
      if email == "" then map["email" := EMAIL_REQUIRED]
      else if !LooseEmailTest(email) then map["email" := EMAIL_INVALID]
      else map[];
    if password == "" then emailErrors["password" := PASSWORD_REQUIRED]
    else if |password| < MIN_PASSWORD_LENGTH then emailErrors["password" := PASSWORD_TOO_SHORT]
    else emailErrors
  }

  /** The form is valid exactly when the e-mail matches the pattern and the password has six characters. */
  lemma SignInValidIff(email: string, password: string)
    ensures SignInErrors(email, password) == map[] <==>
      LooseEmailPattern(email) && |password| >= MIN_PASSWORD_LENGTH
  {
    var e := SignInErrors(email, password);
    if !LooseEmailPattern(email) {
      assert "email" in e;
    } else if |password| < MIN_PASSWORD_LENGTH {
      assert "password" in e;
    }
  }

  // ---------------------------------------------------------------------
  // What a login attempt leads to
  // ---------------------------------------------------------------------

  /** Only 200 and 201 count as a successful login. */
  predicate LoginSucceeded(status: int) {
    status == 200 || status == 201
  }

  /** Where a successful login sends the user, by the `org_type` of the reply. */
  function LoginRoute(orgType: OrgType): (path: string)
    ensures orgType == SOLO <==> path == "/dashboard/solo"
    ensures orgType == FIRM <==> path == "/dashboard/firm"
    ensures orgType != SOLO && orgType != FIRM <==> path == "/dashboard"
  {
    if orgType == SOLO then "/dashboard/solo"
    else if orgType == FIRM then "/dashboard/firm"
    else "/dashboard"
  }

  /** The parts of a failed request's body that the page reads. */
  datatype ErrorBody = ErrorBody(detail: Option<string>, message: Option<string>)

  datatype LoginFailure =
    | HttpFailure(response: Option<ErrorBody>)   // an axios error, with the server's body if any
    | OtherFailure                               // anything else that was thrown

  /** `detail ?? message ?? "Login failed"` for an axios error, "Something went wrong" otherwise. */
  function LoginErrorText(f: LoginFailure): (text: string)
    ensures f.HttpFailure? && f.response.Some? && f.response.value.detail.Some? ==>
      text == f.response.value.detail.value
    ensures f.HttpFailure? && f.response.Some? && f.response.value.detail.None? && f.response.value.message.Some? ==>
      text == f.response.value.message.value
    ensures f.HttpFailure? && (f.response.None? || f.response.value == ErrorBody(None, None)) ==>
      text == "Login failed"
    ensures f.OtherFailure? ==> text == "Something went wrong"
  {
    match f
    case HttpFailure(None) => "Login failed"
    case HttpFailure(Some(body)) => body.detail.GetOr(body.message.GetOr("Login failed"))
    case OtherFailure => "Something went wrong"
  }

  /** The fields of the login reply that the page reads. */
  datatype LoginReply = LoginReply(status: int, orgType: OrgType, message: Option<string>)

  datatype LoginAttempt = Replied(reply: LoginReply) | Failed(failure: LoginFailure)

  /** What `handleSubmit` does: nothing for an invalid form, a navigation, or a notification. */
  datatype SubmitEffect =
    | NotSubmitted
    | Navigate(path: string, notice: string)   // `router.push` with a success notification
    | ShowReplyBody                            // a reply other than 200/201 (axios rejects non-2xx ones): its body is shown as an error
    | ShowError(text: string)

  /** The effect of a login attempt once the form has passed validation. */
  function AttemptEffect(attempt: LoginAttempt): (e: SubmitEffect)
    ensures e.Navigate? <==> attempt.Replied? && LoginSucceeded(attempt.reply.status)
    ensures e.Navigate? ==> e.path == LoginRoute(attempt.reply.orgType)
    ensures e.Navigate? && attempt.reply.message.Some? && attempt.reply.message.value != "" ==>
      e.notice == attempt.reply.message.value
    ensures e.Navigate? && (attempt.reply.message.None? || attempt.reply.message.value == "") ==>
      e.notice == "Login successful"
    ensures attempt.Replied? && !LoginSucceeded(attempt.reply.status) ==> e == ShowReplyBody
    ensures attempt.Failed? ==> e == ShowError(LoginErrorText(attempt.failure))
  {
    match attempt
    case Replied(reply) =>
      if LoginSucceeded(reply.status) then
        var notice := if reply.message.Some? && reply.message.value != "" then reply.message.value else "Login successful";
        Navigate(LoginRoute(reply.orgType), notice)
      else ShowReplyBody
    case Failed(f) => ShowError(LoginErrorText(f))
  }

  // ---------------------------------------------------------------------
  // Agreement with the rest of the routing
  // ---------------------------------------------------------------------

  /**
   * A SOLO or FIRM login lands where the dashboard page would send that user;
   * any other org type lands on "/dashboard", where the page takes no action.
   */
  lemma LoginRouteAgreesWithLandingPage(u: User)
    ensures u.orgType == SOLO || u.orgType == FIRM ==>
      DashboardPage.RedirectTarget(true, false, Some(u)) == Some(LoginRoute(u.orgType))
    ensures u.orgType != SOLO && u.orgType != FIRM ==>
      LoginRoute(u.orgType) == "/dashboard" && DashboardPage.RedirectTarget(true, false, Some(u)) == None
  {
  }

  /** The page's store-driven effect, with a settled store and no user, targets this very page. */
  lemma StoreRedirectWithoutUserTargetsSignin()
    ensures DashboardPage.RedirectTarget(true, false, None) == Some(SIGNIN_PATH)
  {
  }

  // ---------------------------------------------------------------------
  // The page state
  // ---------------------------------------------------------------------

  class SignInForm {
    var email: string
    var password: string
    var errors: map<string, string>
    var isLoading: bool

    constructor ()
      ensures email == "" && password == "" && errors == map[] && !isLoading
    {
      email, password, errors, isLoading := "", "", map[], false;
    }

    /** `validateForm`: builds the error map field by field, stores it, and reports whether it is empty. */
    method ValidateForm() returns (valid: bool)
      modifies this`errors
      ensures errors == SignInErrors(email, password)
      ensures valid <==> errors == map[]
    {
      var newErrors: map<string, string> := map[];
      if email == "" {
        newErrors := newErrors["email" := EMAIL_REQUIRED];
      } else if !LooseEmailTest(email) {
        newErrors := newErrors["email" := EMAIL_INVALID];
      }
      if password == "" {
        newErrors := newErrors["password" := PASSWORD_REQUIRED];
      } else if |password| < MIN_PASSWORD_LENGTH {
        newErrors := newErrors["password" := PASSWORD_TOO_SHORT];
      }
      errors := newErrors;
      valid := |newErrors.Keys| == 0;
      assert valid <==> newErrors == map[];
    }

    /**
     * `handleSubmit` with the login request's outcome as a parameter. An
     * invalid form never touches `isLoading`; otherwise `isLoading` is set
     * for the request and cleared on every way out.
     */
    method HandleSubmit(attempt: LoginAttempt) returns (effect: SubmitEffect)
      modifies this`errors, this`isLoading
      ensures errors == SignInErrors(email, password)
      ensures errors != map[] ==> effect == NotSubmitted && isLoading == old(isLoading)
      ensures errors == map[] ==> effect == AttemptEffect(attempt) && !isLoading
    {
      var valid := ValidateForm();
      if !valid {
        return NotSubmitted;
      }
      isLoading := true;
      effect := AttemptEffect(attempt);
      isLoading := false;
    }
  }
}
