/**
 * The sign-up page's state: the form data, the error map, the three-step
 * flow (role cards, details, account), and the handlers that move between
 * the steps.
 *
 * The page keeps two copies of the role choice: the cards' selection in
 * the form data (`formData.lawFirm`, `formData.lawyer`) and the page's own
 * `lawFirm`/`lawyer`, which are seeded from the `role` query parameter,
 * copied from the cards on Continue, and cleared by Back.
 */
module SignUpPage {
  import opened Options
  import opened Text
  import opened SignUpRules

  datatype FormData = FormData(
    lawFirm: bool,
    lawyer: bool,
    lawFirmName: string,
    lawyerName: string,
    adminName: string,
    email: string,
    password: string,
    confirmPassword: string)

  const EmptyForm := FormData(false, false, "", "", "", "", "", "")

  /** The text inputs, each named as its key in the form data and the error map. */
  datatype Field = LawFirmName | LawyerName | AdminName | Email | Password | ConfirmPassword

  function FieldName(f: Field): string {
    match f
    case LawFirmName => "lawFirmName"
    case LawyerName => "lawyerName"
    case AdminName => "adminName"
    case Email => "email"
    case Password => "password"
    case ConfirmPassword => "confirmPassword"
  }

  function FieldValue(fd: FormData, f: Field): string {
    match f
    case LawFirmName => fd.lawFirmName
    case LawyerName => fd.lawyerName
    case AdminName => fd.adminName
    case Email => fd.email
    case Password => fd.password
    case ConfirmPassword => fd.confirmPassword
  }

  /** `{ ...prev, [name]: value }`: one field replaced, everything else kept. */
  function WithField(fd: FormData, f: Field, value: string): (r: FormData)
    ensures FieldValue(r, f) == value
    ensures forall g: Field | g != f :: FieldValue(r, g) == FieldValue(fd, g)
    ensures r.lawFirm == fd.lawFirm && r.lawyer == fd.lawyer
  {
    match f
    case LawFirmName => fd.(lawFirmName := value)
    case LawyerName => fd.(lawyerName := value)
    case AdminName => fd.(adminName := value)
    case Email => fd.(email := value)
    case Password => fd.(password := value)
    case ConfirmPassword => fd.(confirmPassword := value)
  }

  /** Distinct inputs write distinct keys. */
  lemma FieldNameInjective(f: Field, g: Field)
    requires FieldName(f) == FieldName(g)
    ensures f == g
  {
  }

  // ---------------------------------------------------------------------
  // The role cards
  // ---------------------------------------------------------------------

  /** At most one of the two cards is selected. */
  predicate AtMostOneCard(fd: FormData) {
    !(fd.lawFirm && fd.lawyer)
  }

  /** A click on the law-firm card: it flips, and selecting it deselects the lawyer card. */
  function ToggleLawFirmCard(fd: FormData): (r: FormData)
    ensures r.lawFirm == !fd.lawFirm
    ensures r.lawyer == (fd.lawyer && fd.lawFirm)
    ensures AtMostOneCard(r)
    ensures r.(lawFirm := fd.lawFirm, lawyer := fd.lawyer) == fd
  {
    fd.(lawFirm := !fd.lawFirm, lawyer := if fd.lawFirm then fd.lawyer else false)
  }

  /** A click on the lawyer card, symmetric to the law-firm card. */
  function ToggleLawyerCard(fd: FormData): (r: FormData)
    ensures r.lawyer == !fd.lawyer
    ensures r.lawFirm == (fd.lawFirm && fd.lawyer)
    ensures AtMostOneCard(r)
    ensures r.(lawFirm := fd.lawFirm, lawyer := fd.lawyer) == fd
  {
    fd.(lawyer := !fd.lawyer, lawFirm := if fd.lawyer then fd.lawFirm else false)
  }

  /** Two clicks on the same card restore the form, except that the other card ends deselected. */
  lemma ToggleTwice(fd: FormData)
    requires AtMostOneCard(fd)
    ensures ToggleLawFirmCard(ToggleLawFirmCard(fd)) == fd.(lawyer := false)
    ensures ToggleLawyerCard(ToggleLawyerCard(fd)) == fd.(lawFirm := false)
  {
  }

  /**
   * A click on the lawyer checkbox runs its `onChange`, its own `onClick`
   * and then, as the click bubbles, the card's `onClick`: three toggles,
   * which select exactly as one click on the card does.
   */
  lemma LawyerCheckboxClick(fd: FormData)
    requires AtMostOneCard(fd)
    ensures ToggleLawyerCard(ToggleLawyerCard(ToggleLawyerCard(fd))) == ToggleLawyerCard(fd)
  {
  }

  /** Once a card is selected, a click on the other card moves the selection there. */
  lemma ClickMovesSelection(fd: FormData)
    requires fd.lawFirm && !fd.lawyer
    ensures var r := ToggleLawyerCard(fd); r.lawyer && !r.lawFirm
  {
  }

  // ---------------------------------------------------------------------
  // Errors
  // ---------------------------------------------------------------------

  /** `if (errors[name]) errors = { ...errors, [name]: "" }`: a shown message is blanked, nothing else changes. */
  function ClearError(errors: map<string, string>, key: string): (r: map<string, string>)
    ensures r.Keys == errors.Keys
    ensures key in r ==> r[key] == ""
    ensures forall k | k in r && k != key :: r[k] == errors[k]
  {
    if key in errors && errors[key] != "" then errors[key := ""] else errors
  }

  /** The step the page shows after mounting, from the `role` query parameter. */
  function InitialStep(role: Option<string>): (step: int)
    ensures step == 1 <==> role == Some("lawFirm") || role == Some("lawyer")
    ensures step == 0 || step == 1
  {
    if role == Some("lawFirm") || role == Some("lawyer") then 1 else 0
  }

  // ---------------------------------------------------------------------
  // The page
  // ---------------------------------------------------------------------

  class SignUpForm {
    var formData: FormData
    var errors: map<string, string>
    var isLoading: bool
    var agreedToTerms: bool
    var step: int
    var lawFirm: bool
    var lawyer: bool

    /**
     * The page invariant: at most one card, at most one role, one of three
     * steps, and a role chosen whenever the page is past the cards.
     */
    ghost predicate Valid()
      reads this
    {
      && AtMostOneCard(formData)
      && !(lawFirm && lawyer)
      && 0 <= step <= 2
      && (step != 0 ==> lawFirm || lawyer)
    }

    /** The page as it stands once the mount effect has run. */
    constructor (role: Option<string>)
      ensures Valid()
      ensures formData == EmptyForm && errors == map[] && !isLoading && !agreedToTerms
      ensures lawFirm == (role == Some("lawFirm")) && lawyer == (role == Some("lawyer"))
      ensures step == InitialStep(role)
    {
      formData, errors, isLoading, agreedToTerms := EmptyForm, map[], false, false;
      lawFirm := role == Some("lawFirm");
      lawyer := role == Some("lawyer");
      step := 0;
      new;
      // the mount effect
      if lawFirm || lawyer {
        step := 1;
      }
    }

    method ClickLawFirmCard()
      requires Valid()
      modifies this`formData
      ensures Valid()
      ensures formData == ToggleLawFirmCard(old(formData))
    {
      formData := formData.(lawFirm := !formData.lawFirm, lawyer := if formData.lawFirm then formData.lawyer else false);
    }

    method ClickLawyerCard()
      requires Valid()
      modifies this`formData
      ensures Valid()
      ensures formData == ToggleLawyerCard(old(formData))
    {
      formData := formData.(lawyer := !formData.lawyer, lawFirm := if formData.lawyer then formData.lawFirm else false);
    }

    /** `handleChange`: stores the input's value and blanks the message shown for it. */
    method HandleChange(field: Field, value: string)
      requires Valid()
      modifies this`formData, this`errors
      ensures Valid()
      ensures formData == WithField(old(formData), field, value)
      ensures errors == ClearError(old(errors), FieldName(field))
    {
      formData := WithField(formData, field, value);
      var name := FieldName(field);
      if name in errors && errors[name] != "" {
        errors := errors[name := ""];
      }
    }

    /** The terms checkbox: stores the box and blanks the terms message. */
    method SetAgreedToTerms(checked: bool)
      requires Valid()
      modifies this`agreedToTerms, this`errors
      ensures Valid()
      ensures agreedToTerms == checked
      ensures errors == ClearError(old(errors), "terms")
    {
      agreedToTerms := checked;
      if "terms" in errors && errors["terms"] != "" {
        errors := errors["terms" := ""];
      }
    }

    /** `validateForm`: the password, its confirmation and the terms box. */
    method ValidateForm() returns (valid: bool)
      modifies this`errors
      ensures errors == AccountErrors(formData.password, formData.confirmPassword, agreedToTerms)
      ensures valid <==> errors == map[]
    {
      var fd := formData;
      var e := AccountErrors(fd.password, fd.confirmPassword, agreedToTerms);
      errors := e;
      assert formData == fd;
      valid := e == map[];
    }

    /** `validateLawFirm`: the firm name, the admin name and the e-mail address. */
    method ValidateLawFirm() returns (valid: bool)
      modifies this`errors
      ensures errors == LawFirmErrors(formData.lawFirmName, formData.adminName, formData.email)
      ensures valid <==> errors == map[]
    {
      var fd := formData;
      var e := LawFirmErrors(fd.lawFirmName, fd.adminName, fd.email);
      errors := e;
      assert formData == fd;
      valid := e == map[];
    }

    /** `validateLawyer`: the trimmed name and the e-mail address. */
    method ValidateLawyer() returns (valid: bool)
      modifies this`errors
      ensures errors == LawyerErrors(formData.lawyerName, formData.email)
      ensures valid <==> errors == map[]
    {
      var fd := formData;
      var e := LawyerErrors(fd.lawyerName, fd.email);
      errors := e;
      assert formData == fd;
      valid := e == map[];
    }

    /**
     * `handleSubmit`, the form's submit handler: a valid account step sets
     * `isLoading`, which the simulated request's timer clears later.
     */
    method Submit() returns (valid: bool)
      requires Valid()
      modifies this`errors, this`isLoading
      ensures Valid()
      ensures errors == AccountErrors(formData.password, formData.confirmPassword, agreedToTerms)
      ensures valid <==> errors == map[]
      ensures isLoading == (valid || old(isLoading))
    {
      valid := ValidateForm();
      if !valid {
        return;
      }
      isLoading := true;
    }

    /** The simulated request's timer. */
    method SubmitTimerFires()
      requires Valid()
      modifies this`isLoading
      ensures Valid() && !isLoading
    {
      isLoading := false;
    }

    /**
     * Continue on the role cards: the page's role is copied from the cards.
     * With no card selected the page stays on the cards, the `type="submit"`
     * button stays mounted, and the form's submit handler runs as well. With
     * a card selected the step moves on, the re-render unmounts the button
     * before the default action, and no submission follows.
     */
    method Continue() returns (proceeded: bool)
      requires Valid() && step == 0
      modifies this`lawFirm, this`lawyer, this`step, this`errors, this`isLoading
      ensures Valid()
      ensures lawFirm == formData.lawFirm && lawyer == formData.lawyer
      ensures proceeded <==> formData.lawFirm || formData.lawyer
      ensures step == if proceeded then 1 else 0
      ensures proceeded ==> errors == old(errors) && isLoading == old(isLoading)
      ensures !proceeded ==> errors == AccountErrors(formData.password, formData.confirmPassword, agreedToTerms)
      ensures !proceeded ==> isLoading == (errors == map[] || old(isLoading))
    {
      lawFirm := formData.lawFirm;
      lawyer := formData.lawyer;
      proceeded := formData.lawFirm || formData.lawyer;
      if proceeded {
        step := 1;
      } else {
        var _ := Submit();
      }
    }

    /** Next Step on the details: the chosen role's validator decides whether the account step opens. */
    method NextStep() returns (advanced: bool)
      requires Valid() && step == 1
      modifies this`errors, this`step
      ensures Valid()
      ensures lawyer ==> (advanced <==> LawyerErrors(formData.lawyerName, formData.email) == map[])
      ensures !lawyer ==>
        (advanced <==> LawFirmErrors(formData.lawFirmName, formData.adminName, formData.email) == map[])
      ensures advanced ==> step == 2 && errors == map[]
      ensures !advanced ==>
        step == 1 && errors == (if lawyer then LawyerErrors(formData.lawyerName, formData.email)
         else LawFirmErrors(formData.lawFirmName, formData.adminName, formData.email))
    {
      var fd := formData;
      advanced := false;
      if lawyer {
        var valid := ValidateLawyer();
        assert formData == fd;
        if valid {
          step, errors := 2, map[];
          advanced := true;
        }
      } else {
        // past the cards a role is chosen, so this is the law-firm branch
        var valid := ValidateLawFirm();
        assert formData == fd;
        if valid {
          step, errors := 2, map[];
          advanced := true;
        }
      }
    }

    /** Back from the details: the cards again, with the page's role cleared and the cards' selection kept. */
    method BackToRoles()
      requires Valid() && step == 1
      modifies this`step, this`lawFirm, this`lawyer
      ensures Valid()
      ensures step == 0 && !lawFirm && !lawyer
    {
      step, lawyer, lawFirm := 0, false, false;
    }

    /** Back from the account step to the details. */
    method BackToDetails()
      requires Valid() && step == 2
      modifies this`step
      ensures Valid() && step == 1
    {
      step := 1;
    }

    /** Create Account: its click validates, then the form's submit handler runs. */
    method CreateAccount() returns (valid: bool)
      requires Valid() && step == 2
      modifies this`errors, this`isLoading
      ensures Valid()
      ensures errors == AccountErrors(formData.password, formData.confirmPassword, agreedToTerms)
      ensures valid <==>
        PasswordPattern(formData.password) && formData.confirmPassword == formData.password && agreedToTerms
      ensures isLoading == (valid || old(isLoading))
    {
      var _ := ValidateForm();
      valid := Submit();
    }
  }
}
