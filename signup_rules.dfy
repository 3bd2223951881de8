/**
 * The sign-up validators: the character tests behind the page's regular
 * expressions, and the error maps `validateForm`, `validateLawFirm` and
 * `validateLawyer` collect.
 *
 * Each regular expression is given twice: as a ghost reading of its
 * structure (`...Pattern`) and as the character test the model runs
 * (`...Test`), with a lemma that the two agree. The blank checks
 * `!x.trim()` are written `IsBlank(x)`, which `Text.TrimEmptyIffBlank`
 * shows to be the same test.
 */
module SignUpRules {
  import opened Text

  const PASSWORD_REQUIRED := "Password is required"
  const PASSWORD_TOO_SHORT := "Password must be at least 8 characters"
  const PASSWORD_WEAK :=
    "Password must be at least 8 characters and include uppercase, lowercase, number, and special character"
  const CONFIRM_REQUIRED := "Please confirm your password"
  const PASSWORDS_DIFFER := "Passwords do not match"
  const TERMS_REQUIRED := "You must agree to the terms and conditions"
  const FIRM_NAME_REQUIRED := "Law Firm name is required"
  const FIRM_NAME_INVALID :=
    "Name must be 2–100 characters and may include letters, numbers, spaces, and & . , ' ( ) -"
  const ADMIN_NAME_REQUIRED := "Admin name is required"
  const ADMIN_NAME_INVALID := "Admin name may contain only letters, spaces, or hyphens"
  const LAWYER_NAME_REQUIRED := "Full name is required"
  const LAWYER_NAME_INVALID := "Name may contain only letters, spaces, or hyphens"
  const EMAIL_REQUIRED := "Email is required"
  const EMAIL_INVALID := "Please enter a valid email address"

  const MIN_PASSWORD_LENGTH := 8
  const MIN_FIRM_NAME_LENGTH := 2
  const MAX_FIRM_NAME_LENGTH := 100

  predicate IsAsciiLower(c: char) { 'a' <= c <= 'z' }
  predicate IsAsciiUpper(c: char) { 'A' <= c <= 'Z' }
  predicate IsAsciiLetter(c: char) { IsAsciiLower(c) || IsAsciiUpper(c) }
  predicate IsPasswordSpecial(c: char) {
    c == '@' || c == '$' || c == '!' || c == '%' || c == '*' || c == '?' || c == '&'
  }

  // ---------------------------------------------------------------------
  // Password: /^(?=.*[a-z])(?=.*[A-Z])(?=.*\d)(?=.*[@$!%*?&]).{8,}$/
  // ---------------------------------------------------------------------

  datatype CharClass = Lower | Upper | Digit | Special

  predicate InClass(c: char, cls: CharClass) {
    match cls
    case Lower => IsAsciiLower(c)
    case Upper => IsAsciiUpper(c)
    case Digit => IsDigit(c)
    case Special => IsPasswordSpecial(c)
  }

  /** `(?=.*[cls])` at the start: a character of the class before any line terminator. */
  ghost predicate Lookahead(p: string, cls: CharClass) {
    exists i | 0 <= i < |p| :: InClass(p[i], cls) && forall k | 0 <= k < i :: !IsLineTerminator(p[k])
  }

  /** The whole pattern: the four lookaheads, then `.{8,}$`, eight or more non-terminators to the end. */
  ghost predicate PasswordPattern(p: string) {
    && Lookahead(p, Lower) && Lookahead(p, Upper) && Lookahead(p, Digit) && Lookahead(p, Special)
    && |p| >= MIN_PASSWORD_LENGTH && forall k | 0 <= k < |p| :: !IsLineTerminator(p[k])
  }

  predicate HasClass(p: string, cls: CharClass) {
    exists i | 0 <= i < |p| :: InClass(p[i], cls)
  }

  /** The character test: eight characters, one of each class, no line terminator. */
  predicate StrongPassword(p: string) {
    && |p| >= MIN_PASSWORD_LENGTH
    && HasClass(p, Lower) && HasClass(p, Upper) && HasClass(p, Digit) && HasClass(p, Special)
    && forall k | 0 <= k < |p| :: !IsLineTerminator(p[k])
  }

  lemma StrongPasswordCorrect(p: string)
    ensures StrongPassword(p) <==> PasswordPattern(p)
  {
    if StrongPassword(p) {
      forall cls: CharClass ensures Lookahead(p, cls) {
        var i :| 0 <= i < |p| && InClass(p[i], cls);
        assert forall k | 0 <= k < i :: !IsLineTerminator(p[k]);
      }
    }
    if PasswordPattern(p) {
      forall cls: CharClass ensures HasClass(p, cls) {
        var i :| 0 <= i < |p| && InClass(p[i], cls) && forall k | 0 <= k < i :: !IsLineTerminator(p[k]);
      }
    }
  }

  // ---------------------------------------------------------------------
  // Law-firm name: /^[A-Za-z0-9&.,'()\- ]{2,100}$/
  // ---------------------------------------------------------------------

  predicate IsFirmNameChar(c: char) {
    IsAsciiLetter(c) || IsDigit(c)
    || c == '&' || c == '.' || c == ',' || c == '\'' || c == '(' || c == ')' || c == '-' || c == ' '
  }

  predicate FirmNameTest(s: string) {
    MIN_FIRM_NAME_LENGTH <= |s| <= MAX_FIRM_NAME_LENGTH && forall i | 0 <= i < |s| :: IsFirmNameChar(s[i])
  }

  // ---------------------------------------------------------------------
  // Person name: /^[A-Za-z]+(?:[ -][A-Za-z]+)*$/
  // ---------------------------------------------------------------------

  predicate IsNameSeparator(c: char) { c == ' ' || c == '-' }

  predicate LetterRun(s: string) {
    |s| > 0 && forall i | 0 <= i < |s| :: IsAsciiLetter(s[i])
  }

  /** The pattern's structure: a word, or a word, one separator, and a name again. */
  ghost predicate NamePattern(s: string)
    decreases |s|
  {
    || LetterRun(s)
    || exists i | 0 < i < |s| - 1 :: LetterRun(s[..i]) && IsNameSeparator(s[i]) && NamePattern(s[i + 1..])
  }

  /** The character test: letters, where a separator is neither first nor last and is followed by a letter. */
  predicate PersonNameTest(s: string) {
    |s| > 0 && forall i | 0 <= i < |s| :: NameCharAt(s, i)
  }

  /** Position `i` holds a letter, or a separator that is not first and is followed by a letter. */
  predicate NameCharAt(s: string, i: int)
    requires 0 <= i < |s|
  {
    || IsAsciiLetter(s[i])
    || (IsNameSeparator(s[i]) && 0 < i < |s| - 1 && IsAsciiLetter(s[i + 1]))
  }

  /** The number of letters `s` starts with. */
  function LetterPrefix(s: string): (n: nat)
    ensures n <= |s|
    ensures forall k | 0 <= k < n :: IsAsciiLetter(s[k])
    ensures n < |s| ==> !IsAsciiLetter(s[n])
  {
    if |s| > 0 && IsAsciiLetter(s[0]) then 1 + LetterPrefix(s[1..]) else 0
  }

  lemma {:induction false} PersonNameTestCorrect(s: string)
    ensures PersonNameTest(s) <==> NamePattern(s)
    decreases |s|
  {
    if PersonNameTest(s) {
      var i := LetterPrefix(s);
      if i < |s| {
        var rest := s[i + 1..];
        assert NameCharAt(s, i);
        assert LetterRun(s[..i]);
        forall j | 0 <= j < |rest|
          ensures NameCharAt(rest, j)
        {
          assert NameCharAt(s, i + 1 + j);
          assert rest[j] == s[i + 1 + j];
          if j + 1 < |rest| {
            assert rest[j + 1] == s[i + 2 + j];
          }
        }
        PersonNameTestCorrect(rest);
      }
    }
    if NamePattern(s) && !LetterRun(s) {
      var i :| 0 < i < |s| - 1 && LetterRun(s[..i]) && IsNameSeparator(s[i]) && NamePattern(s[i + 1..]);
      var rest := s[i + 1..];
      PersonNameTestCorrect(rest);
      assert NameCharAt(rest, 0);
      forall j | 0 <= j < |s|
        ensures NameCharAt(s, j)
      {
        if j < i {
          assert s[j] == s[..i][j];
        } else if j > i {
          assert NameCharAt(rest, j - i - 1);
          assert s[j] == rest[j - i - 1];
          if j + 1 < |s| {
            assert s[j + 1] == rest[j - i];
          }
        }
      }
    }
  }

  // ---------------------------------------------------------------------
  // E-mail: /^[^\s@]+@[^\s@]+\.[^\s@]+$/
  // ---------------------------------------------------------------------

  predicate IsPlainEmailChar(c: char) {
    !IsJsSpace(c) && c != '@'
  }

  predicate PlainRun(s: string, i: int, j: int) {
    0 <= i < j <= |s| && forall k | i <= k < j :: IsPlainEmailChar(s[k])
  }

  /** The pattern's structure, with the '@' at `a` and the chosen '.' at `b`. */
  ghost predicate StrictMatch(s: string, a: int, b: int) {
    && PlainRun(s, 0, a) && a < |s| && s[a] == '@'
    && PlainRun(s, a + 1, b) && b < |s| && s[b] == '.'
    && PlainRun(s, b + 1, |s|)
  }

  ghost predicate StrictEmailPattern(s: string) {
    exists a, b :: StrictMatch(s, a, b)
  }

  /**
   * The character test: no white space, exactly one '@' with something
   * before it, and a '.' after it that is neither the first character of
   * the domain nor the last character of the string.
   */
  predicate StrictEmailTest(s: string) {
    exists a | 0 < a < |s| ::
      && s[a] == '@'
      && (forall k | 0 <= k < |s| :: !IsJsSpace(s[k]) && (s[k] == '@' ==> k == a))
      && exists b | a + 1 < b < |s| - 1 :: s[b] == '.'
  }

  lemma StrictEmailTestCorrect(s: string)
    ensures StrictEmailTest(s) <==> StrictEmailPattern(s)
  {
    if StrictEmailTest(s) {
      var a :| 0 < a < |s| && s[a] == '@'
        && (forall k | 0 <= k < |s| :: !IsJsSpace(s[k]) && (s[k] == '@' ==> k == a))
        && exists b | a + 1 < b < |s| - 1 :: s[b] == '.';
      var b :| a + 1 < b < |s| - 1 && s[b] == '.';
      assert StrictMatch(s, a, b);
    }
    if StrictEmailPattern(s) {
      var a, b :| StrictMatch(s, a, b);
      forall k | 0 <= k < |s|
        ensures !IsJsSpace(s[k]) && (s[k] == '@' ==> k == a)
      {
        if k != a && k != b {
          assert IsPlainEmailChar(s[k]);
        }
      }
    }
  }

  // ---------------------------------------------------------------------
  // The error maps, one field at a time
  // ---------------------------------------------------------------------

  function PasswordError(password: string): (r: map<string, string>)
    ensures r.Keys <= {"password"}
    ensures "password" in r <==> !PasswordPattern(password)
    ensures "password" in r ==> (r["password"] ==
      if password == "" then PASSWORD_REQUIRED
      else if |password| < MIN_PASSWORD_LENGTH then PASSWORD_TOO_SHORT
      else PASSWORD_WEAK)
  {
    StrongPasswordCorrect(password);
    if password == "" then map["password" := PASSWORD_REQUIRED]
    else if |password| < MIN_PASSWORD_LENGTH then map["password" := PASSWORD_TOO_SHORT]
    else if !StrongPassword(password) then map["password" := PASSWORD_WEAK]
    else map[]
  }

  function ConfirmError(password: string, confirmPassword: string): (r: map<string, string>)
    ensures r.Keys <= {"confirmPassword"}
    ensures "confirmPassword" in r <==> confirmPassword == "" || confirmPassword != password
    ensures "confirmPassword" in r ==> (r["confirmPassword"] ==
      if confirmPassword == "" then CONFIRM_REQUIRED else PASSWORDS_DIFFER)
  {
    if confirmPassword == "" then map["confirmPassword" := CONFIRM_REQUIRED]
    else if password != confirmPassword then map["confirmPassword" := PASSWORDS_DIFFER]
    else map[]
  }

  function TermsError(agreedToTerms: bool): (r: map<string, string>)
    ensures r.Keys <= {"terms"}
    ensures "terms" in r <==> !agreedToTerms
    ensures "terms" in r ==> r["terms"] == TERMS_REQUIRED
  {
    if !agreedToTerms then map["terms" := TERMS_REQUIRED] else map[]
  }

  predicate ValidFirmName(name: string) { !IsBlank(name) && FirmNameTest(name) }
  ghost predicate ValidAdminName(name: string) { !IsBlank(name) && NamePattern(name) }
  ghost predicate ValidLawyerName(name: string) { !IsBlank(name) && NamePattern(Trim(name)) }
  ghost predicate ValidEmail(email: string) { !IsBlank(email) && StrictEmailPattern(email) }

  /** The firm name is tested as typed: surrounding spaces count towards its length. */
  function FirmNameError(lawFirmName: string): (r: map<string, string>)
    ensures r.Keys <= {"lawFirmName"}
    ensures "lawFirmName" !in r <==> ValidFirmName(lawFirmName)
    ensures "lawFirmName" in r ==> (r["lawFirmName"] ==
      if IsBlank(lawFirmName) then FIRM_NAME_REQUIRED else FIRM_NAME_INVALID)
  {
    if IsBlank(lawFirmName) then map["lawFirmName" := FIRM_NAME_REQUIRED]
    else if !FirmNameTest(lawFirmName) then map["lawFirmName" := FIRM_NAME_INVALID]
    else map[]
  }

  /** The admin name is tested as typed, without trimming. */
  function AdminNameError(adminName: string): (r: map<string, string>)
    ensures r.Keys <= {"adminName"}
    ensures "adminName" !in r <==> ValidAdminName(adminName)
    ensures "adminName" in r ==> (r["adminName"] ==
      if IsBlank(adminName) then ADMIN_NAME_REQUIRED else ADMIN_NAME_INVALID)
  {
    PersonNameTestCorrect(adminName);
    if IsBlank(adminName) then map["adminName" := ADMIN_NAME_REQUIRED]
    else if !PersonNameTest(adminName) then map["adminName" := ADMIN_NAME_INVALID]
    else map[]
  }

  /** The lawyer's name is trimmed before the pattern test. */
  function LawyerNameError(lawyerName: string): (r: map<string, string>)
    ensures r.Keys <= {"lawyerName"}
    ensures "lawyerName" !in r <==> ValidLawyerName(lawyerName)
    ensures "lawyerName" in r ==> (r["lawyerName"] ==
      if IsBlank(lawyerName) then LAWYER_NAME_REQUIRED else LAWYER_NAME_INVALID)
  {
    PersonNameTestCorrect(Trim(lawyerName));
    if IsBlank(lawyerName) then map["lawyerName" := LAWYER_NAME_REQUIRED]
    else if !PersonNameTest(Trim(lawyerName)) then map["lawyerName" := LAWYER_NAME_INVALID]
    else map[]
  }

  /** The e-mail check shared by `validateLawFirm` and `validateLawyer`. */
  function EmailError(email: string): (r: map<string, string>)
    ensures r.Keys <= {"email"}
    ensures "email" !in r <==> !IsBlank(email) && StrictEmailTest(email)
    ensures "email" in r ==> r["email"] == if IsBlank(email) then EMAIL_REQUIRED else EMAIL_INVALID
  {
    if IsBlank(email) then map["email" := EMAIL_REQUIRED]
    else if !StrictEmailTest(email) then map["email" := EMAIL_INVALID]
    else map[]
  }

  // ---------------------------------------------------------------------
  // The three validators
  // ---------------------------------------------------------------------

  /** A merge of error maps is empty exactly when every part is. */
  lemma UnionEmpty(a: map<string, string>, b: map<string, string>, c: map<string, string>)
    ensures a + b + c == map[] <==> a == map[] && b == map[] && c == map[]
  {
    if a + b + c == map[] {
      assert a.Keys <= (a + b + c).Keys && b.Keys <= (a + b + c).Keys;
    }
  }

  lemma SingleKeyEmpty(m: map<string, string>, k: string)
    requires m.Keys <= {k}
    ensures m == map[] <==> k !in m
  {
    if k !in m {
      assert m.Keys == {};
    }
  }

  /** `validateForm`: the password, its confirmation and the terms box. */
  function AccountErrors(password: string, confirmPassword: string, agreedToTerms: bool): (errors: map<string, string>)
    ensures errors.Keys <= {"password", "confirmPassword", "terms"}
  {
    PasswordError(password) + ConfirmError(password, confirmPassword) + TermsError(agreedToTerms)
  }

  /** `validateLawFirm`: the firm name, the admin name and the e-mail address. */
  function LawFirmErrors(lawFirmName: string, adminName: string, email: string): (errors: map<string, string>)
    ensures errors.Keys <= {"lawFirmName", "adminName", "email"}
  {
    FirmNameError(lawFirmName) + AdminNameError(adminName) + EmailError(email)
  }

  /** `validateLawyer`: the lawyer's name and the e-mail address. */
  function LawyerErrors(lawyerName: string, email: string): (errors: map<string, string>)
    ensures errors.Keys <= {"lawyerName", "email"}
  {
    LawyerNameError(lawyerName) + EmailError(email)
  }

  /** The account step passes exactly with a strong password, a matching confirmation, and the terms accepted. */
  lemma AccountValidIff(password: string, confirmPassword: string, agreedToTerms: bool)
    ensures AccountErrors(password, confirmPassword, agreedToTerms) == map[] <==>
      PasswordPattern(password) && confirmPassword == password && agreedToTerms
  {
    var a, b, c := PasswordError(password), ConfirmError(password, confirmPassword), TermsError(agreedToTerms);
    UnionEmpty(a, b, c);
    SingleKeyEmpty(a, "password");
    SingleKeyEmpty(b, "confirmPassword");
    SingleKeyEmpty(c, "terms");
  }

  /** A law firm's details pass exactly when firm name, admin name and e-mail address are all well formed. */
  lemma LawFirmValidIff(lawFirmName: string, adminName: string, email: string)
    ensures LawFirmErrors(lawFirmName, adminName, email) == map[] <==>
      ValidFirmName(lawFirmName) && ValidAdminName(adminName) && ValidEmail(email)
  {
    var a, b, c := FirmNameError(lawFirmName), AdminNameError(adminName), EmailError(email);
    UnionEmpty(a, b, c);
    SingleKeyEmpty(a, "lawFirmName");
    SingleKeyEmpty(b, "adminName");
    SingleKeyEmpty(c, "email");
    StrictEmailTestCorrect(email);
  }

  /** A lawyer's details pass exactly when the trimmed name and the e-mail address are well formed. */
  lemma LawyerValidIff(lawyerName: string, email: string)
    ensures LawyerErrors(lawyerName, email) == map[] <==> ValidLawyerName(lawyerName) && ValidEmail(email)
  {
    var a, b := LawyerNameError(lawyerName), EmailError(email);
    UnionEmpty(a, b, map[]);
    SingleKeyEmpty(a, "lawyerName");
    SingleKeyEmpty(b, "email");
    StrictEmailTestCorrect(email);
    assert a + b + map[] == a + b;
  }

  // ---------------------------------------------------------------------
  // Consequences
  // ---------------------------------------------------------------------

  /** A name pattern admits no white space at either end. */
  lemma {:induction false} NamePatternHasNoOuterSpace(s: string)
    requires NamePattern(s)
    ensures !IsJsSpace(s[0]) && !IsJsSpace(s[|s| - 1])
  {
    PersonNameTestCorrect(s);
    assert NameCharAt(s, 0) && NameCharAt(s, |s| - 1);
  }

  /** A leading space makes an admin name invalid. */
  lemma PaddedAdminNameRefused()
    ensures !NamePattern(" Ann")
  {
    PersonNameTestCorrect(" Ann");
    assert !IsAsciiLetter(" Ann"[0]);
  }

  lemma TrimPaddedAnn()
    ensures Trim(" Ann") == "Ann"
  {
    assert !IsJsSpace('A') && !IsJsSpace('n');
    assert TrimStart("Ann") == "Ann";
    assert " Ann"[1..] == "Ann";
    assert TrimStart(" Ann") == "Ann";
    assert TrimEnd("Ann") == "Ann";
  }

  /** The lawyer's name is trimmed first, so the same padded name passes there. */
  lemma PaddedLawyerNameAccepted()
    ensures NamePattern(Trim(" Ann"))
  {
    TrimPaddedAnn();
    assert LetterRun("Ann");
  }

  /** A strict e-mail address has exactly one '@', so "a@b@c.d" is refused. */
  lemma TwoAtSignsRefused()
    ensures !StrictEmailPattern("a@b@c.d")
  {
    var s := "a@b@c.d";
    StrictEmailTestCorrect(s);
    assert s[1] == '@' && s[3] == '@';
  }
}
