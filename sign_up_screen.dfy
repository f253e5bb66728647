/** The sign-up form (src/pages/SignUpScreen.js): per-field validators that store the
    value and its error, the password-strength flags, and the submit guard. */
module SignUpScreen {
  import opened JsText
  import opened EmailPatterns
  import opened GlobalSlice

  const MaxFullNameLength := 30
  const MinPasswordLength := 8

  /** A character of `[a-zA-Z ]`. */
  predicate NameChar(c: char) {
    IsAsciiLetter(c) || c == ' '
  }

  /** `NAME_REGEX`, `/^[a-zA-Z ]+$/`. */
  predicate NameRegexAccepts(s: string) {
    s != "" && forall k :: 0 <= k < |s| ==> NameChar(s[k])
  }

  /** The error `validateFullName` shows (`''` for none), checked in this order:
      required, letters and spaces only, at most 30 characters. */
  function FullNameError(text: string): (err: string)
    ensures err == "" <==> NameRegexAccepts(text) && |text| <= MaxFullNameLength
    ensures text == "" ==> err == "Full Name is required"
    ensures text != "" && !NameRegexAccepts(text) ==> err == "Full Name must contain only alphabets and spaces"
    ensures NameRegexAccepts(text) && |text| > MaxFullNameLength ==> err == "Full Name cannot exceed 30 characters"
  {
    if text == "" then "Full Name is required"
    else if !NameRegexAccepts(text) then "Full Name must contain only alphabets and spaces"
    else if |text| > MaxFullNameLength then "Full Name cannot exceed 30 characters"
    else ""
  }

  /** The error `validateEmail` shows: required, then `EMAIL_REGEX`. */
  function EmailError(text: string): (err: string)
    ensures err == "" <==> exists a, b :: AuthEmailSplit(text, a, b)
    ensures text == "" ==> err == "Email is required"
    ensures text != "" && err != "" ==> err == "Invalid email format"
  {
    AuthEmailShape(text);
    if text == "" then "Email is required"
    else if !AuthEmailAccepts(text) then "Invalid email format"
    else ""
  }

  /** A character of `[@$!%*#?&]`. */
  predicate SpecialChar(c: char) {
    c == '@' || c == '$' || c == '!' || c == '%' || c == '*' || c == '#' || c == '?' || c == '&'
  }

  /** A character of `[A-Za-z\d@$!%*#?&]`. */
  predicate PasswordChar(c: char) {
    IsAsciiLetter(c) || IsAsciiDigit(c) || SpecialChar(c)
  }

  predicate HasLower(s: string) { exists k | 0 <= k < |s| :: IsAsciiLower(s[k]) }
  predicate HasUpper(s: string) { exists k | 0 <= k < |s| :: IsAsciiUpper(s[k]) }
  predicate HasDigit(s: string) { exists k | 0 <= k < |s| :: IsAsciiDigit(s[k]) }
  predicate HasSpecial(s: string) { exists k | 0 <= k < |s| :: SpecialChar(s[k]) }

  /** The five flags of `checkPasswordStrength`. */
  datatype Strength = Strength(length: bool, lowercase: bool, uppercase: bool,
                               number: bool, special: bool)

  function CheckPasswordStrength(text: string): (v: Strength)
    ensures v.length <==> |text| >= MinPasswordLength
    ensures v.lowercase <==> HasLower(text)
    ensures v.uppercase <==> HasUpper(text)
    ensures v.number <==> HasDigit(text)
    ensures v.special <==> HasSpecial(text)
  {
    Strength(|text| >= MinPasswordLength, HasLower(text), HasUpper(text), HasDigit(text), HasSpecial(text))
  }

  predicate AllFlags(v: Strength) {
    v.length && v.lowercase && v.uppercase && v.number && v.special
  }

  /** `PASSWORD_REGEX`: one lower-case letter, one upper-case letter, one digit and one
      special character somewhere (the look-aheads), then eight or more characters all
      from the allowed set. The look-aheads' `.*` stops at a line terminator, which the
      allowed set excludes anyway, so "somewhere" is exact here. */
  predicate PasswordRegexAccepts(s: string) {
    && HasLower(s) && HasUpper(s) && HasDigit(s) && HasSpecial(s)
    && |s| >= MinPasswordLength
    && forall k :: 0 <= k < |s| ==> PasswordChar(s[k])
  }

  /** A password the pattern accepts has all five strength flags; a password with all five
      flags is accepted exactly when every character is from the allowed set. */
  lemma RegexAndFlags(s: string)
    ensures PasswordRegexAccepts(s) ==> AllFlags(CheckPasswordStrength(s))
    ensures AllFlags(CheckPasswordStrength(s)) ==>
      (PasswordRegexAccepts(s) <==> forall k :: 0 <= k < |s| ==> PasswordChar(s[k]))
  {
  }

  /** The strength meter shows all five checks met for `Aa1@aaaa~`, which the pattern
      refuses because of the `~`. */
  lemma FlagsDoNotImplyRegex()
    ensures AllFlags(CheckPasswordStrength("Aa1@aaaa~"))
    ensures !PasswordRegexAccepts("Aa1@aaaa~")
  {
    var w := "Aa1@aaaa~";
    assert IsAsciiLower(w[1]) && IsAsciiUpper(w[0]) && IsAsciiDigit(w[2]) && SpecialChar(w[3]);
    assert !PasswordChar(w[8]);
  }

  /** The error `validatePassword` shows: required, then `PASSWORD_REGEX`. */
  function PasswordError(text: string): (err: string)
    ensures err == "" <==> PasswordRegexAccepts(text)
    ensures text == "" ==> err == "Password is required"
    ensures text != "" && err != "" ==> err == "Password does not meet requirements"
  {
    if text == "" then "Password is required"
    else if !PasswordRegexAccepts(text) then "Password does not meet requirements"
    else ""
  }

  /** The error `validateConfirmPassword` shows: required, then equal to the password. */
  function ConfirmError(text: string, password: string): (err: string)
    ensures err == "" <==> text != "" && text == password
    ensures text == "" ==> err == "Confirm Password is required"
    ensures text != "" && text != password ==> err == "Passwords do not match"
  {
    if text == "" then "Confirm Password is required"
    else if text != password then "Passwords do not match"
    else ""
  }

  function TermsError(accepted: bool): (err: string)
    ensures err == "" <==> accepted
  {
    if !accepted then "You must accept the terms" else ""
  }

  datatype SignUpPayload = SignUpPayload(name: string, email: string, password: string)

  /** How the sign-up request ends: created, refused with status 409 (the e-mail is
      registered) followed by an OTP request that succeeded or failed, or any other
      failure. */
  datatype SignUpOutcome = Created | AlreadyRegistered(otpSent: bool) | Rejected

  /** The verification modal stays open after a created account (whether or not the
      OTP was sent) and after a 409 whose OTP was sent; it closes otherwise. */
  predicate KeepsModal(o: SignUpOutcome) {
    o.Created? || (o.AlreadyRegistered? && o.otpSent)
  }

  datatype FormState = FormState(
    fullName: string, email: string, password: string, confirmPassword: string,
    termsAccepted: bool, fullNameError: string, emailError: string, passwordError: string,
    confirmPasswordError: string, termsError: string, validations: Strength,
    showVerifyModal: bool, requests: seq<SignUpPayload>)

  /** `isFormComplete`: every field filled, the terms accepted, no error shown. */
  predicate IsFormComplete(f: FormState) {
    && f.fullName != "" && f.email != "" && f.password != "" && f.confirmPassword != ""
    && f.termsAccepted
    && f.fullNameError == "" && f.emailError == "" && f.passwordError == ""
    && f.confirmPasswordError == ""
  }

  /** What the validators keep true: a filled field shows its own error, the confirmation
      against the current password, and accepted terms show none. */
  predicate Consistent(f: FormState) {
    && (f.fullName != "" ==> f.fullNameError == FullNameError(f.fullName))
    && (f.email != "" ==> f.emailError == EmailError(f.email))
    && (f.password != "" ==> f.passwordError == PasswordError(f.password))
    && (f.confirmPassword != "" ==> f.confirmPasswordError == ConfirmError(f.confirmPassword, f.password))
    && (f.termsAccepted ==> f.termsError == "")
  }

  /** A complete form whose errors are those of its fields holds a valid name, an e-mail
      of the form `x@y`, a password the pattern accepts with all five strength flags, and
      a matching confirmation. */
  lemma CompleteFormIsValid(f: FormState)
    requires Consistent(f) && IsFormComplete(f)
    ensures NameRegexAccepts(f.fullName) && |f.fullName| <= MaxFullNameLength
    ensures exists a, b :: AuthEmailSplit(f.email, a, b)
    ensures PasswordRegexAccepts(f.password) && AllFlags(CheckPasswordStrength(f.password))
    ensures f.confirmPassword == f.password
  {
    RegexAndFlags(f.password);
  }

  /** The Sign Up button's `disabled`. */
  predicate SignUpDisabled(f: FormState, isSignUpLoading: bool, isSendingOtp: bool) {
    !IsFormComplete(f) || isSignUpLoading || isSendingOtp
  }

  /** An enabled Sign Up button on a form whose errors are its fields' own means no
      request is in flight and every field holds valid data; an error shown on any
      field disables the button. */
  lemma EnabledSignUpIsValid(f: FormState, isSignUpLoading: bool, isSendingOtp: bool)
    requires Consistent(f)
    ensures !SignUpDisabled(f, isSignUpLoading, isSendingOtp) ==>
      && !isSignUpLoading && !isSendingOtp
      && NameRegexAccepts(f.fullName) && (exists a, b :: AuthEmailSplit(f.email, a, b))
      && PasswordRegexAccepts(f.password) && f.confirmPassword == f.password
    ensures f.emailError != "" || f.passwordError != "" ==>
      SignUpDisabled(f, isSignUpLoading, isSendingOtp)
  {
    if !SignUpDisabled(f, isSignUpLoading, isSendingOtp) {
      CompleteFormIsValid(f);
    }
  }

  /** `validatePassword` keeps the form consistent: the password's own error is its
      validator's, and a filled confirmation is checked again against the new password. */
  lemma PasswordUpdateKeepsConsistent(f: FormState, text: string)
    requires Consistent(f)
    ensures Consistent(f.(password := text, validations := CheckPasswordStrength(text),
      passwordError := PasswordError(text),
      confirmPasswordError := if f.confirmPassword != "" then ConfirmError(f.confirmPassword, text)
                              else f.confirmPasswordError))
  {
  }

  /** `handleSignUp`'s revalidation of an incomplete form: every validator run again on
      the field's current value. */
  function Revalidated(f: FormState): FormState {
    f.(fullNameError := FullNameError(f.fullName), emailError := EmailError(f.email),
       passwordError := PasswordError(f.password), validations := CheckPasswordStrength(f.password),
       confirmPasswordError := ConfirmError(f.confirmPassword, f.password),
       termsError := TermsError(f.termsAccepted))
  }

  class SignUpForm {
    var fullName: string
    var email: string
    var password: string
    var confirmPassword: string
    var termsAccepted: bool
    var fullNameError: string
    var emailError: string
    var passwordError: string
    var confirmPasswordError: string
    var termsError: string
    var validations: Strength
    var showVerifyModal: bool
    /** The sign-up requests sent. */
    var requests: seq<SignUpPayload>

    function Local(): FormState
      reads this
    {
      FormState(fullName, email, password, confirmPassword, termsAccepted, fullNameError,
                emailError, passwordError, confirmPasswordError, termsError, validations,
                showVerifyModal, requests)
    }

    ghost predicate Valid()
      reads this
    {
      Consistent(Local())
    }

    constructor ()
      ensures Valid()
      ensures Local() == FormState("", "", "", "", false, "", "", "", "", "",
                                   Strength(false, false, false, false, false), false, [])
    {
      fullName, email, password, confirmPassword, termsAccepted := "", "", "", "", false;
      fullNameError, emailError, passwordError, confirmPasswordError, termsError := "", "", "", "", "";
      validations := Strength(false, false, false, false, false);
      showVerifyModal, requests := false, [];
    }

    method ValidateFullName(text: string)
      requires Valid()
      modifies this
      ensures Valid()
      ensures Local() == old(Local()).(fullName := text, fullNameError := FullNameError(text))
    {
      fullName := text;
      fullNameError := FullNameError(text);
    }

    method ValidateEmail(text: string)
      requires Valid()
      modifies this
      ensures Valid()
      ensures Local() == old(Local()).(email := text, emailError := EmailError(text))
    {
      email := text;
      emailError := EmailError(text);
    }

    /** `validateConfirmPassword(text, pass)`; the form passes its current password. */
    method ValidateConfirmPassword(text: string, pass: string)
      modifies this
      ensures Local() == old(Local()).(confirmPassword := text, confirmPasswordError := ConfirmError(text, pass))
    {
      confirmPassword := text;
      confirmPasswordError := ConfirmError(text, pass);
    }

    /** `validatePassword`: stores the password, its flags and its error, and checks an
        already entered confirmation against the new password. */
    method ValidatePassword(text: string)
      requires Valid()
      modifies this
      ensures Valid()
      ensures Local() == old(Local()).(
        password := text, validations := CheckPasswordStrength(text), passwordError := PasswordError(text),
        confirmPasswordError := if old(confirmPassword) != "" then ConfirmError(old(confirmPassword), text)
                                else old(confirmPasswordError))
    {
      PasswordUpdateKeepsConsistent(Local(), text);
      password := text;
      validations := CheckPasswordStrength(text);
      passwordError := PasswordError(text);
      if confirmPassword != "" {
        ValidateConfirmPassword(confirmPassword, text);
      }
    }

    method ValidateTerms(value: bool)
      requires Valid()
      modifies this
      ensures Valid()
      ensures Local() == old(Local()).(termsAccepted := value, termsError := TermsError(value))
    {
      termsAccepted := value;
      termsError := TermsError(value);
    }

    /** `handleSignUp`: an incomplete form is validated again and nothing is sent; a
        complete one stores the e-mail and password, opens the verification modal and
        sends `{name, email, password}`, which are then valid. */
    method HandleSignUp(store: Store)
      requires Valid()
      modifies this, store
      ensures Valid()
      ensures !IsFormComplete(old(Local())) ==>
        Local() == Revalidated(old(Local())) && store.Snapshot() == old(store.Snapshot())
      ensures IsFormComplete(old(Local())) ==>
        && store.Snapshot() == old(store.Snapshot()).(email := old(email), password := old(password))
        && Local() == old(Local()).(showVerifyModal := true,
             requests := old(requests) + [SignUpPayload(old(fullName), old(email), old(password))])
        && NameRegexAccepts(old(fullName)) && PasswordRegexAccepts(old(password))
        && old(confirmPassword) == old(password)
    {
      if !IsFormComplete(Local()) {
        ValidateFullName(fullName);
        ValidateEmail(email);
        ValidatePassword(password);
        ValidateConfirmPassword(confirmPassword, password);
        ValidateTerms(termsAccepted);
        return;
      }
      CompleteFormIsValid(Local());
      store.SetEmail(email);
      store.SetPassword(password);
      showVerifyModal := true;
      requests := requests + [SignUpPayload(fullName, email, password)];
    }

    /** The end of `handleSignUp`'s request chain: only the modal can change. */
    method SignUpSettled(o: SignUpOutcome)
      requires Valid()
      modifies this
      ensures Valid()
      ensures Local() == old(Local()).(showVerifyModal := KeepsModal(o) && old(showVerifyModal))
    {
      if !KeepsModal(o) {
        showVerifyModal := false;
      }
    }

    /** `handleCloseVerifyModal`. */
    method CloseVerifyModal()
      requires Valid()
      modifies this
      ensures Valid()
      ensures Local() == old(Local()).(showVerifyModal := false)
    {
      showVerifyModal := false;
    }
  }
}
