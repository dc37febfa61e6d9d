/** The login form: the two validators, the keystroke handler that re-checks one field,
    and the submit handler that steps `isSubmitting` and `submissionStatus` around the
    sign-in request. The request itself is a call into the authentication service, so
    its outcome is a parameter. */
module LoginForm {
  import opened Text
  import opened Patterns
  import SignupForm

  /** `validateEmail`: whitespace-only is "required"; otherwise the raw value must match
      the email expression. */
  function ValidateEmail(email: string): string
  {
    if Trim(email) == "" then "Email required"
    else if !IsEmail(email) then "Invalid email format"
    else ""
  }

  /** The three answers of `validateEmail` and the inputs that produce each. */
  lemma ValidateEmailMeaning(email: string)
    ensures ValidateEmail(email) == "Email required" <==> AllWhitespace(email)
    ensures ValidateEmail(email) == "Invalid email format" <==> !AllWhitespace(email) && !EmailPattern(email)
    ensures ValidateEmail(email) == "" <==> EmailPattern(email)
  {
    TrimEmptyIffAllWhitespace(email);
    IsEmailMatchesPattern(email);
    EmailPatternNotBlank(email);
  }

  /** `validatePassword`: whitespace-only is "required"; otherwise the untrimmed length
      must be at least 8. */
  function ValidatePassword(password: string): string
  {
    if Trim(password) == "" then "Password required"
    else if |password| < 8 then "Password too short"
    else ""
  }

  /** The three answers of `validatePassword` and the inputs that produce each. */
  lemma ValidatePasswordMeaning(password: string)
    ensures ValidatePassword(password) == "Password required" <==> AllWhitespace(password)
    ensures ValidatePassword(password) == "Password too short" <==> !AllWhitespace(password) && |password| < 8
    ensures ValidatePassword(password) == "" <==> !AllWhitespace(password) && |password| >= 8
  {
    TrimEmptyIffAllWhitespace(password);
  }

  /** Eight spaces are long enough but still "required": the blank test comes first. */
  lemma BlankPasswordIsRequired()
    ensures ValidatePassword("        ") == "Password required"
  {
    assert AllWhitespace("        ") by {
      assert IsWhitespace(' ');
    }
    ValidatePasswordMeaning("        ");
  }

  /** The login and sign-up forms accept exactly the same email addresses. */
  lemma EmailRulesAgree(email: string)
    ensures ValidateEmail(email) == "" <==> SignupForm.EmailError(email) == ""
  {
    ValidateEmailMeaning(email);
    SignupForm.EmailErrorMeaning(email);
  }

  /** Every password the sign-up form accepts passes the login rule. */
  lemma SignupPasswordPassesLogin(password: string)
    requires SignupForm.PasswordError(password) == ""
    ensures ValidatePassword(password) == ""
  {
    var i :| 0 <= i < |password| && IsAsciiUpper(password[i]);
    assert !IsWhitespace(password[i]);
    ValidatePasswordMeaning(password);
  }

  datatype SubmissionStatus = Idle | Success | Error

  /** The `name` of the input an event comes from. */
  datatype InputName = EmailInput | PasswordInput

  /** `!emailError && !passwordError`: the request is sent only for a form both rules accept. */
  predicate CanSignIn(email: string, password: string)
  {
    ValidateEmail(email) == "" && ValidatePassword(password) == ""
  }

  /** The status a complete submit ends in, given how the request would settle. */
  function FinalStatus(email: string, password: string, signinSucceeds: bool): SubmissionStatus
  {
    if CanSignIn(email, password) && signinSucceeds then Success else Error
  }

  /** A submit ends in success exactly for a well-formed address, a non-blank password of
      at least 8 characters and a request that succeeds. */
  lemma FinalStatusMeaning(email: string, password: string, signinSucceeds: bool)
    ensures FinalStatus(email, password, signinSucceeds) == Success <==>
      EmailPattern(email) && !AllWhitespace(password) && |password| >= 8 && signinSucceeds
    ensures !CanSignIn(email, password) ==> FinalStatus(email, password, signinSucceeds) == Error
  {
    ValidateEmailMeaning(email);
    ValidatePasswordMeaning(password);
  }

  /** The login component's state. */
  class Login {
    var email: string
    var password: string
    var emailError: string
    var passwordError: string
    var isSubmitting: bool
    var status: SubmissionStatus

    constructor ()
      ensures email == "" && password == ""
      ensures emailError == "" && passwordError == ""
      ensures !isSubmitting && status == Idle
    {
      email, password := "", "";
      emailError, passwordError := "", "";
      isSubmitting, status := false, Idle;
    }

    /** `handleInputChange`: stores the value and recomputes that field's error only,
        with the validator the field name selects. */
    method HandleInputChange(name: InputName, value: string)
      modifies this
      ensures name == EmailInput ==> email == value && emailError == ValidateEmail(value)
      ensures name == EmailInput ==> password == old(password) && passwordError == old(passwordError)
      ensures name == PasswordInput ==> password == value && passwordError == ValidatePassword(value)
      ensures name == PasswordInput ==> email == old(email) && emailError == old(emailError)
      ensures isSubmitting == old(isSubmitting) && status == old(status)
    {
      if name == EmailInput {
        email := value;
        emailError := ValidateEmail(value);
      } else {
        password := value;
        passwordError := ValidatePassword(value);
      }
    }

    /** `handleSubmit` up to the `await`: both rules are re-run and recorded; the request is
        sent only when both pass, otherwise the submit ends at once with status error. The
        submit button is disabled while a request is pending. */
    method BeginSubmit() returns (signinCalled: bool)
      requires !isSubmitting
      modifies this
      ensures email == old(email) && password == old(password)
      ensures emailError == ValidateEmail(email) && passwordError == ValidatePassword(password)
      ensures signinCalled <==> CanSignIn(email, password)
      ensures signinCalled ==> isSubmitting && status == Idle
      ensures !signinCalled ==> !isSubmitting && status == Error
    {
      isSubmitting := true;
      status := Idle;
      var eError := ValidateEmail(email);
      var pError := ValidatePassword(password);
      emailError, passwordError := eError, pError;
      if eError == "" && pError == "" {
        signinCalled := true;
      } else {
        isSubmitting := false;
        status := Error;
        signinCalled := false;
      }
    }

    /** The `try`/`catch`/`finally` after the request settles. */
    method SigninSettled(succeeded: bool)
      requires isSubmitting
      modifies this
      ensures status == (if succeeded then Success else Error)
      ensures !isSubmitting
      ensures email == old(email) && password == old(password)
      ensures emailError == old(emailError) && passwordError == old(passwordError)
    {
      if succeeded {
        status := Success;
      } else {
        status := Error;
      }
      isSubmitting := false;
    }

    /** A whole submit with no event in between, the request settling as `signinSucceeds`. */
    method HandleSubmit(signinSucceeds: bool) returns (signinCalled: bool)
      requires !isSubmitting
      modifies this
      ensures email == old(email) && password == old(password)
      ensures emailError == ValidateEmail(email) && passwordError == ValidatePassword(password)
      ensures signinCalled <==> CanSignIn(email, password)
      ensures status == FinalStatus(email, password, signinSucceeds)
      ensures !isSubmitting
    {
      signinCalled := BeginSubmit();
      if signinCalled {
        SigninSettled(signinSucceeds);
      }
    }
  }
}
