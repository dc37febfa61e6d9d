/** The sign-up form: the per-field validation rules, the `errors` / `formData` /
    `showSuccessModal` state fields, the keystroke handler and the submit gate that opens
    the success modal only when every rule returns the empty string. */
module SignupForm {
  import opened Text
  import opened Patterns

  datatype FormData = FormData(
    fullName: string,
    email: string,
    password: string,
    confirmPassword: string,
    phone: string,
    termsAccepted: bool)

  datatype Field = FullName | Email | Password | ConfirmPassword | Phone | TermsAccepted

  /** `Object.keys(formData)`: the fields in declaration order. */
  const FieldKeys: seq<Field> := [FullName, Email, Password, ConfirmPassword, Phone, TermsAccepted]

  const AllFields: set<Field> := {FullName, Email, Password, ConfirmPassword, Phone, TermsAccepted}

  /** The value an input event carries: the text of a text input, `checked` of the checkbox. */
  datatype FieldValue = TextValue(text: string) | CheckedValue(checked: bool)

  /** The only input whose value is a flag is the `termsAccepted` checkbox. */
  predicate ValueFits(field: Field, value: FieldValue)
  {
    value.CheckedValue? <==> field == TermsAccepted
  }

  /** `validationRules.fullName`: whitespace-only is "required"; a trimmed name that
      `split(" ")` cuts into fewer than two parts lacks a last name. */
  function FullNameError(value: string): string
  {
    if Trim(value) == "" then "Full name required"
    else if |Split(Trim(value), ' ')| < 2 then "First and last name"
    else ""
  }

  /** The full-name rule in terms of the value: blank is "required", and a trimmed name
      passes exactly when it holds a space. */
  lemma FullNameErrorMeaning(value: string)
    ensures FullNameError(value) == "Full name required" <==> AllWhitespace(value)
    ensures FullNameError(value) == "" <==> !AllWhitespace(value) && ' ' in Trim(value)
    ensures FullNameError(value) == "First and last name" <==> !AllWhitespace(value) && ' ' !in Trim(value)
  {
    TrimEmptyIffAllWhitespace(value);
    SplitSpec(Trim(value), ' ');
    assert ' ' in Trim(value) <==> ' ' in multiset(Trim(value));
  }

  /** An accepted full name has a space strictly inside its trimmed text, so the parts
      before the first space and after the last one are both non-empty. */
  lemma FullNameHasTwoParts(value: string)
    ensures FullNameError(value) == "" <==>
      exists i :: 0 < i < |Trim(value)| - 1 && Trim(value)[i] == ' '
  {
    var t := Trim(value);
    FullNameErrorMeaning(value);
    TrimIsInfix(value);
    assert IsWhitespace(' ');
    if ' ' in t {
      var i :| 0 <= i < |t| && t[i] == ' ';
      assert 0 < i < |t| - 1;
    }
  }

  /** `validationRules.email`: whitespace-only is "required"; otherwise the raw value
      (not trimmed) must match the email expression. */
  function EmailError(value: string): string
  {
    if Trim(value) == "" then "Email required"
    else if !IsEmail(value) then "Invalid email"
    else ""
  }

  /** The email rule in terms of the value: blank is "required", and the value passes
      exactly when it matches the email pattern. */
  lemma EmailErrorMeaning(value: string)
    ensures EmailError(value) == "Email required" <==> AllWhitespace(value)
    ensures EmailError(value) == "" <==> EmailPattern(value)
    ensures EmailError(value) == "Invalid email" <==> !AllWhitespace(value) && !EmailPattern(value)
  {
    TrimEmptyIffAllWhitespace(value);
    IsEmailMatchesPattern(value);
    EmailPatternNotBlank(value);
  }

  /** `validationRules.password`: the first failing check among length, upper case, digit. */
  function PasswordError(value: string): (r: string)
    ensures r == "" <==> |value| >= 8 && HasUpper(value) && HasDigit(value)
    ensures r == "Min 8 characters" <==> |value| < 8
    ensures r == "Uppercase letter needed" <==> |value| >= 8 && !HasUpper(value)
    ensures r == "Number needed" <==> |value| >= 8 && HasUpper(value) && !HasDigit(value)
  {
    if |value| < 8 then "Min 8 characters"
    else if !HasUpper(value) then "Uppercase letter needed"
    else if !HasDigit(value) then "Number needed"
    else ""
  }

  /** `validationRules.confirmPassword`: equal to the form's password, character for character. */
  function ConfirmPasswordError(value: string, password: string): (r: string)
    ensures r == "" <==> value == password
    ensures r != "" ==> r == "Passwords don't match"
  {
    if value != password then "Passwords don't match" else ""
  }

  /** `validationRules.phone`: the empty string is accepted, anything else must match. */
  function PhoneError(value: string): string
  {
    if value != "" && !IsPhone(value) then "Invalid phone" else ""
  }

  /** The phone rule in terms of the value. */
  lemma PhoneErrorMeaning(value: string)
    ensures PhoneError(value) == "" <==> value == "" || PhonePattern(value)
    ensures PhoneError(value) != "" ==> PhoneError(value) == "Invalid phone"
  {
    IsPhoneMatchesPattern(value);
  }

  /** `validationRules.termsAccepted` */
  function TermsError(accepted: bool): (r: string)
    ensures r == "" <==> accepted
  {
    if accepted then "" else "Accept terms"
  }

  /** `validationRules[field](value, form)` */
  function RuleError(field: Field, value: FieldValue, form: FormData): string
    requires ValueFits(field, value)
  {
    match field
    case FullName => FullNameError(value.text)
    case Email => EmailError(value.text)
    case Password => PasswordError(value.text)
    case ConfirmPassword => ConfirmPasswordError(value.text, form.password)
    case Phone => PhoneError(value.text)
    case TermsAccepted => TermsError(value.checked)
  }

  /** `formData[field]` */
  function ValueOf(field: Field, form: FormData): (v: FieldValue)
    ensures ValueFits(field, v)
  {
    match field
    case FullName => TextValue(form.fullName)
    case Email => TextValue(form.email)
    case Password => TextValue(form.password)
    case ConfirmPassword => TextValue(form.confirmPassword)
    case Phone => TextValue(form.phone)
    case TermsAccepted => CheckedValue(form.termsAccepted)
  }

  /** `{ ...form, [field]: value }` */
  function WithValue(form: FormData, field: Field, value: FieldValue): (r: FormData)
    requires ValueFits(field, value)
    ensures ValueOf(field, r) == value
    ensures forall g :: g != field ==> ValueOf(g, r) == ValueOf(g, form)
  {
    match field
    case FullName => form.(fullName := value.text)
    case Email => form.(email := value.text)
    case Password => form.(password := value.text)
    case ConfirmPassword => form.(confirmPassword := value.text)
    case Phone => form.(phone := value.text)
    case TermsAccepted => form.(termsAccepted := value.checked)
  }

  /** The error the submit pass records for one field. */
  function FieldError(field: Field, form: FormData): string
  {
    RuleError(field, ValueOf(field, form), form)
  }

  /** The record built by visiting `keys` in order, each key getting its field's error. */
  function ErrorsOver(keys: seq<Field>, form: FormData): map<Field, string>
  {
    if keys == [] then map[]
    else ErrorsOver(keys[..|keys| - 1], form)[keys[|keys| - 1] := FieldError(keys[|keys| - 1], form)]
  }

  /** The record has exactly the visited keys, each with its field's error. */
  lemma {:induction false} ErrorsOverSpec(keys: seq<Field>, form: FormData)
    ensures forall f :: f in ErrorsOver(keys, form) <==> f in keys
    ensures forall f :: f in ErrorsOver(keys, form) ==> ErrorsOver(keys, form)[f] == FieldError(f, form)
  {
    if keys != [] {
      var init := keys[..|keys| - 1];
      ErrorsOverSpec(init, form);
      assert keys == init + [keys[|keys| - 1]];
    }
  }

  /** The `newErrors` record a submit builds over `Object.keys(formData)`. */
  function SubmitErrors(form: FormData): (m: map<Field, string>)
    ensures m.Keys == AllFields
    ensures forall f :: f in m ==> m[f] == FieldError(f, form)
  {
    ErrorsOverSpec(FieldKeys, form);
    ErrorsOver(FieldKeys, form)
  }

  /** Every rule returns `""` on this form. */
  predicate AllValid(form: FormData)
  {
    && FullNameError(form.fullName) == ""
    && EmailError(form.email) == ""
    && PasswordError(form.password) == ""
    && ConfirmPasswordError(form.confirmPassword, form.password) == ""
    && PhoneError(form.phone) == ""
    && TermsError(form.termsAccepted) == ""
  }

  /** `Object.values(errors).every(e => e === "")` */
  predicate NoErrors(errors: map<Field, string>)
  {
    forall f :: f in errors ==> errors[f] == ""
  }

  /** The modal's test on the submit record holds exactly when every rule passes. */
  lemma SubmitErrorsEmptyIffValid(form: FormData)
    ensures NoErrors(SubmitErrors(form)) <==> AllValid(form)
  {
    var m := SubmitErrors(form);
    assert m[FullName] == FullNameError(form.fullName);
    assert m[Email] == EmailError(form.email);
    assert m[Password] == PasswordError(form.password);
    assert m[ConfirmPassword] == ConfirmPasswordError(form.confirmPassword, form.password);
    assert m[Phone] == PhoneError(form.phone);
    assert m[TermsAccepted] == TermsError(form.termsAccepted);
  }

  /** What a form that passes every rule looks like. */
  lemma AllValidMeaning(form: FormData)
    ensures AllValid(form) <==>
      && !AllWhitespace(form.fullName) && ' ' in Trim(form.fullName)
      && EmailPattern(form.email)
      && |form.password| >= 8 && HasUpper(form.password) && HasDigit(form.password)
      && form.confirmPassword == form.password
      && (form.phone == "" || PhonePattern(form.phone))
      && form.termsAccepted
  {
    FullNameErrorMeaning(form.fullName);
    EmailErrorMeaning(form.email);
    PhoneErrorMeaning(form.phone);
  }

  /** Unaccepted terms or a password shorter than 8 characters always block success. */
  lemma SubmitBlockers(form: FormData)
    requires !form.termsAccepted || |form.password| < 8
    ensures !AllValid(form)
  {
  }

  /** The loop of `handleSubmit` that fills `newErrors`, one key of `formData` at a time. */
  method CollectErrors(form: FormData) returns (newErrors: map<Field, string>)
    ensures newErrors == SubmitErrors(form)
  {
    newErrors := map[];
    for i := 0 to |FieldKeys|
      invariant newErrors == ErrorsOver(FieldKeys[..i], form)
    {
      var key := FieldKeys[i];
      assert ErrorsOver(FieldKeys[..i + 1], form) == newErrors[key := FieldError(key, form)] by {
        assert FieldKeys[..i + 1][..i] == FieldKeys[..i];
      }
      newErrors := newErrors[key := FieldError(key, form)];
    }
    assert FieldKeys[..|FieldKeys|] == FieldKeys;
  }

  /** The sign-up component's state. */
  class Signup {
    var formData: FormData
    var errors: map<Field, string>
    var showSuccessModal: bool

    constructor ()
      ensures formData == FormData("", "", "", "", "", false)
      ensures errors == map f | f in AllFields :: ""
      ensures !showSuccessModal
    {
      formData := FormData("", "", "", "", "", false);
      errors := map f | f in AllFields :: "";
      showSuccessModal := false;
    }

    /** `handleInputChange`: stores the new value and records the field's rule on it,
        judged against the form as it was before the event. */
    method HandleInputChange(field: Field, value: FieldValue)
      requires ValueFits(field, value)
      modifies this
      ensures formData == WithValue(old(formData), field, value)
      ensures errors == old(errors)[field := RuleError(field, value, old(formData))]
      ensures showSuccessModal == old(showSuccessModal)
    {
      var errorMessage := RuleError(field, value, formData);
      formData := WithValue(formData, field, value);
      errors := errors[field := errorMessage];
    }

    /** `handleSubmit`: every rule is re-run over `Object.keys(formData)`, the result
        replaces `errors`, and the modal opens when all of them are empty. */
    method HandleSubmit()
      modifies this
      ensures formData == old(formData)
      ensures errors == SubmitErrors(formData)
      ensures showSuccessModal == (old(showSuccessModal) || AllValid(formData))
    {
      var newErrors := CollectErrors(formData);
      SubmitErrorsEmptyIffValid(formData);
      errors := newErrors;
      if NoErrors(newErrors) {
        showSuccessModal := true;
      }
    }

    /** The modal's Close button. */
    method CloseSuccessModal()
      modifies this
      ensures !showSuccessModal
      ensures formData == old(formData) && errors == old(errors)
    {
      showSuccessModal := false;
    }
  }
}
