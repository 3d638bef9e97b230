/** The sign-up / sign-in form of fend_mm7/src/pages/Profile/AuthForm.tsx:
    per-field validation, whole-form validation in the current mode, live
    validation of touched fields, and the touched/errors bookkeeping of the
    submit and mode-switch handlers. The identity-provider calls made after
    a successful validation are not part of this model. */
module AuthForm {
  import opened Text

  datatype Field = Name | Email | Password | ConfirmPassword

  datatype FormData = FormData(name: string, email: string, password: string, confirmPassword: string)

  /** `Object.keys(formData)`, in declaration order. */
  const FormFields: seq<Field> := [Name, Email, Password, ConfirmPassword]

  function Value(d: FormData, f: Field): string {
    match f
    case Name => d.name
    case Email => d.email
    case Password => d.password
    case ConfirmPassword => d.confirmPassword
  }

  function WithValue(d: FormData, f: Field, v: string): (r: FormData)
    ensures Value(r, f) == v
    ensures forall g :: g != f ==> Value(r, g) == Value(d, g)
  {
    match f
    case Name => d.(name := v)
    case Email => d.(email := v)
    case Password => d.(password := v)
    case ConfirmPassword => d.(confirmPassword := v)
  }

  const NameRequired := "Name is required"
  const EmailRequired := "Email is required"
  const EmailInvalid := "Email is invalid"
  const PasswordRequired := "Password is required"
  const PasswordTooShort := "Password must be at least 8 characters"
  const ConfirmRequired := "Please confirm your password"
  const PasswordsDiffer := "Passwords do not match"

  // ---------------------------------------------------------------------
  // The e-mail test `/\S+@\S+\.\S+/.test(value)`

  predicate NoWhiteSpace(s: string, i: int, j: int)
    requires 0 <= i <= j <= |s|
  {
    forall k :: i <= k < j ==> !IsWhiteSpace(s[k])
  }

  /** Some piece of `s` is one non-space character, '@', one or more
      non-space characters, '.', and one non-space character: the shortest
      text the unanchored pattern can match. */
  predicate IsEmailLike(s: string) {
    exists p, q :: 1 <= p && p + 2 <= q && q + 2 <= |s| && s[p] == '@' && s[q] == '.' && NoWhiteSpace(s, p - 1, q + 2)
  }

  /** The whole of `t` matches `\S+@\S+\.\S+`: it has no white space and
      splits as x '@' y '.' z with x, y and z non-empty. */
  ghost predicate MatchesWhole(t: string) {
    && NoWhiteSpace(t, 0, |t|)
    && exists p, q :: 1 <= p && p + 2 <= q && q + 2 <= |t| && t[p] == '@' && t[q] == '.'
  }

  /** The explicit test agrees with the pattern's unanchored semantics: it
      holds exactly when some substring matches the pattern as a whole. */
  lemma EmailLikeIff(s: string)
    ensures IsEmailLike(s) <==> exists a, b :: 0 <= a <= b <= |s| && MatchesWhole(s[a..b])
  {
    if IsEmailLike(s) {
      var p, q :| 1 <= p && p + 2 <= q && q + 2 <= |s| && s[p] == '@' && s[q] == '.' && NoWhiteSpace(s, p - 1, q + 2);
      MatchFromWitness(s, p, q);
    }
    if exists a, b :: 0 <= a <= b <= |s| && MatchesWhole(s[a..b]) {
      var a, b :| 0 <= a <= b <= |s| && MatchesWhole(s[a..b]);
      WitnessFromMatch(s, a, b);
    }
  }

  /** The shortest piece around a witness matches the whole pattern. */
  lemma MatchFromWitness(s: string, p: int, q: int)
    requires 1 <= p && p + 2 <= q && q + 2 <= |s| && s[p] == '@' && s[q] == '.' && NoWhiteSpace(s, p - 1, q + 2)
    ensures MatchesWhole(s[p - 1..q + 2])
  {
    var t := s[p - 1..q + 2];
    assert t[1] == '@' && t[q - p + 1] == '.';
    assert NoWhiteSpace(t, 0, |t|) by {
      forall k | 0 <= k < |t| ensures !IsWhiteSpace(t[k]) {
        assert t[k] == s[p - 1 + k];
      }
    }
  }

  /** A piece matching the whole pattern gives a witness of the test. */
  lemma WitnessFromMatch(s: string, a: int, b: int)
    requires 0 <= a <= b <= |s| && MatchesWhole(s[a..b])
    ensures IsEmailLike(s)
  {
    var t := s[a..b];
    var p, q :| 1 <= p && p + 2 <= q && q + 2 <= |t| && t[p] == '@' && t[q] == '.';
    assert s[a + p] == '@' && s[a + q] == '.';
    assert NoWhiteSpace(s, a + p - 1, a + q + 2) by {
      forall k | a + p - 1 <= k < a + q + 2 ensures !IsWhiteSpace(s[k]) {
        assert s[k] == t[k - a];
      }
    }
  }

  // ---------------------------------------------------------------------
  // validateField

  /** When a field is acceptable, stated independently of the messages. */
  predicate FieldOk(f: Field, value: string, isSignUp: bool, password: string) {
    match f
    case Name => !isSignUp || value != ""
    case Email => IsEmailLike(value)
    case Password => |value| >= 8
    case ConfirmPassword => !isSignUp || (value != "" && value == password)
  }

  /** `validateField(name, value)`; `password` is `formData.password`. The
      result is the error message, or None for `undefined`. */
  function ValidateField(f: Field, value: string, isSignUp: bool, password: string): (r: Option<string>)
    ensures r.None? <==> FieldOk(f, value, isSignUp, password)
    ensures f == Name ==> (r.Some? <==> value == "" && isSignUp) && (r.Some? ==> r.value == NameRequired)
    ensures f == Email && value == "" ==> r == Some(EmailRequired)
    ensures f == Email && value != "" && !IsEmailLike(value) ==> r == Some(EmailInvalid)
    ensures f == Password && value == "" ==> r == Some(PasswordRequired)
    ensures f == Password && 0 < |value| < 8 ==> r == Some(PasswordTooShort)
    ensures f == ConfirmPassword && !isSignUp ==> r.None?
    ensures f == ConfirmPassword && isSignUp && value == "" ==> r == Some(ConfirmRequired)
    ensures f == ConfirmPassword && isSignUp && value != "" && value != password ==> r == Some(PasswordsDiffer)
  {
    match f
    case Name =>
      if value == "" && isSignUp then Some(NameRequired) else None
    case Email =>
      if value == "" then Some(EmailRequired)
      else if !IsEmailLike(value) then Some(EmailInvalid)
      else None
    case Password =>
      if value == "" then Some(PasswordRequired)
      else if |value| < 8 then Some(PasswordTooShort)
      else None
    case ConfirmPassword =>
      if value == "" && isSignUp then Some(ConfirmRequired)
      else if value != password && isSignUp then Some(PasswordsDiffer)
      else None
  }

  function FieldError(d: FormData, f: Field, isSignUp: bool): Option<string> {
    ValidateField(f, Value(d, f), isSignUp, d.password)
  }

  /** `errors` holds exactly the messages of the failing fields among `fields`. */
  predicate ErrorsFor(errors: map<Field, string>, d: FormData, isSignUp: bool, fields: set<Field>) {
    forall f ::
      && (f in errors <==> f in fields && FieldError(d, f, isSignUp).Some?)
      && (f in errors ==> errors[f] == FieldError(d, f, isSignUp).value)
  }

  /** Error maps are determined by the fields they cover. */
  lemma ErrorsForUnique(e1: map<Field, string>, e2: map<Field, string>, d: FormData, isSignUp: bool, fields: set<Field>)
    requires ErrorsFor(e1, d, isSignUp, fields) && ErrorsFor(e2, d, isSignUp, fields)
    ensures e1 == e2
  {
  }

  /** The fields the current mode shows: all four when signing up, e-mail
      and password when signing in. */
  function RelevantFields(isSignUp: bool): (r: set<Field>)
  {
    if isSignUp then {Name, Email, Password, ConfirmPassword} else {Email, Password}
  }

  /** Four fields count in sign-up mode, two in sign-in mode, and sign-in
      never covers the name or the confirmation. */
  lemma RelevantFieldsCount(isSignUp: bool)
    ensures isSignUp ==> |RelevantFields(isSignUp)| == 4
    ensures !isSignUp ==> |RelevantFields(isSignUp)| == 2
    ensures !isSignUp ==> Name !in RelevantFields(isSignUp) && ConfirmPassword !in RelevantFields(isSignUp)
  {
  }

  /** `validateForm()`: walk the form's keys, skip those the mode hides, and
      record each field's error. */
  method ValidateForm(d: FormData, isSignUp: bool) returns (errors: map<Field, string>)
    ensures ErrorsFor(errors, d, isSignUp, RelevantFields(isSignUp))
    ensures !isSignUp ==> Name !in errors && ConfirmPassword !in errors
  {
    errors := map[];
    for i := 0 to |FormFields|
      invariant forall f ::
        && (f in errors <==> f in FormFields[..i] && f in RelevantFields(isSignUp) && FieldError(d, f, isSignUp).Some?)
        && (f in errors ==> errors[f] == FieldError(d, f, isSignUp).value)
    {
      var fieldName := FormFields[i];
      if !isSignUp && (fieldName == Name || fieldName == ConfirmPassword) {
        continue;
      }
      var error := ValidateField(fieldName, Value(d, fieldName), isSignUp, d.password);
      if error.Some? {
        errors := errors[fieldName := error.value];
      }
    }
    assert FormFields[..|FormFields|] == FormFields;
  }

  /** The live-validation effect: every touched field is validated and only
      touched fields can carry an error. */
  method ValidateTouched(d: FormData, isSignUp: bool, touched: set<Field>) returns (errors: map<Field, string>)
    ensures ErrorsFor(errors, d, isSignUp, touched)
    ensures errors.Keys <= touched
  {
    errors := map[];
    var rest := touched;
    while rest != {}
      invariant rest <= touched
      invariant ErrorsFor(errors, d, isSignUp, touched - rest)
      decreases rest
    {
      var key :| key in rest;
      var error := ValidateField(key, Value(d, key), isSignUp, d.password);
      if error.Some? {
        errors := errors[key := error.value];
      }
      rest := rest - {key};
    }
  }

  /** The submit handler's loop that marks fields touched: every key of the
      form except those the current mode hides. */
  method TouchedOnSubmit(isSignUp: bool) returns (touchedFields: set<Field>)
    ensures touchedFields == RelevantFields(isSignUp)
  {
    touchedFields := {};
    for i := 0 to |FormFields|
      invariant forall f :: f in touchedFields <==> f in FormFields[..i] && f in RelevantFields(isSignUp)
    {
      var key := FormFields[i];
      if isSignUp || (key != Name && key != ConfirmPassword) {
        touchedFields := touchedFields + {key};
      }
    }
    assert FormFields[..|FormFields|] == FormFields;
  }

  /** An error map is empty exactly when every covered field is acceptable. */
  lemma NoErrorsIff(errors: map<Field, string>, d: FormData, isSignUp: bool, fields: set<Field>)
    requires ErrorsFor(errors, d, isSignUp, fields)
    ensures errors == map[] <==> forall f :: f in fields ==> FieldOk(f, Value(d, f), isSignUp, d.password)
  {
    if errors != map[] {
      var f :| f in errors;
      assert FieldError(d, f, isSignUp).Some?;
    }
  }

  /** In sign-in mode the name and confirmation rules never fire, so the
      mode filter of `validateForm` only mirrors what `validateField`
      already does there. */
  lemma SignInSkipsNothing(d: FormData, errors: map<Field, string>)
    requires ErrorsFor(errors, d, false, RelevantFields(false))
    ensures ErrorsFor(errors, d, false, {Name, Email, Password, ConfirmPassword})
  {
    assert FieldError(d, Name, false).None?;
    assert FieldError(d, ConfirmPassword, false).None?;
  }

  // ---------------------------------------------------------------------
  // The component's state

  class AuthFormState {
    var isSignUp: bool
    var formData: FormData
    var errors: map<Field, string>
    var touched: set<Field>
    var authError: Option<string>

    /** The shown errors are always those of the touched fields. */
    predicate Valid()
      reads this
    {
      ErrorsFor(errors, formData, isSignUp, touched)
    }

    constructor ()
      ensures Valid()
      ensures isSignUp && formData == FormData("", "", "", "")
      ensures errors == map[] && touched == {} && authError == None
    {
      isSignUp := true;
      formData := FormData("", "", "", "");
      errors := map[];
      touched := {};
      authError := None;
    }

    /** `handleInputChange`, followed by both effects that depend on the
        form data: the auth error is cleared and touched fields revalidated. */
    method HandleInputChange(f: Field, value: string)
      modifies this
      ensures Valid()
      ensures formData == WithValue(old(formData), f, value)
      ensures isSignUp == old(isSignUp) && touched == old(touched) && authError == None
    {
      formData := WithValue(formData, f, value);
      authError := None;
      errors := ValidateTouched(formData, isSignUp, touched);
    }

    /** `handleBlur`: the field becomes touched and the effect revalidates. */
    method HandleBlur(f: Field)
      modifies this`touched, this`errors
      ensures Valid()
      ensures touched == old(touched) + {f}
    {
      touched := touched + {f};
      errors := ValidateTouched(formData, isSignUp, touched);
    }

    /** The validation part of `handleSubmit`: exactly the fields of the
        current mode become touched, the errors are those of `validateForm`,
        and the identity provider is called only when there are none. */
    method HandleSubmit() returns (callsAuth: bool)
      modifies this`touched, this`errors
      ensures Valid()
      ensures touched == RelevantFields(isSignUp)
      ensures callsAuth <==> errors == map[]
      ensures callsAuth <==> forall f :: f in RelevantFields(isSignUp) ==> FieldOk(f, Value(formData, f), isSignUp, formData.password)
      ensures callsAuth <==> !SubmitDisabled(false)
    {
      var touchedFields := TouchedOnSubmit(isSignUp);
      touched := touchedFields;
      var formErrors := ValidateForm(formData, isSignUp);
      errors := formErrors;
      callsAuth := |formErrors| == 0;
      NoErrorsIff(formErrors, formData, isSignUp, touchedFields);
    }

    /** `toggleAuthMode(mode)`: switching mode clears errors, touched fields
        and the auth error. */
    method ToggleAuthMode(signUp: bool)
      modifies this`isSignUp, this`errors, this`touched, this`authError
      ensures Valid()
      ensures isSignUp == signUp && errors == map[] && touched == {} && authError == None
    {
      isSignUp := signUp;
      errors := map[];
      touched := {};
      authError := None;
    }

    /** The submit button's `disabled`: a call is pending, or some touched
        field fails its rule. */
    function SubmitDisabled(isSubmitting: bool): (r: bool)
      reads this
      requires Valid()
      ensures r <==> isSubmitting || exists f :: f in touched && !FieldOk(f, Value(formData, f), isSignUp, formData.password)
    {
      NoErrorsIff(errors, formData, isSignUp, touched);
      isSubmitting || errors != map[]
    }
  }
}
