/**
 * The registration page: step 1 chooses the account type, step 2 is the form,
 * step 3 the confirmation. The form and its errors are records keyed by the
 * input names.
 */
module Register {
  import opened Wrappers
  import opened Text
  import opened Forms
  import opened LoadingContext
  import opened AuthContext

  /** The names of the form's inputs, and of the entries of its error record. */
  datatype Key = Email | Password | ConfirmPassword | FullName | Phone | UserType | Terms

  /** The fields `formData` starts with. */
  const FormKeys: set<Key> := {Email, Password, ConfirmPassword, FullName, Phone, UserType}

  const InitialForm: map<Key, string> :=
    map[Email := "", Password := "", ConfirmPassword := "", FullName := "", Phone := "", UserType := ""]

  const SubmittingText := "Sedang mendaftar..."

  const NameRequired := "Nama lengkap harus diisi"
  const NameTooShort := "Nama lengkap minimal 2 karakter"
  const EmailRequired := "Email harus diisi"
  const EmailMalformed := "Format email tidak valid"
  const PhoneRequired := "Nomor telepon harus diisi"
  const PhoneMalformed := "Format nomor telepon tidak valid"
  const PasswordRequired := "Password harus diisi"
  const PasswordTooShort := "Password minimal 6 karakter"
  const ConfirmRequired := "Konfirmasi password harus diisi"
  const ConfirmMismatch := "Password tidak cocok"
  const TermsRequired := "Anda harus menyetujui syarat dan ketentuan"

  /** The two checks of one field: "required", then the format or length rule. */
  datatype Check = Check(missing: bool, malformed: bool)

  /** The outcome of every check of step 2. */
  datatype Step2Checks = Step2Checks(
    name: Check, email: Check, phone: Check, password: Check, confirm: Check, terms: Check)

  /** The rules of step 2: the trimmed name, the email pattern, the phone pattern
      after deleting white space, the password length, the confirmation and the
      terms box. Lengths are JavaScript lengths (UTF-16 code units). */
  function CheckStep2(form: map<Key, string>, agreedToTerms: bool): Step2Checks
    requires FormKeys <= form.Keys
  {
    Step2Checks(
      Check(Trim(form[FullName]) == "", Utf16Length(Trim(form[FullName])) < 2),
      Check(Trim(form[Email]) == "", !EmailLike(form[Email])),
      Check(Trim(form[Phone]) == "", !PhoneLike(RemoveSpaces(form[Phone]))),
      Check(form[Password] == "", Utf16Length(form[Password]) < 6),
      Check(form[ConfirmPassword] == "", form[Password] != form[ConfirmPassword]),
      Check(!agreedToTerms, false))
  }

  /** A report for given check outcomes: exactly the failing fields have an
      error, with the "required" message first, and `user_type` never has one. */
  ghost predicate ChecksReport(c: Step2Checks, errors: map<Key, string>) {
    && UserType !in errors
    && FieldReport(errors, FullName, c.name.missing, c.name.malformed, NameRequired, NameTooShort)
    && FieldReport(errors, Email, c.email.missing, c.email.malformed, EmailRequired, EmailMalformed)
    && FieldReport(errors, Phone, c.phone.missing, c.phone.malformed, PhoneRequired, PhoneMalformed)
    && FieldReport(errors, Password, c.password.missing, c.password.malformed,
                   PasswordRequired, PasswordTooShort)
    && FieldReport(errors, ConfirmPassword, c.confirm.missing, c.confirm.malformed,
                   ConfirmRequired, ConfirmMismatch)
    && FieldReport(errors, Terms, c.terms.missing, c.terms.malformed, TermsRequired, TermsRequired)
  }

  predicate NoneFails(c: Step2Checks) {
    && !c.name.missing && !c.name.malformed && !c.email.missing && !c.email.malformed
    && !c.phone.missing && !c.phone.malformed && !c.password.missing && !c.password.malformed
    && !c.confirm.missing && !c.confirm.malformed && !c.terms.missing && !c.terms.malformed
  }

  /** The report step 2 must produce for a form. */
  ghost predicate Step2Report(form: map<Key, string>, agreedToTerms: bool, errors: map<Key, string>)
    requires FormKeys <= form.Keys
  {
    ChecksReport(CheckStep2(form, agreedToTerms), errors)
  }

  /** Step 2 can be submitted: every check passes. */
  predicate Step2Passes(form: map<Key, string>, agreedToTerms: bool)
    requires FormKeys <= form.Keys
  {
    && 2 <= Utf16Length(Trim(form[FullName]))
    && Trim(form[Email]) != "" && EmailLike(form[Email])
    && Trim(form[Phone]) != "" && PhoneLike(RemoveSpaces(form[Phone]))
    && 6 <= Utf16Length(form[Password])
    && form[ConfirmPassword] != "" && form[Password] == form[ConfirmPassword]
    && agreedToTerms
  }

  /** The six `if … else if …` blocks of `validateStep2`, over the check outcomes. */
  method ReportChecks(c: Step2Checks) returns (newErrors: map<Key, string>)
    ensures ChecksReport(c, newErrors)
    ensures newErrors == map[] <==> NoneFails(c)
  {
    newErrors := map[];
    newErrors := ReportField(newErrors, FullName, c.name.missing, c.name.malformed, NameRequired, NameTooShort);
    newErrors := ReportField(newErrors, Email, c.email.missing, c.email.malformed, EmailRequired, EmailMalformed);
    newErrors := ReportField(newErrors, Phone, c.phone.missing, c.phone.malformed, PhoneRequired, PhoneMalformed);
    newErrors := ReportField(newErrors, Password, c.password.missing, c.password.malformed,
                             PasswordRequired, PasswordTooShort);
    newErrors := ReportField(newErrors, ConfirmPassword, c.confirm.missing, c.confirm.malformed,
                             ConfirmRequired, ConfirmMismatch);
    newErrors := ReportField(newErrors, Terms, c.terms.missing, c.terms.malformed, TermsRequired, TermsRequired);
  }

  /** `validateStep2`: the report of the form's checks, empty exactly when the
      form passes. */
  method ValidateStep2(form: map<Key, string>, agreedToTerms: bool) returns (newErrors: map<Key, string>)
    requires FormKeys <= form.Keys
    ensures Step2Report(form, agreedToTerms, newErrors)
    ensures newErrors == map[] <==> Step2Passes(form, agreedToTerms)
  {
    newErrors := ReportChecks(CheckStep2(form, agreedToTerms));
  }

  /** The rules leave no choice: two reports for the same form are the same record. */
  lemma Step2ReportUnique(form: map<Key, string>, agreedToTerms: bool, e1: map<Key, string>, e2: map<Key, string>)
    requires FormKeys <= form.Keys
    requires Step2Report(form, agreedToTerms, e1) && Step2Report(form, agreedToTerms, e2)
    ensures e1 == e2
  {
    forall k ensures (k in e1 <==> k in e2) && (k in e1 ==> e1[k] == e2[k]) {
      match k
      case FullName =>
      case Email =>
      case Phone =>
      case Password =>
      case ConfirmPassword =>
      case Terms =>
      case UserType =>
    }
  }

  /** A phone number made only of white space is reported missing, never malformed. */
  lemma BlankPhoneIsMissing(form: map<Key, string>, agreedToTerms: bool, errors: map<Key, string>)
    requires FormKeys <= form.Keys && AllSpace(form[Phone])
    requires Step2Report(form, agreedToTerms, errors)
    ensures errors[Phone] == PhoneRequired
  {
  }

  class RegisterPage {
    var step: int
    var userType: string
    var formData: map<Key, string>
    var errors: map<Key, string>
    var agreedToTerms: bool

    ghost predicate Valid()
      reads this
    {
      FormKeys <= formData.Keys
    }

    constructor ()
      ensures Valid()
      ensures step == 1 && userType == "" && formData == InitialForm && errors == map[] && !agreedToTerms
    {
      step := 1;
      userType := "";
      formData := InitialForm;
      errors := map[];
      agreedToTerms := false;
    }

    /** `handleInputChange`: typing into `name` sets that field and clears only
        that field's error. */
    method HandleInputChange(name: Key, value: string)
      requires Valid()
      modifies this
      ensures Valid()
      ensures formData == old(formData)[name := value]
      ensures errors == ClearError(old(errors), name)
      ensures step == old(step) && userType == old(userType) && agreedToTerms == old(agreedToTerms)
    {
      formData := formData[name := value];
      errors := ClearError(errors, name);
    }

    /** `handleUserTypeSelect`: the chosen type is kept twice and the form opens. */
    method HandleUserTypeSelect(chosen: string)
      requires Valid()
      modifies this
      ensures Valid()
      ensures userType == chosen && formData == old(formData)[UserType := chosen] && step == 2
      ensures errors == old(errors) && agreedToTerms == old(agreedToTerms)
    {
      userType := chosen;
      formData := formData[UserType := chosen];
      step := 2;
    }

    /** The "back" button of step 2. */
    method BackToTypeSelection()
      requires Valid()
      modifies this
      ensures Valid()
      ensures step == 1
      ensures userType == old(userType) && formData == old(formData)
      ensures errors == old(errors) && agreedToTerms == old(agreedToTerms)
    {
      step := 1;
    }

    /** The terms checkbox. */
    method SetAgreedToTerms(checked: bool)
      requires Valid()
      modifies this
      ensures Valid()
      ensures agreedToTerms == checked
      ensures step == old(step) && userType == old(userType) && formData == old(formData) && errors == old(errors)
    {
      agreedToTerms := checked;
    }

    /** `handleSubmit`. A form that fails validation only stores its errors and
        never reaches `register`; otherwise `register` is called under the
        loading overlay and a success moves to the confirmation step. */
    method HandleSubmit(auth: AuthSession, overlay: LoadingOverlay, response: RegisterResponse)
      returns (registerCalled: bool)
      requires Valid() && auth.Valid()
      modifies this, auth, overlay
      ensures Valid() && auth.Valid()
      ensures registerCalled <==> Step2Passes(old(formData), old(agreedToTerms))
      ensures formData == old(formData) && userType == old(userType) && agreedToTerms == old(agreedToTerms)
      ensures !registerCalled ==>
        && Step2Report(old(formData), old(agreedToTerms), errors) && step == old(step)
        && unchanged(auth) && unchanged(overlay)
      ensures registerCalled ==>
        && errors == old(errors)
        && step == (if response.RegisterAccepted? then 3 else old(step))
        && auth.user == old(auth.user) && auth.isAuthenticated == old(auth.isAuthenticated)
        && auth.storedToken == old(auth.storedToken) && !auth.loading
        && !overlay.loading && overlay.loadingText == DefaultText
    {
      var validationErrors := ValidateStep2(formData, agreedToTerms);
      if validationErrors != map[] {
        errors := validationErrors;
        registerCalled := false;
        return;
      }
      registerCalled := true;
      SubmitToRegister(auth, overlay, response);
    }

    /** The part of `handleSubmit` after validation passed: `register` under the
        loading overlay, and the confirmation step on success. */
    method SubmitToRegister(auth: AuthSession, overlay: LoadingOverlay, response: RegisterResponse)
      requires Valid() && auth.Valid()
      modifies this, auth, overlay
      ensures Valid() && auth.Valid()
      ensures formData == old(formData) && userType == old(userType) && agreedToTerms == old(agreedToTerms)
      ensures errors == old(errors)
      ensures step == (if response.RegisterAccepted? then 3 else old(step))
      ensures auth.user == old(auth.user) && auth.isAuthenticated == old(auth.isAuthenticated)
      ensures auth.storedToken == old(auth.storedToken) && !auth.loading
      ensures !overlay.loading && overlay.loadingText == DefaultText
    {
      overlay.ShowLoading(Some(SubmittingText));
      var result := auth.Register(response);
      if result.RegisterSucceeded? {
        step := 3;
      }
      overlay.HideLoading();
    }
  }
}
