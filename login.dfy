/** The login page: the form, its validation and where a signed-in user goes. */
module Login {
  import opened Wrappers
  import opened Text
  import opened Forms
  import opened LoadingContext
  import opened AuthContext
  import opened Routes
  import opened Dashboard

  /** The names of the form's inputs, and of the entries of its error record. */
  datatype Key = Email | Password

  const InitialForm: map<Key, string> := map[Email := "", Password := ""]

  const SubmittingText := "Sedang masuk..."

  const EmailRequired := "Email harus diisi"
  const EmailMalformed := "Format email tidak valid"
  const PasswordRequired := "Password harus diisi"
  const PasswordTooShort := "Password minimal 6 karakter"

  /** The login rules. Unlike registration the email is not trimmed: only the
      empty string is "missing", and a blank one is reported as malformed. */
  ghost predicate LoginReport(form: map<Key, string>, errors: map<Key, string>)
    requires Email in form && Password in form
  {
    && FieldReport(errors, Email, form[Email] == "", !EmailLike(form[Email]), EmailRequired, EmailMalformed)
    && FieldReport(errors, Password, form[Password] == "", Utf16Length(form[Password]) < 6, PasswordRequired, PasswordTooShort)
  }

  predicate LoginPasses(form: map<Key, string>)
    requires Email in form && Password in form
  {
    EmailLike(form[Email]) && 6 <= Utf16Length(form[Password])
  }

  /** `validateForm`. */
  method ValidateForm(form: map<Key, string>) returns (newErrors: map<Key, string>)
    requires Email in form && Password in form
    ensures LoginReport(form, newErrors)
    ensures newErrors == map[] <==> LoginPasses(form)
  {
    newErrors := map[];
    newErrors := ReportField(newErrors, Email, form[Email] == "", !EmailLike(form[Email]),
                             EmailRequired, EmailMalformed);
    newErrors := ReportField(newErrors, Password, form[Password] == "", Utf16Length(form[Password]) < 6,
                             PasswordRequired, PasswordTooShort);
    assert Email !in newErrors && Password !in newErrors ==> newErrors == map[];
  }

  /** A whitespace-only email is not "missing" here: it fails the pattern instead. */
  lemma BlankEmailIsMalformed(form: map<Key, string>, errors: map<Key, string>)
    requires Email in form && Password in form && LoginReport(form, errors)
    requires form[Email] != "" && AllSpace(form[Email])
    ensures errors[Email] == EmailMalformed
  {
  }

  /** Where `handleSubmit` sends a user after a successful login. */
  function LoginRedirect(user: User): (r: Navigation)
    ensures !r.replace
    ensures r.path in {"/admin", "/umkm", "/student", "/dashboard"}
    ensures r.path == "/dashboard" <==> TypeDashboard(Field(user, "user_type")).None?
  {
    match TypeDashboard(Field(user, "user_type"))
    case Some(path) => Navigation(path, false)
    case None => Navigation("/dashboard", false)
  }

  /** The login page and the general dashboard agree: a user the login sends to a
      type dashboard would be forwarded there from /dashboard as well, and a user
      the login sends to /dashboard stays there. */
  lemma LoginAgreesWithDashboard(user: User)
    ensures DashboardRedirect(false, Some(user)).Some? <==> LoginRedirect(user).path != "/dashboard"
    ensures DashboardRedirect(false, Some(user)).Some? ==>
      DashboardRedirect(false, Some(user)).value.path == LoginRedirect(user).path
  {
  }

  class LoginPage {
    var formData: map<Key, string>
    var errors: map<Key, string>

    ghost predicate Valid()
      reads this
    {
      Email in formData && Password in formData
    }

    constructor ()
      ensures Valid() && formData == InitialForm && errors == map[]
    {
      formData := InitialForm;
      errors := map[];
    }

    /** `handleInputChange`: sets one field and clears only that field's error. */
    method HandleInputChange(name: Key, value: string)
      requires Valid()
      modifies this
      ensures Valid()
      ensures formData == old(formData)[name := value]
      ensures errors == ClearError(old(errors), name)
    {
      formData := formData[name := value];
      errors := ClearError(errors, name);
    }

    /** `handleSubmit`. An invalid form only stores its errors and `login` is never
        called; otherwise `login` runs under the loading overlay and a success
        yields the navigation for the user's type. */
    method HandleSubmit(auth: AuthSession, overlay: LoadingOverlay, response: LoginResponse)
      returns (loginCalled: bool, navigation: Option<Navigation>)
      requires Valid() && auth.Valid()
      modifies this, auth, overlay
      ensures Valid() && auth.Valid() && formData == old(formData)
      ensures loginCalled <==> LoginPasses(old(formData))
      ensures navigation.Some? <==> loginCalled && response.LoginAccepted?
      ensures navigation.Some? ==> navigation.value == LoginRedirect(response.user)
      ensures !LoginPasses(old(formData)) ==>
        LoginReport(old(formData), errors) && unchanged(auth) && unchanged(overlay)
      ensures LoginPasses(old(formData)) ==>
        && errors == old(errors) && !auth.loading
        && !overlay.loading && overlay.loadingText == DefaultText
        && (response.LoginAccepted? ==>
              auth.user == Some(response.user) && auth.isAuthenticated
              && auth.storedToken == Some(response.token))
        && (!response.LoginAccepted? ==>
              auth.user == old(auth.user) && auth.isAuthenticated == old(auth.isAuthenticated)
              && auth.storedToken == old(auth.storedToken))
    {
      var validationErrors := ValidateForm(formData);
      if validationErrors != map[] {
        errors := validationErrors;
        loginCalled, navigation := false, None;
        return;
      }
      loginCalled := true;
      overlay.ShowLoading(Some(SubmittingText));
      var result := auth.Login(response);
      navigation := None;
      if result.LoginSucceeded? {
        navigation := Some(LoginRedirect(result.user));
      }
      overlay.HideLoading();
    }
  }
}
