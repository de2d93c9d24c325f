/** The route guards: what a protected or a public route renders for a session. */
module Routes {
  import opened Wrappers
  import opened AuthContext

  /** A call to `navigate` or a `<Navigate>` element. */
  datatype Navigation = Navigation(path: string, replace: bool)

  /** What a guard renders: the full-screen spinner, a redirect carrying the
      location it came from (if any), or the guarded page. */
  datatype Outcome = Spinner | Redirect(to: Navigation, from: Option<string>) | Children

  /** A `requiredRole`/`requiredUserType` prop that is present and non-empty. */
  predicate Given(requirement: Option<string>) {
    requirement.Some? && requirement.value != ""
  }

  /** `user.key !== required`: an absent field never matches. */
  predicate Mismatch(user: User, key: string, required: string) {
    Field(user, key) != Some(required)
  }

  /** `ProtectedRoute`. The user record is read only when a requirement is given,
      and then a signed-in session must have one. */
  function ProtectedRoute(loading: bool, isAuthenticated: bool, user: Option<User>,
                          requiredRole: Option<string>, requiredUserType: Option<string>,
                          location: string): (r: Outcome)
    requires isAuthenticated && (Given(requiredRole) || Given(requiredUserType)) ==> user.Some?
    ensures loading ==> r == Spinner
    ensures !loading && !isAuthenticated ==> r == Redirect(Navigation("/login", true), Some(location))
    ensures !loading && isAuthenticated && Given(requiredRole) && Mismatch(user.value, "role", requiredRole.value)
            ==> r == Redirect(Navigation("/dashboard", true), None)
    ensures !loading && isAuthenticated && Given(requiredUserType) && Mismatch(user.value, "user_type", requiredUserType.value)
            ==> r == Redirect(Navigation("/dashboard", true), None)
    ensures r == Children <==>
      && !loading && isAuthenticated
      && (Given(requiredRole) ==> !Mismatch(user.value, "role", requiredRole.value))
      && (Given(requiredUserType) ==> !Mismatch(user.value, "user_type", requiredUserType.value))
  {
    if loading then Spinner
    else if !isAuthenticated then Redirect(Navigation("/login", true), Some(location))
    else if Given(requiredRole) && Mismatch(user.value, "role", requiredRole.value) then
      Redirect(Navigation("/dashboard", true), None)
    else if Given(requiredUserType) && Mismatch(user.value, "user_type", requiredUserType.value) then
      Redirect(Navigation("/dashboard", true), None)
    else Children
  }

  /** `PublicRoute`: pages such as login and registration, for visitors only. */
  function PublicRoute(loading: bool, isAuthenticated: bool): (r: Outcome)
    ensures loading ==> r == Spinner
    ensures !loading && isAuthenticated ==> r == Redirect(Navigation("/dashboard", true), None)
    ensures r == Children <==> !loading && !isAuthenticated
  {
    if loading then Spinner
    else if isAuthenticated then Redirect(Navigation("/dashboard", true), None)
    else Children
  }

  /** Outside loading, exactly one of a public route and a requirement-free
      protected route shows its page. */
  lemma PublicAndProtectedExclusive(isAuthenticated: bool, user: Option<User>, location: string)
    ensures (PublicRoute(false, isAuthenticated) == Children)
            != (ProtectedRoute(false, isAuthenticated, user, None, None, location) == Children)
  {
  }
}
