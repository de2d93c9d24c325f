/** The general dashboard page, which forwards each user to the dashboard of their type. */
module Dashboard {
  import opened Wrappers
  import opened AuthContext
  import opened Routes

  /** The dashboard each user type owns. */
  function TypeDashboard(userType: Option<string>): (r: Option<string>)
    ensures r.Some? <==> userType in {Some("admin"), Some("umkm"), Some("student")}
    ensures r.Some? ==> r.value == "/" + userType.value
  {
    match userType
    case Some("admin") => Some("/admin")
    case Some("umkm") => Some("/umkm")
    case Some("student") => Some("/student")
    case _ => None
  }

  /** The effect of `DashboardPage`: once the session has loaded and a user is
      known, admin, umkm and student users are sent on (replacing the history
      entry); every other type stays here. */
  function DashboardRedirect(loading: bool, user: Option<User>): (r: Option<Navigation>)
    ensures loading || user.None? ==> r.None?
    ensures r.Some? ==> r.value.replace && r.value.path in {"/admin", "/umkm", "/student"}
    ensures !loading && user.Some? ==>
      (r.Some? <==> Field(user.value, "user_type") in {Some("admin"), Some("umkm"), Some("student")})
    ensures r.Some? ==> r.value.path == "/" + Field(user.value, "user_type").value
  {
    if !loading && user.Some? then
      match TypeDashboard(Field(user.value, "user_type"))
      case Some(path) => Some(Navigation(path, true))
      case None => None
    else None
  }

  datatype DashboardScreen = FullScreenSpinner | Welcome

  /** What `DashboardPage` renders: the spinner while loading, the greeting otherwise. */
  function DashboardView(loading: bool): (r: DashboardScreen)
    ensures r == FullScreenSpinner <==> loading
  {
    if loading then FullScreenSpinner else Welcome
  }
}
