/**
 * The authentication session: the signed-in user, the `isAuthenticated` flag,
 * the `loading` flag the route guards wait on, and the token kept in the
 * browser's storage. Each call to the authentication API is abstracted as the
 * response it produced.
 */
module AuthContext {
  import opened Wrappers

  /** A user record as the API returns it: field name to value. */
  type User = map<string, string>

  const MissingProvider := "useAuth must be used within an AuthProvider"
  const LoginErrorDefault := "Terjadi kesalahan saat login"
  const RegisterErrorDefault := "Terjadi kesalahan saat registrasi"

  /** `user.key`, or nothing when the field is absent. */
  function Field(user: User, key: string): Option<string> {
    if key in user then Some(user[key]) else None
  }

  /** `error.response?.data?.message || fallback`: an absent or empty message
      gives the fallback. */
  function MessageOr(message: Option<string>, fallback: string): (r: string)
    ensures r == fallback || (message.Some? && r == message.value)
    ensures message.Some? && message.value != "" ==> r == message.value
    ensures !(message.Some? && message.value != "") ==> r == fallback
  {
    if message.Some? && message.value != "" then message.value else fallback
  }

  /** `{ ...prev, ...userData }`; spreading a null `prev` contributes nothing. */
  function Merge(prev: Option<User>, userData: User): (r: User)
    ensures r.Keys == userData.Keys + (if prev.Some? then prev.value.Keys else {})
    ensures forall k :: k in userData ==> r[k] == userData[k]
    ensures forall k :: prev.Some? && k in prev.value && k !in userData ==> r[k] == prev.value[k]
  {
    if prev.Some? then prev.value + userData else userData
  }

  /** Outcome of `authAPI.verifyToken`. */
  datatype VerifyResponse = VerifyAccepted(user: User) | VerifyRejected | VerifyThrew

  /** Outcome of `authAPI.login`: accepted, answered with `success: false`, or thrown
      (with the message the server attached, if any). */
  datatype LoginResponse =
    | LoginAccepted(user: User, token: string)
    | LoginRejected(message: Option<string>)
    | LoginThrew(message: Option<string>)

  /** What `login` returns to its caller. */
  datatype LoginResult = LoginSucceeded(user: User) | LoginFailed(message: Option<string>)

  datatype RegisterResponse =
    | RegisterAccepted
    | RegisterRejected(message: Option<string>)
    | RegisterThrew(message: Option<string>)

  datatype RegisterResult = RegisterSucceeded | RegisterFailed(message: Option<string>)

  class AuthSession {
    var user: Option<User>
    var isAuthenticated: bool
    var loading: bool
    /** The `token` entry of local storage. */
    var storedToken: Option<string>

    /** A session that says it is authenticated always has a user. */
    ghost predicate Valid()
      reads this
    {
      isAuthenticated ==> user.Some?
    }

    /** Mounting the provider: nobody is signed in yet; `loading` stays true only
        when a (non-empty) stored token is waiting to be verified. */
    constructor (token: Option<string>)
      ensures Valid()
      ensures user.None? && !isAuthenticated && storedToken == token
      ensures loading <==> token.Some? && token.value != ""
    {
      user := None;
      isAuthenticated := false;
      storedToken := token;
      loading := token.Some? && token.value != "";
    }

    /** `verifyToken`: a verified token signs its user in; a rejected token, or a
        failed request, removes the token and signs out. */
    method VerifyToken(response: VerifyResponse)
      requires Valid()
      modifies this
      ensures Valid() && !loading
      ensures response.VerifyAccepted? ==>
        user == Some(response.user) && isAuthenticated && storedToken == old(storedToken)
      ensures !response.VerifyAccepted? ==> user.None? && !isAuthenticated && storedToken.None?
    {
      match response {
        case VerifyAccepted(u) =>
          user := Some(u);
          isAuthenticated := true;
        case _ =>
          storedToken := None;
          user := None;
          isAuthenticated := false;
      }
      loading := false;
    }

    /** `login`: on success the token is stored and the user signed in; on failure
        the session is left as it was and a message is returned. */
    method Login(response: LoginResponse) returns (result: LoginResult)
      requires Valid()
      modifies this
      ensures Valid() && !loading
      ensures result.LoginSucceeded? <==> response.LoginAccepted?
      ensures response.LoginAccepted? ==>
        && result.user == response.user
        && user == Some(response.user) && isAuthenticated && storedToken == Some(response.token)
      ensures !response.LoginAccepted? ==>
        user == old(user) && isAuthenticated == old(isAuthenticated) && storedToken == old(storedToken)
      ensures response.LoginRejected? ==> result == LoginFailed(response.message)
      ensures response.LoginThrew? ==> result == LoginFailed(Some(MessageOr(response.message, LoginErrorDefault)))
    {
      loading := true;
      match response {
        case LoginAccepted(u, token) =>
          storedToken := Some(token);
          user := Some(u);
          isAuthenticated := true;
          result := LoginSucceeded(u);
        case LoginRejected(message) =>
          result := LoginFailed(message);
        case LoginThrew(message) =>
          result := LoginFailed(Some(MessageOr(message, LoginErrorDefault)));
      }
      loading := false;
    }

    /** `register`: only `loading` changes; the user still has to sign in. */
    method Register(response: RegisterResponse) returns (result: RegisterResult)
      requires Valid()
      modifies this
      ensures Valid() && !loading
      ensures user == old(user) && isAuthenticated == old(isAuthenticated) && storedToken == old(storedToken)
      ensures result.RegisterSucceeded? <==> response.RegisterAccepted?
      ensures response.RegisterRejected? ==> result == RegisterFailed(response.message)
      ensures response.RegisterThrew? ==>
        result == RegisterFailed(Some(MessageOr(response.message, RegisterErrorDefault)))
    {
      loading := true;
      match response {
        case RegisterAccepted =>
          result := RegisterSucceeded;
        case RegisterRejected(message) =>
          result := RegisterFailed(message);
        case RegisterThrew(message) =>
          result := RegisterFailed(Some(MessageOr(message, RegisterErrorDefault)));
      }
      loading := false;
    }

    /** `logout`: the token is removed and nobody is signed in. */
    method Logout()
      requires Valid()
      modifies this
      ensures Valid()
      ensures storedToken.None? && user.None? && !isAuthenticated && loading == old(loading)
    {
      storedToken := None;
      user := None;
      isAuthenticated := false;
    }

    /** `updateUser`: the given fields overwrite the user's, the rest are kept. */
    method UpdateUser(userData: User)
      requires Valid()
      modifies this
      ensures Valid()
      ensures user == Some(Merge(old(user), userData))
      ensures isAuthenticated == old(isAuthenticated) && loading == old(loading)
      ensures storedToken == old(storedToken)
    {
      user := Some(Merge(user, userData));
    }
  }

  /** `useAuth`: the context, or the error thrown outside a provider. */
  function UseAuth(context: Option<AuthSession>): (r: Result<AuthSession, string>)
    ensures r.Success? <==> context.Some?
    ensures r.Success? ==> r.value == context.value
    ensures r.Failure? ==> r.error == MissingProvider
  {
    match context
    case Some(session) => Success(session)
    case None => Failure(MissingProvider)
  }
}
