/** The client's session: the user, the authenticated flag, the loading flag,
    the token kept in local storage and the default Authorization header,
    updated step by step by `checkLogin`, `signin`, `signup` and `logout`. */
module AuthContext {

  import opened Wrappers
  import opened Http
  import AuthService

  /** The user object the session keeps: the login credentials, the signup
      form, or a `user` field of the answer. */
  datatype Profile = Profile(name: Option<string>, email: Option<string>, password: Option<string>)

  /** The fields of the login or register answer the session reads. */
  datatype AuthResponse = AuthResponse(token: Option<string>, user: Option<Profile>)

  /** `res.user || fallback` */
  function SessionUser(res: AuthResponse, fallback: Profile): (r: Profile)
    ensures res.user.Some? ==> r == res.user.value
    ensures res.user.None? ==> r == fallback
  {
    if res.user.Some? then res.user.value else fallback
  }

  /** `Bearer ${token}` */
  function BearerHeader(token: string): string {
    "Bearer " + token
  }

  /** The auth service's answer as the client receives it: a token and the
      public fields, and no `user` field. */
  function ClientView(reply: AuthService.AuthReply): (r: AuthResponse)
    ensures r.user.None? && r.token == Some(reply.token)
  {
    AuthResponse(Some(reply.token), None)
  }

  class Session {
    var user: Option<Profile>
    var isAuthenticated: bool
    var loading: bool
    /** `localStorage.getItem('token')` */
    var storedToken: Option<string>
    /** `axios.defaults.headers.common['Authorization']` */
    var authHeader: Option<string>

    /** The provider's initial state, with whatever local storage holds. */
    constructor (stored: Option<string>)
      ensures user.None? && !isAuthenticated && loading
      ensures storedToken == stored && authHeader.None?
    {
      user := None;
      isAuthenticated := false;
      loading := true;
      storedToken := stored;
      authHeader := None;
    }

    /** `checkLogin`: a stored token is trusted without verification. */
    method CheckLogin()
      modifies this
      ensures !loading
      ensures !Truthy(old(storedToken)) ==>
        isAuthenticated == old(isAuthenticated) && authHeader == old(authHeader)
      ensures Truthy(old(storedToken)) ==>
        isAuthenticated && authHeader == Some(BearerHeader(old(storedToken).value))
      ensures user == old(user) && storedToken == old(storedToken)
    {
      if !Truthy(storedToken) {
        loading := false;
        return;
      }
      authHeader := Some(BearerHeader(storedToken.value));
      isAuthenticated := true;
      loading := false;
    }

    /** The shared success path of `signin` and `signup`. */
    method Establish(res: AuthResponse, fallback: Profile)
      requires Truthy(res.token)
      modifies this
      ensures storedToken == res.token && authHeader == Some(BearerHeader(res.token.value))
      ensures user == Some(SessionUser(res, fallback)) && isAuthenticated
      ensures loading == old(loading)
    {
      storedToken := res.token;
      authHeader := Some(BearerHeader(res.token.value));
      user := Some(SessionUser(res, fallback));
      isAuthenticated := true;
    }

    /** `signin(credentials)`; `answer` is what `loginRequest` resolved or threw. */
    method Signin(credentials: Profile, answer: Result<AuthResponse, Error>) returns (r: Result<Option<AuthResponse>, Error>)
      modifies this
      ensures answer.Failure? ==> r == Failure(answer.error)
      ensures answer.Success? && !Truthy(answer.value.token) ==> r == Success(None)
      ensures !(answer.Success? && Truthy(answer.value.token)) ==>
        user == old(user) && isAuthenticated == old(isAuthenticated) && loading == old(loading)
        && storedToken == old(storedToken) && authHeader == old(authHeader)
      ensures answer.Success? && Truthy(answer.value.token) ==>
        && r == Success(Some(answer.value))
        && storedToken == answer.value.token && authHeader == Some(BearerHeader(answer.value.token.value))
        && user == Some(SessionUser(answer.value, credentials)) && isAuthenticated && loading == old(loading)
    {
      match answer {
        case Failure(e) => return Failure(e);
        case Success(res) =>
          if !Truthy(res.token) {
            return Success(None);
          }
          Establish(res, credentials);
          r := Success(Some(res));
      }
    }

    /** `signup(userData)`: the same rules, with the form as the fallback user. */
    method Signup(userData: Profile, answer: Result<AuthResponse, Error>) returns (r: Result<Option<AuthResponse>, Error>)
      modifies this
      ensures answer.Failure? ==> r == Failure(answer.error)
      ensures answer.Success? && !Truthy(answer.value.token) ==> r == Success(None)
      ensures !(answer.Success? && Truthy(answer.value.token)) ==>
        user == old(user) && isAuthenticated == old(isAuthenticated) && loading == old(loading)
        && storedToken == old(storedToken) && authHeader == old(authHeader)
      ensures answer.Success? && Truthy(answer.value.token) ==>
        && r == Success(Some(answer.value))
        && storedToken == answer.value.token && authHeader == Some(BearerHeader(answer.value.token.value))
        && user == Some(SessionUser(answer.value, userData)) && isAuthenticated && loading == old(loading)
    {
      match answer {
        case Failure(e) => return Failure(e);
        case Success(res) =>
          if !Truthy(res.token) {
            return Success(None);
          }
          Establish(res, userData);
          r := Success(Some(res));
      }
    }

    /** `logout` */
    method Logout()
      modifies this
      ensures storedToken.None? && authHeader.None? && user.None? && !isAuthenticated
      ensures loading == old(loading)
    {
      storedToken := None;
      authHeader := None;
      user := None;
      isAuthenticated := false;
    }
  }

  /** Against the auth service's own answer, which carries no `user`: a
      successful sign-in keeps the submitted credentials, password included,
      as the session user, and the header carries the service's token. */
  lemma SigninKeepsCredentials(reply: AuthService.AuthReply, credentials: Profile)
    ensures SessionUser(ClientView(reply), credentials) == credentials
    ensures Truthy(ClientView(reply).token) <==> reply.token != ""
  {
  }
}
