/** The sign-in page (`LoginComponent`): a valid form logs in; a failure shows the service's
    message. */
module LoginView {
  import opened Wrappers
  import opened Models
  import opened Http
  import opened Auth
  import Guards

  const MinPasswordLength: int := 6

  /** The form's validators: a required email the email validator `isEmail` accepts, and a
      required password of at least six characters. */
  predicate LoginValid(email: string, password: string, isEmail: string -> bool) {
    email != "" && isEmail(email) && password != "" && |password| >= MinPasswordLength
  }

  /** The message the page shows after a submission that reached the service. */
  function SubmitMessage(r: Result<TokenResponse, string>): (m: string)
    ensures r.Success? ==> m == ""
    ensures r.Failure? ==> m == r.error
  {
    if r.Failure? then r.error else ""
  }

  /** After a successful sign-in the route guard lets the user in exactly when the server
      issued a non-empty access token. */
  lemma SignedInPassesGuard(items: map<string, string>, tokens: TokenResponse, email: string)
    ensures Guards.AuthGuardDecision(
              TokenIn(items[AccessTokenKey := tokens.accessToken][RefreshTokenKey := tokens.refreshToken]),
              Some(User(None, Some(email), None)))
            <==> tokens.accessToken != ""
  {
    assert AccessTokenKey != RefreshTokenKey;
  }

  class LoginComponent {
    const auth: AuthService
    var errorMessage: string
    var email: string
    var password: string

    ghost function Env(): set<object> {
      {this} + auth.Env()
    }

    constructor (auth: AuthService)
      ensures this.auth == auth && errorMessage == "" && email == "" && password == ""
    {
      this.auth := auth;
      errorMessage := "";
      email := "";
      password := "";
    }

    /** `onSubmit`: an invalid form does nothing; a valid one clears the message and logs in,
        and a failed login's message is shown. */
    method OnSubmit(isEmail: string -> bool, raw: Response<ApiResponse<TokenResponse>>)
      modifies Env()
      ensures !LoginValid(old(email), old(password), isEmail) ==> unchanged(Env())
      ensures LoginValid(old(email), old(password), isEmail) ==>
        && auth.http.sent == old(auth.http.sent) +
             [Outgoing(NewRequest(Post, AuthUrl + "/login", [], LoginBody(LoginRequest(email, password))), TokenIn(old(auth.storage.items)))]
        && (raw.Ok? ==> errorMessage == "" && auth.SignedIn(raw.value.data, email, None))
        && (raw.Fail? ==> errorMessage == ErrorMessage(Deliver(raw).err) && auth.Reacted([IsUnauthorized(raw)]))
        && !auth.isLoading
      ensures email == old(email) && password == old(password)
    {
      if !LoginValid(email, password, isEmail) {
        return;
      }
      errorMessage := "";
      var r := auth.Login(LoginRequest(email, password), raw);
      errorMessage := SubmitMessage(r);
    }
  }
}

/** The sign-up page (`RegisterComponent`): as the sign-in page, with a user name. */
module RegisterView {
  import opened Wrappers
  import opened Models
  import opened Http
  import opened Auth
  import LoginView

  /** The form's validators: a required user name, and the sign-in form's rules. */
  predicate RegisterValid(userName: string, email: string, password: string, isEmail: string -> bool) {
    userName != "" && LoginView.LoginValid(email, password, isEmail)
  }

  /** A registration is held to the sign-in rules and more: a form that registers would also
      sign in, and one with an empty name never registers. */
  lemma RegisterStricter(userName: string, email: string, password: string, isEmail: string -> bool)
    ensures RegisterValid(userName, email, password, isEmail) ==> LoginView.LoginValid(email, password, isEmail)
    ensures userName == "" ==> !RegisterValid(userName, email, password, isEmail)
    ensures userName != "" ==> (RegisterValid(userName, email, password, isEmail) <==> LoginView.LoginValid(email, password, isEmail))
  {
  }

  class RegisterComponent {
    const auth: AuthService
    var errorMessage: string
    var userName: string
    var email: string
    var password: string

    ghost function Env(): set<object> {
      {this} + auth.Env()
    }

    constructor (auth: AuthService)
      ensures this.auth == auth && errorMessage == "" && userName == "" && email == "" && password == ""
    {
      this.auth := auth;
      errorMessage := "";
      userName := "";
      email := "";
      password := "";
    }

    /** `onSubmit`: an invalid form does nothing; a valid one clears the message and registers;
        success signs the new user in under the chosen name, failure shows its message. */
    method OnSubmit(isEmail: string -> bool, raw: Response<ApiResponse<TokenResponse>>)
      modifies Env()
      ensures !RegisterValid(old(userName), old(email), old(password), isEmail) ==> unchanged(Env())
      ensures RegisterValid(old(userName), old(email), old(password), isEmail) ==>
        && auth.http.sent == old(auth.http.sent) +
             [Outgoing(NewRequest(Post, AuthUrl + "/register", [], RegisterBody(RegisterRequest(userName, email, password))),
                       TokenIn(old(auth.storage.items)))]
        && (raw.Ok? ==> errorMessage == "" && auth.SignedIn(raw.value.data, email, Some(userName)))
        && (raw.Fail? ==> errorMessage == ErrorMessage(Deliver(raw).err) && auth.Reacted([IsUnauthorized(raw)]))
        && !auth.isLoading
      ensures userName == old(userName) && email == old(email) && password == old(password)
    {
      if !RegisterValid(userName, email, password, isEmail) {
        return;
      }
      errorMessage := "";
      var r := auth.Register(RegisterRequest(userName, email, password), raw);
      errorMessage := LoginView.SubmitMessage(r);
    }
  }
}
