/** The session: the stored token pair, the signed-in user, login, registration, logout and
    session restore (`AuthService`), and the HTTP interceptor every remote call goes through:
    it attaches the bearer token when one is stored and turns a 401 into a forced logout. */
module Auth {
  import opened Wrappers
  import opened Models
  import opened Http
  import opened Js
  import opened Browser

  const AccessTokenKey: string := "access_token"
  const RefreshTokenKey: string := "refresh_token"
  const AuthUrl: string := "/api/auth"
  const HomeCommands: seq<string> := ["/home"]
  const LoginCommands: seq<string> := ["/auth/login"]
  const DefaultErrorMessage: string := "Ocorreu um erro inesperado."
  const SessionExpiredMessage: string := "Sessão expirada. Faça login novamente."
  const IdClaim: string := "Id"
  const EmailClaim: string := "http://schemas.xmlsoap.org/ws/2005/05/identity/claims/emailaddress"
  const AuthorizationHeader: string := "Authorization"

  /** The JSON object a token payload decodes to (string-valued claims only). */
  type Claims = map<string, string>

  /** `localStorage.getItem('access_token')` over a snapshot of the storage. */
  function TokenIn(items: map<string, string>): (t: Option<string>)
    ensures t.Some? <==> AccessTokenKey in items
  {
    if AccessTokenKey in items then Some(items[AccessTokenKey]) else None
  }

  /** The storage after both keys of the token pair are removed. */
  function WithoutTokens(items: map<string, string>): (r: map<string, string>)
    ensures AccessTokenKey !in r && RefreshTokenKey !in r
    ensures forall k :: k != AccessTokenKey && k != RefreshTokenKey ==>
      (k in r <==> k in items) && (k in r ==> r[k] == items[k])
  {
    items - {AccessTokenKey, RefreshTokenKey}
  }

  /** Removing the token pair twice is removing it once. */
  lemma WithoutTokensIdempotent(items: map<string, string>)
    ensures WithoutTokens(WithoutTokens(items)) == WithoutTokens(items)
  {
  }

  /** `handleError`: the message a failed login or registration ends with. */
  function ErrorMessage(e: CallerError): (m: string)
    ensures e.HttpError? && e.error.Some? && e.error.value.errors.Some? ==>
      m == Join(e.error.value.errors.value, "<br>")
    ensures e.HttpError? && e.error.Some? && e.error.value.errors.None? && OptTruthy(e.error.value.message) ==>
      m == e.error.value.message.value
    ensures !(e.HttpError? && e.error.Some? && (e.error.value.errors.Some? || OptTruthy(e.error.value.message))) ==>
      m == DefaultErrorMessage
  {
    if e.HttpError? && e.error.Some? then
      var body := e.error.value;
      if body.errors.Some? then Join(body.errors.value, "<br>")
      else if OptTruthy(body.message) then body.message.value
      else DefaultErrorMessage
    else DefaultErrorMessage
  }

  /** The `errors` array wins over `message`, and the status code plays no part. */
  lemma ErrorsWinOverMessage(s1: int, s2: int, errors: seq<string>, m1: Option<string>, m2: Option<string>)
    ensures ErrorMessage(HttpError(s1, Some(ErrorBody(Some(errors), m1))))
         == ErrorMessage(HttpError(s2, Some(ErrorBody(Some(errors), m2))))
  {
  }

  /** `getProfileId`: the user's id when it is a non-empty string, otherwise `""`. */
  function ProfileIdOf(user: Option<User>): (id: string)
    ensures user.Some? && OptTruthy(user.value.id) ==> id == user.value.id.value
    ensures !(user.Some? && OptTruthy(user.value.id)) ==> id == ""
  {
    if user.Some? then OrElse(user.value.id, "") else ""
  }

  /** `String.prototype.split` on one separator character. */
  function Split(s: string, sep: char): (parts: seq<string>)
    ensures |parts| >= 1
    ensures |parts| == 1 <==> sep !in s
    ensures forall i, j :: 0 <= i < |parts| && 0 <= j < |parts[i]| ==> parts[i][j] != sep
    decreases |s|
  {
    if s == [] then [""]
    else
      var rest := Split(s[1..], sep);
      if s[0] == sep then [""] + rest
      else [[s[0]] + rest[0]] + rest[1..]
  }

  /** Joining the parts of a split with the separator gives back the string. */
  lemma {:induction false} SplitJoin(s: string, sep: char)
    ensures Join(Split(s, sep), [sep]) == s
    decreases |s|
  {
    if s != [] {
      var rest := Split(s[1..], sep);
      SplitJoin(s[1..], sep);
      if s[0] == sep {
        assert Split(s, sep) == [""] + rest;
        assert ([""] + rest)[1..] == rest;
      } else {
        var parts := [[s[0]] + rest[0]] + rest[1..];
        assert Split(s, sep) == parts;
        if |rest| == 1 {
          assert s[1..] == rest[0];
        } else {
          assert parts[1..] == rest[1..];
          assert Join(rest, [sep]) == rest[0] + [sep] + Join(rest[1..], [sep]);
        }
      }
    }
  }

  /** Splitting `h + [sep] + t`, with no separator in `h`, gives `h` followed by the parts of
      `t`. */
  lemma {:induction false} SplitAfterPart(h: string, t: string, sep: char)
    requires sep !in h
    ensures Split(h + [sep] + t, sep) == [h] + Split(t, sep)
    decreases |h|
  {
    if h == [] {
      assert h + [sep] + t == [sep] + t;
      assert ([sep] + t)[1..] == t;
    } else {
      SplitAfterPart(h[1..], t, sep);
      assert (h + [sep] + t)[1..] == h[1..] + [sep] + t;
      assert [h[0]] + h[1..] == h;
    }
  }

  /** The first part of `p + rest` is `p` when `p` holds no separator and `rest` is empty or
      starts with one. */
  lemma {:induction false} SplitFirstPart(p: string, rest: string, sep: char)
    requires sep !in p
    requires rest == [] || rest[0] == sep
    ensures Split(p + rest, sep)[0] == p
    decreases |p|
  {
    if p == [] {
      assert p + rest == rest;
    } else {
      SplitFirstPart(p[1..], rest, sep);
      assert (p + rest)[1..] == p[1..] + rest;
      assert [p[0]] + p[1..] == p;
    }
  }

  /** `token.split('.')[1]`: the payload segment of a compact token. It exists exactly when the
      token holds a `.`, and it holds none itself. */
  function PayloadSegment(token: string): (seg: Option<string>)
    ensures seg.Some? <==> '.' in token
    ensures seg.Some? ==> forall j :: 0 <= j < |seg.value| ==> seg.value[j] != '.'
  {
    var parts := Split(token, '.');
    if |parts| >= 2 then Some(parts[1]) else None
  }

  /** In a token `header.payload` or `header.payload.signature` the segment read is the
      payload. */
  lemma PayloadOfCompact(h: string, p: string, rest: string)
    requires '.' !in h && '.' !in p
    requires rest == [] || rest[0] == '.'
    ensures PayloadSegment(h + "." + p + rest) == Some(p)
  {
    assert h + "." + p + rest == h + ['.'] + (p + rest);
    SplitAfterPart(h, p + rest, '.');
    SplitFirstPart(p, rest, '.');
  }

  /** `checkToken`: the user after a session restore from the stored token, given the
      decoder (`atob` followed by `JSON.parse`) that may fail. */
  function RestoredUser(token: Option<string>, decode: string -> Option<Claims>, current: Option<User>): (u: Option<User>)
    ensures !OptTruthy(token) ==> u == current
    ensures OptTruthy(token) && PayloadSegment(token.value).None? ==> u == current
    ensures OptTruthy(token) && PayloadSegment(token.value).Some? && decode(PayloadSegment(token.value).value).None? ==>
      u == current
    ensures OptTruthy(token) && PayloadSegment(token.value).Some? && decode(PayloadSegment(token.value).value).Some? ==>
      var claims := decode(PayloadSegment(token.value).value).value;
      && (EmailClaim in claims && claims[EmailClaim] != "" ==>
            && u.Some? && u.value.email == Some(claims[EmailClaim]) && u.value.name.None?
            && (IdClaim in claims ==> u.value.id == Some(claims[IdClaim]))
            && (IdClaim !in claims ==> u.value.id.None?))
      && (!(EmailClaim in claims && claims[EmailClaim] != "") ==> u == current)
    ensures u != current ==> u.Some? && u.value.name.None? && OptTruthy(u.value.email)
  {
    if !OptTruthy(token) then current
    else
      match PayloadSegment(token.value)
      case None => current
      case Some(seg) =>
        match decode(seg)
        case None => current
        case Some(claims) =>
          if EmailClaim in claims && claims[EmailClaim] != "" then
            Some(User(if IdClaim in claims then Some(claims[IdClaim]) else None, Some(claims[EmailClaim]), None))
          else current
  }

  /** A stored compact token `header.payload.signature` restores from its decoded payload: an
      undecodable payload or one without a non-empty email claim keeps the user, one with it
      signs in that email. */
  lemma RestoreCompact(h: string, p: string, sig: string, decode: string -> Option<Claims>, current: Option<User>)
    requires '.' !in h && '.' !in p
    ensures decode(p).None? ==> RestoredUser(Some(h + "." + p + "." + sig), decode, current) == current
    ensures decode(p).Some? && EmailClaim in decode(p).value && decode(p).value[EmailClaim] != "" ==>
      RestoredUser(Some(h + "." + p + "." + sig), decode, current).Some? &&
      RestoredUser(Some(h + "." + p + "." + sig), decode, current).value.email == Some(decode(p).value[EmailClaim])
    ensures decode(p).Some? && !(EmailClaim in decode(p).value && decode(p).value[EmailClaim] != "") ==>
      RestoredUser(Some(h + "." + p + "." + sig), decode, current) == current
  {
    PayloadOfCompact(h, p, "." + sig);
    assert h + "." + p + "." + sig == h + "." + p + ("." + sig);
  }

  /** A token without any `.` has no payload (`atob(undefined)` throws), so the user is kept. */
  lemma RestoreWithoutDot(token: string, decode: string -> Option<Claims>, current: Option<User>)
    requires '.' !in token
    ensures RestoredUser(Some(token), decode, current) == current
  {
  }

  /** Restoring the session twice from the same token gives the user of restoring once. */
  lemma RestoreIdempotent(token: Option<string>, decode: string -> Option<Claims>, current: Option<User>)
    ensures RestoredUser(token, decode, RestoredUser(token, decode, current)) == RestoredUser(token, decode, current)
  {
  }

  /** The request as the interceptor forwards it: with `Authorization: Bearer <token>` when the
      stored token is truthy, untouched otherwise. */
  function Outgoing(req: Request, token: Option<string>): (r: Request)
    ensures !OptTruthy(token) ==> r == req
    ensures OptTruthy(token) ==>
      && r.verb == req.verb && r.url == req.url && r.params == req.params && r.body == req.body
      && HeaderValue(r.headers, AuthorizationHeader) == Some("Bearer " + token.value)
      && forall h :: h != AuthorizationHeader ==> HeaderValue(r.headers, h) == HeaderValue(req.headers, h)
  {
    if OptTruthy(token) then req.(headers := SetHeader(req.headers, AuthorizationHeader, "Bearer " + token.value))
    else req
  }

  /** What the subscriber of a call receives after the interceptor: a success untouched, a
      non-401 error rethrown as it is, a 401 replaced by the session-expired message. A 401
      status never reaches a subscriber. */
  function Deliver<T>(raw: Response<T>): (d: Delivered<T>)
    ensures d.Next? <==> raw.Ok?
    ensures raw.Ok? ==> d.value == raw.value
    ensures raw.Fail? && raw.status != 401 ==> d.err == HttpError(raw.status, raw.error)
    ensures IsUnauthorized(raw) ==> d.err == Thrown(SessionExpiredMessage)
    ensures !(d.Error? && StatusOf(d.err) == Some(401))
  {
    match raw
    case Ok(v) => Next(v)
    case Fail(status, error) =>
      if status == 401 then Error(Thrown(SessionExpiredMessage)) else Error(HttpError(status, error))
  }

  /** A login or registration that meets a 401 ends with the generic message: the
      interceptor's string error has no `error` field for `handleError` to read. */
  lemma UnauthorizedAuthMessage<T>(raw: Response<T>)
    requires IsUnauthorized(raw)
    ensures ErrorMessage(Deliver(raw).err) == DefaultErrorMessage
  {
  }

  function CountTrue(flags: seq<bool>): nat
    decreases |flags|
  {
    if flags == [] then 0 else (if flags[0] then 1 else 0) + CountTrue(flags[1..])
  }

  function Repeat<T>(x: T, n: nat): (r: seq<T>)
    ensures |r| == n
    ensures forall i :: 0 <= i < n ==> r[i] == x
    decreases n
  {
    if n == 0 then [] else [x] + Repeat(x, n - 1)
  }

  lemma CountTrueAppend(a: seq<bool>, b: seq<bool>)
    ensures CountTrue(a + b) == CountTrue(a) + CountTrue(b)
    decreases |a|
  {
    if a == [] {
      assert a + b == b;
    } else {
      assert (a + b)[1..] == a[1..] + b;
      CountTrueAppend(a[1..], b);
    }
  }

  lemma CountTrueSingle(flag: bool)
    ensures CountTrue([flag]) == if flag then 1 else 0
  {
    assert [flag][1..] == [];
  }

  lemma RepeatAppend<T>(x: T, m: nat, n: nat)
    ensures Repeat(x, m) + Repeat(x, n) == Repeat(x, m + n)
  {
  }

  /** What a 401 can change: the stored items, the user and the navigations made. */
  datatype Session = Session(items: map<string, string>, user: Option<User>, history: seq<seq<string>>)

  /** The effect on the session of a series of responses, `true` marking a 401: none leaves
      the session alone; each 401 forces a logout. */
  predicate SessionReaction(before: Session, after: Session, unauthorized: seq<bool>) {
    var n := CountTrue(unauthorized);
    if n == 0 then after == before
    else after == Session(WithoutTokens(before.items), None, before.history + Repeat(LoginCommands, n))
  }

  /** The reactions to two series of responses, one after the other, are the reaction to both. */
  lemma ReactionCompose(s0: Session, s1: Session, s2: Session, a: seq<bool>, b: seq<bool>)
    requires SessionReaction(s0, s1, a) && SessionReaction(s1, s2, b)
    ensures SessionReaction(s0, s2, a + b)
  {
    CountTrueAppend(a, b);
    RepeatAppend(LoginCommands, CountTrue(a), CountTrue(b));
    WithoutTokensIdempotent(s0.items);
    if CountTrue(a) > 0 && CountTrue(b) > 0 {
      assert s0.history + Repeat(LoginCommands, CountTrue(a)) + Repeat(LoginCommands, CountTrue(b)) ==
        s0.history + Repeat(LoginCommands, CountTrue(a) + CountTrue(b));
    }
  }

  class AuthService {
    const storage: LocalStorage
    const router: Router
    const http: Network
    var currentUser: Option<User>
    var isLoading: bool

    /** The objects an operation of the session may change. */
    ghost function Env(): set<object> {
      {this, storage, router, http}
    }

    function Snapshot(): Session
      reads this, storage, router
    {
      Session(storage.items, currentUser, router.history)
    }

    /** The session reacted to a series of responses since the previous state. */
    twostate predicate Reacted(unauthorized: seq<bool>)
      reads this, storage, router
    {
      SessionReaction(old(Snapshot()), Snapshot(), unauthorized)
    }

    /** The service is created at start-up, where it restores the session from storage. */
    constructor (storage: LocalStorage, router: Router, http: Network, decode: string -> Option<Claims>)
      ensures this.storage == storage && this.router == router && this.http == http
      ensures !isLoading
      ensures currentUser == RestoredUser(TokenIn(storage.items), decode, None)
    {
      this.storage := storage;
      this.router := router;
      this.http := http;
      currentUser := None;
      isLoading := false;
      new;
      CheckToken(decode);
    }

    function GetProfileId(): string
      reads this
    {
      ProfileIdOf(currentUser)
    }

    method Login(credentials: LoginRequest, raw: Response<ApiResponse<TokenResponse>>)
      returns (r: Result<TokenResponse, string>)
      modifies Env()
      ensures http.sent == old(http.sent) +
        [Outgoing(NewRequest(Post, AuthUrl + "/login", [], LoginBody(credentials)), TokenIn(old(storage.items)))]
      ensures !isLoading
      ensures raw.Ok? ==> r == Success(raw.value.data) && SignedIn(raw.value.data, credentials.email, None)
      ensures raw.Fail? ==> r == Failure(ErrorMessage(Deliver(raw).err)) && Reacted([IsUnauthorized(raw)])
    {
      r := Authenticate(AuthUrl + "/login", LoginBody(credentials), credentials.email, None, raw);
    }

    method Register(data: RegisterRequest, raw: Response<ApiResponse<TokenResponse>>)
      returns (r: Result<TokenResponse, string>)
      modifies Env()
      ensures http.sent == old(http.sent) +
        [Outgoing(NewRequest(Post, AuthUrl + "/register", [], RegisterBody(data)), TokenIn(old(storage.items)))]
      ensures !isLoading
      ensures raw.Ok? ==> r == Success(raw.value.data) && SignedIn(raw.value.data, data.email, Some(data.userName))
      ensures raw.Fail? ==> r == Failure(ErrorMessage(Deliver(raw).err)) && Reacted([IsUnauthorized(raw)])
    {
      r := Authenticate(AuthUrl + "/register", RegisterBody(data), data.email, Some(data.userName), raw);
    }

    /** The state after a successful login or registration: the token pair stored, the user
        set from the submitted credentials, a navigation to the home view. */
    twostate predicate SignedIn(tokens: TokenResponse, email: string, name: Option<string>)
      reads this, storage, router
    {
      && storage.items == old(storage.items)[AccessTokenKey := tokens.accessToken][RefreshTokenKey := tokens.refreshToken]
      && currentUser == Some(User(None, Some(email), name))
      && router.history == old(router.history) + [HomeCommands]
    }

    /** The pipeline `login` and `register` share. */
    method Authenticate(url: string, body: Body, email: string, name: Option<string>, raw: Response<ApiResponse<TokenResponse>>)
      returns (r: Result<TokenResponse, string>)
      modifies Env()
      ensures http.sent == old(http.sent) + [Outgoing(NewRequest(Post, url, [], body), TokenIn(old(storage.items)))]
      ensures !isLoading
      ensures raw.Ok? ==> r == Success(raw.value.data) && SignedIn(raw.value.data, email, name)
      ensures raw.Fail? ==> r == Failure(ErrorMessage(Deliver(raw).err)) && Reacted([IsUnauthorized(raw)])
    {
      isLoading := true;
      Send(this, NewRequest(Post, url, [], body));
      var d := Receive(this, raw);
      CountTrueSingle(IsUnauthorized(raw));
      match d
      case Next(response) =>
        HandleAuthSuccess(response.data, email, name);
        isLoading := false;
        r := Success(response.data);
      case Error(e) =>
        var message := HandleError(e);
        r := Failure(message);
    }

    method HandleAuthSuccess(response: TokenResponse, email: string, name: Option<string>)
      modifies this, storage, router
      ensures storage.items == old(storage.items)[AccessTokenKey := response.accessToken][RefreshTokenKey := response.refreshToken]
      ensures currentUser == Some(User(None, Some(email), name))
      ensures isLoading == old(isLoading)
      ensures router.history == old(router.history) + [HomeCommands]
    {
      storage.SetItem(AccessTokenKey, response.accessToken);
      storage.SetItem(RefreshTokenKey, response.refreshToken);
      currentUser := Some(User(None, Some(email), name));
      router.Navigate(HomeCommands);
    }

    method HandleError(e: CallerError) returns (message: string)
      modifies this
      ensures message == ErrorMessage(e)
      ensures !isLoading && currentUser == old(currentUser)
    {
      isLoading := false;
      message := ErrorMessage(e);
    }

    /** Removes the token pair, clears the user and navigates to the login view; the profile
        cache is not touched (it belongs to another service). */
    method Logout()
      modifies this, storage, router
      ensures storage.items == WithoutTokens(old(storage.items))
      ensures currentUser == None && isLoading == old(isLoading)
      ensures router.history == old(router.history) + [LoginCommands]
    {
      storage.RemoveItem(AccessTokenKey);
      storage.RemoveItem(RefreshTokenKey);
      currentUser := None;
      router.Navigate(LoginCommands);
    }

    method CheckToken(decode: string -> Option<Claims>)
      modifies this
      ensures currentUser == RestoredUser(TokenIn(storage.items), decode, old(currentUser))
      ensures isLoading == old(isLoading)
    {
      var token := storage.GetItem(AccessTokenKey);
      if !OptTruthy(token) {
        return;
      }
      var payload := PayloadSegment(token.value);
      if payload.None? {
        return;   // atob of a missing segment throws; the error is only logged
      }
      var decoded := decode(payload.value);
      if decoded.None? {
        return;   // invalid base64 or JSON; the error is only logged
      }
      var claims := decoded.value;
      var id := if IdClaim in claims then Some(claims[IdClaim]) else None;
      var email := if EmailClaim in claims then Some(claims[EmailClaim]) else None;
      if OptTruthy(email) {
        currentUser := Some(User(id, email, None));
      }
    }
  }

  // --- auth.interceptor.ts ---

  /** The request half of the interceptor: the request leaves with the bearer header when a
      truthy token is stored. */
  method Send(auth: AuthService, req: Request)
    modifies auth.http
    ensures auth.http.sent == old(auth.http.sent) + [Outgoing(req, TokenIn(auth.storage.items))]
  {
    var token := auth.storage.GetItem(AccessTokenKey);
    auth.http.Transmit(Outgoing(req, token));
  }

  /** The response half of the interceptor: a 401 logs out before the subscriber receives the
      session-expired message; anything else passes through. */
  method Receive<T>(auth: AuthService, raw: Response<T>) returns (d: Delivered<T>)
    modifies auth, auth.storage, auth.router
    ensures d == Deliver(raw)
    ensures auth.isLoading == old(auth.isLoading)
    ensures auth.Reacted([IsUnauthorized(raw)])
  {
    if IsUnauthorized(raw) {
      auth.Logout();
    }
    d := Deliver(raw);
  }

  /** One call through the interceptor: send, then receive the server's answer. */
  method Intercept<T>(auth: AuthService, req: Request, raw: Response<T>) returns (d: Delivered<T>)
    modifies auth.Env()
    ensures auth.http.sent == old(auth.http.sent) + [Outgoing(req, TokenIn(old(auth.storage.items)))]
    ensures d == Deliver(raw)
    ensures auth.isLoading == old(auth.isLoading)
    ensures auth.Reacted([IsUnauthorized(raw)])
  {
    Send(auth, req);
    d := Receive(auth, raw);
  }
}
