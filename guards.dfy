/** The two route guards: `authGuard` (a stored token is enough) and `profileGuard` (a profile
    must exist for the viewer, otherwise the viewer is sent to set one up or to log in). */
module Guards {
  import opened Wrappers
  import opened Models
  import opened Http
  import opened Js
  import opened Auth
  import opened Profiles

  const SetupProfileCommands: seq<string> := ["/setup-profile"]

  /** `authGuard`: whether navigation may proceed. The loaded user is consulted but both of its
      branches allow, so only the presence of a non-empty token decides. */
  function AuthGuardDecision(token: Option<string>, user: Option<User>): (allow: bool)
    ensures allow <==> OptTruthy(token)
  {
    if OptTruthy(token) then
      if user.Some? then true else true
    else false
  }

  /** Denying navigates to the login view; allowing changes nothing. The guard never touches the
      storage or the user (its frame is the router alone). */
  method AuthGuard(auth: AuthService) returns (allow: bool)
    modifies auth.router
    ensures allow == AuthGuardDecision(TokenIn(auth.storage.items), auth.currentUser)
    ensures auth.router.history == old(auth.router.history) + (if allow then [] else [LoginCommands])
  {
    var token := auth.storage.GetItem(AccessTokenKey);
    if OptTruthy(token) {
      if auth.currentUser.Some? {
        return true;
      }
      return true;
    }
    auth.router.Navigate(LoginCommands);
    return false;
  }

  /** What a `CanActivateFn` may answer: proceed, or redirect to a URL tree. */
  datatype GuardResult = Allow | RedirectTo(commands: seq<string>)

  /** `profileGuard` once the profile lookup has answered: a profile allows, a 404 leads to
      profile setup, any other failure (the interceptor's session-expired string included)
      leads to the login view. */
  function ProfileGuardOutcome(d: Delivered<ProfileSummary>): (g: GuardResult)
    ensures g == Allow <==> d.Next?
    ensures d.Error? && StatusOf(d.err) == Some(404) ==> g == RedirectTo(SetupProfileCommands)
    ensures d.Error? && StatusOf(d.err) != Some(404) ==> g == RedirectTo(LoginCommands)
  {
    match d
    case Next(_) => Allow
    case Error(e) =>
      if StatusOf(e) == Some(404) then RedirectTo(SetupProfileCommands) else RedirectTo(LoginCommands)
  }

  /** A 401 from the profile lookup redirects to the login view, never to profile setup. */
  lemma UnauthorizedProfileGoesToLogin(raw: Response<ApiResponse<ProfileSummary>>)
    requires IsUnauthorized(raw)
    ensures ProfileGuardOutcome(Unwrap(Deliver(raw))) == RedirectTo(LoginCommands)
  {
  }

  /** A cached profile allows at once, with no request; otherwise the guard asks for the profile
      of `getProfileId()` and decides on the answer. */
  method ProfileGuard(auth: AuthService, profiles: ProfileService, raw: Response<ApiResponse<ProfileSummary>>)
    returns (g: GuardResult)
    requires profiles.auth == auth
    modifies profiles.Env()
    ensures old(profiles.currentProfile).Some? ==>
      g == Allow && profiles.currentProfile == old(profiles.currentProfile) &&
      auth.http.sent == old(auth.http.sent) && auth.Reacted([])
    ensures old(profiles.currentProfile).None? ==>
      && g == ProfileGuardOutcome(Unwrap(Deliver(raw)))
      && auth.http.sent == old(auth.http.sent) + [Outgoing(ProfileRequest(old(auth.GetProfileId())), TokenIn(old(auth.storage.items)))]
      && profiles.currentProfile == (if raw.Ok? then Some(raw.value.data) else None)
      && auth.Reacted([IsUnauthorized(raw)])
    ensures auth.isLoading == old(auth.isLoading)
  {
    if profiles.currentProfile.Some? {
      return Allow;
    }
    var userId := auth.GetProfileId();
    var d := profiles.GetProfile(userId, raw);
    g := ProfileGuardOutcome(d);
  }

  /** A profile created by `createProfile` is cached, so the profile guard that follows allows
      the navigation at once, without asking the server again. */
  method CreateThenGuard(auth: AuthService, profiles: ProfileService, request: CreateProfileRequest,
                         createRaw: Response<Option<CreatedBody>>, created: string, updated: string,
                         guardRaw: Response<ApiResponse<ProfileSummary>>)
    returns (d: Delivered<string>, g: GuardResult)
    requires profiles.auth == auth
    modifies profiles.Env()
    ensures d == (match Deliver(createRaw) case Next(body) => CreatedId(body, request) case Error(e) => Error(e))
    ensures d.Next? ==>
      && g == Allow
      && profiles.currentProfile == Some(CachedProfile(request, created, updated))
      && auth.http.sent == old(auth.http.sent) + [Outgoing(CreateRequest(request), TokenIn(old(auth.storage.items)))]
  {
    d := profiles.CreateProfile(request, createRaw, created, updated);
    g := ProfileGuard(auth, profiles, guardRaw);
  }
}
