/** The viewer's profile and favourites (`ProfileService`). The backend identifies the profile
    from the bearer token, so the profile id the operations take never reaches the request. */
module Profiles {
  import opened Wrappers
  import opened Models
  import opened Http
  import opened Js
  import opened Auth

  const ProfileUrl: string := "/api/profiles"
  const FavoritesUrl: string := "/api/profiles/favorites"

  function ProfileRequest(id: string): Request {
    NewRequest(Get, ProfileUrl, [], NoBody)
  }

  function CreateRequest(request: CreateProfileRequest): Request {
    NewRequest(Post, ProfileUrl, [], ProfileBody(request))
  }

  function AddFavoriteRequest(profileId: string, movieId: string): Request {
    NewRequest(Post, FavoritesUrl, [], FavoriteBody(movieId))
  }

  function FavoritesRequest(profileId: string, page: int, pageSize: int): Request {
    NewRequest(Get, FavoritesUrl, [("page", IntToString(page)), ("pageSize", IntToString(pageSize))], NoBody)
  }

  function RemoveFavoriteRequest(profileId: string, movieId: string): Request {
    NewRequest(Delete, FavoritesUrl + "/" + movieId, [], NoBody)
  }

  /** The profile id never shapes a request: two viewers' calls differ only in their token. */
  lemma RequestsIgnoreProfileId(p: string, q: string, movieId: string, page: int, pageSize: int)
    ensures ProfileRequest(p) == ProfileRequest(q)
    ensures AddFavoriteRequest(p, movieId) == AddFavoriteRequest(q, movieId)
    ensures FavoritesRequest(p, page, pageSize) == FavoritesRequest(q, page, pageSize)
    ensures RemoveFavoriteRequest(p, movieId) == RemoveFavoriteRequest(q, movieId)
  {
  }

  /** Removing a favourite addresses the movie in the path; adding one names it in the body. */
  lemma FavoriteRequestsNameTheMovie(p: string, movieId: string)
    ensures AddFavoriteRequest(p, movieId).body == FavoriteBody(movieId)
    ensures StartsWith(RemoveFavoriteRequest(p, movieId).url, FavoritesUrl + "/")
    ensures RemoveFavoriteRequest(p, movieId).url[|FavoritesUrl| + 1..] == movieId
  {
  }

  /** `map(response => response.id || request.id)`: the id the creation answers; reading `id`
      of a `null` body is a `TypeError`. */
  function CreatedId(body: Option<CreatedBody>, request: CreateProfileRequest): (d: Delivered<string>)
    ensures d.Error? <==> body.None?
    ensures d.Error? ==> d.err == TypeError
    ensures body.Some? && OptTruthy(body.value.id) ==> d.value == body.value.id.value
    ensures body.Some? && !OptTruthy(body.value.id) ==> d.value == request.id
  {
    match body
    case None => Error(TypeError)
    case Some(b) => Next(OrElse(b.id, request.id))
  }

  /** The profile cached after a creation, from the request and two clock readings. */
  function CachedProfile(request: CreateProfileRequest, created: string, updated: string): (p: ProfileSummary)
    ensures p.id == request.id && p.userName == request.userName
    ensures OptTruthy(request.imageUrl) ==> p.imageUrl == request.imageUrl.value
    ensures !OptTruthy(request.imageUrl) ==> p.imageUrl == ""
  {
    ProfileSummary(request.id, request.userName, OrElse(request.imageUrl, ""), created, updated)
  }

  /** `items.map(movie => movie.id)`. */
  function Ids(movies: seq<MovieSummary>): (ids: seq<string>)
    ensures |ids| == |movies|
    ensures forall i :: 0 <= i < |movies| ==> ids[i] == movies[i].id
    decreases |movies|
  {
    if movies == [] then [] else [movies[0].id] + Ids(movies[1..])
  }

  /** A movie id is among the ids exactly when some listed movie has it. */
  lemma IdsMembership(movies: seq<MovieSummary>, id: string)
    ensures id in Ids(movies) <==> exists i :: 0 <= i < |movies| && movies[i].id == id
  {
    var ids := Ids(movies);
    if id in ids {
      var k :| 0 <= k < |ids| && ids[k] == id;
      assert movies[k].id == id;
    }
  }

  function FavoriteIds(d: Delivered<PagedList<MovieSummary>>): (r: Delivered<seq<string>>)
    ensures r.Next? <==> d.Next?
    ensures r.Error? ==> r.err == d.err
    ensures r.Next? ==> r.value == Ids(d.value.items)
  {
    match d
    case Next(page) => Next(Ids(page.items))
    case Error(e) => Error(e)
  }

  class ProfileService {
    const auth: AuthService
    var currentProfile: Option<ProfileSummary>

    ghost function Env(): set<object> {
      {this} + auth.Env()
    }

    constructor (auth: AuthService)
      ensures this.auth == auth && currentProfile == None
    {
      this.auth := auth;
      currentProfile := None;
    }

    /** `getProfile`: the cache is set to the profile returned, and left as it was on an error. */
    method GetProfile(id: string, raw: Response<ApiResponse<ProfileSummary>>) returns (d: Delivered<ProfileSummary>)
      modifies Env()
      ensures auth.http.sent == old(auth.http.sent) + [Outgoing(ProfileRequest(id), TokenIn(old(auth.storage.items)))]
      ensures d == Unwrap(Deliver(raw))
      ensures currentProfile == if d.Next? then Some(d.value) else old(currentProfile)
      ensures auth.isLoading == old(auth.isLoading) && auth.Reacted([IsUnauthorized(raw)])
    {
      var response := Intercept(auth, ProfileRequest(id), raw);
      d := Unwrap(response);
      if d.Next? {
        currentProfile := Some(d.value);
      }
    }

    /** `createProfile`: on success the id is answered and the cache holds the new profile. */
    method CreateProfile(request: CreateProfileRequest, raw: Response<Option<CreatedBody>>, created: string, updated: string)
      returns (d: Delivered<string>)
      modifies Env()
      ensures auth.http.sent == old(auth.http.sent) + [Outgoing(CreateRequest(request), TokenIn(old(auth.storage.items)))]
      ensures d == (match Deliver(raw) case Next(body) => CreatedId(body, request) case Error(e) => Error(e))
      ensures currentProfile == if d.Next? then Some(CachedProfile(request, created, updated)) else old(currentProfile)
      ensures auth.isLoading == old(auth.isLoading) && auth.Reacted([IsUnauthorized(raw)])
    {
      var response := Intercept(auth, CreateRequest(request), raw);
      match response
      case Error(e) =>
        d := Error(e);
      case Next(body) =>
        d := CreatedId(body, request);
        if d.Next? {
          currentProfile := Some(CachedProfile(request, created, updated));
        }
    }

    method AddFavorite(profileId: string, movieId: string, raw: Response<()>) returns (d: Delivered<()>)
      modifies Env()
      ensures auth.http.sent == old(auth.http.sent) + [Outgoing(AddFavoriteRequest(profileId, movieId), TokenIn(old(auth.storage.items)))]
      ensures d == Deliver(raw) && currentProfile == old(currentProfile)
      ensures auth.isLoading == old(auth.isLoading) && auth.Reacted([IsUnauthorized(raw)])
    {
      d := Intercept(auth, AddFavoriteRequest(profileId, movieId), raw);
    }

    method RemoveFavorite(profileId: string, movieId: string, raw: Response<()>) returns (d: Delivered<()>)
      modifies Env()
      ensures auth.http.sent == old(auth.http.sent) + [Outgoing(RemoveFavoriteRequest(profileId, movieId), TokenIn(old(auth.storage.items)))]
      ensures d == Deliver(raw) && currentProfile == old(currentProfile)
      ensures auth.isLoading == old(auth.isLoading) && auth.Reacted([IsUnauthorized(raw)])
    {
      d := Intercept(auth, RemoveFavoriteRequest(profileId, movieId), raw);
    }

    /** `getFavorites`, page 1 of 20 unless told otherwise. */
    method GetFavorites(profileId: string, raw: Response<ApiResponse<PagedList<MovieSummary>>>, page: int := 1, pageSize: int := 20)
      returns (d: Delivered<PagedList<MovieSummary>>)
      modifies Env()
      ensures auth.http.sent == old(auth.http.sent) + [Outgoing(FavoritesRequest(profileId, page, pageSize), TokenIn(old(auth.storage.items)))]
      ensures d == Unwrap(Deliver(raw)) && currentProfile == old(currentProfile)
      ensures auth.isLoading == old(auth.isLoading) && auth.Reacted([IsUnauthorized(raw)])
    {
      var response := Intercept(auth, FavoritesRequest(profileId, page, pageSize), raw);
      d := Unwrap(response);
    }

    /** `getFavoriteMovieIds`: the ids of the first 100 favourites. */
    method GetFavoriteMovieIds(profileId: string, raw: Response<ApiResponse<PagedList<MovieSummary>>>)
      returns (d: Delivered<seq<string>>)
      modifies Env()
      ensures auth.http.sent == old(auth.http.sent) + [Outgoing(FavoritesRequest(profileId, 1, 100), TokenIn(old(auth.storage.items)))]
      ensures d == FavoriteIds(Unwrap(Deliver(raw))) && currentProfile == old(currentProfile)
      ensures auth.isLoading == old(auth.isLoading) && auth.Reacted([IsUnauthorized(raw)])
    {
      var page := GetFavorites(profileId, raw, 1, 100);
      d := FavoriteIds(page);
    }
  }
}
