/** The movie page (`MovieDetailsComponent`): the movie and its favourite state are loaded
    together, and the favourite button adds or removes the movie, reconciling with the server
    when an addition is refused as a duplicate. */
module MovieDetailsView {
  import opened Wrappers
  import opened Models
  import opened Http
  import opened Js
  import opened Auth
  import opened Profiles

  /** `catchError(() => of([]))` on the favourite ids: a failed lookup counts as no favourites. */
  function IdsOrNone(d: Delivered<seq<string>>): (ids: seq<string>)
    ensures d.Next? ==> ids == d.value
    ensures d.Error? ==> ids == []
  {
    if d.Next? then d.value else []
  }

  /** The movie is favourited after loading exactly when a successful favourites lookup lists
      it; a failed lookup leaves it not favourited. */
  lemma FavoritedAfterLoad(movieId: string, d: Delivered<PagedList<MovieSummary>>)
    ensures movieId in IdsOrNone(FavoriteIds(d)) <==>
      d.Next? && exists i :: 0 <= i < |d.value.items| && d.value.items[i].id == movieId
  {
    if d.Next? {
      IdsMembership(d.value.items, movieId);
    }
  }

  /** `isFavorited` once the toggle's request answered `d`: success flips it; a 409 while not
      favourited means the movie was already a favourite; any other error keeps it. */
  function Toggled(favorited: bool, d: Delivered<()>): (f: bool)
    ensures d.Next? ==> f == !favorited
    ensures d.Error? && StatusOf(d.err) == Some(409) && !favorited ==> f
    ensures d.Error? && !(StatusOf(d.err) == Some(409) && !favorited) ==> f == favorited
  {
    match d
    case Next(_) => !favorited
    case Error(e) => if StatusOf(e) == Some(409) && !favorited then true else favorited
  }

  /** A failed toggle never clears the flag, and the session-expired error (a 401 turned into a
      plain string) never sets it. */
  lemma ToggleFailures(favorited: bool, raw: Response<()>)
    requires raw.Fail?
    ensures favorited ==> Toggled(favorited, Deliver(raw))
    ensures Toggled(favorited, Deliver(raw)) != favorited <==> raw.status == 409 && !favorited
  {
  }

  /** Two successful toggles come back to the starting state. */
  lemma ToggleTwice(favorited: bool)
    ensures Toggled(Toggled(favorited, Next(())), Next(())) == favorited
  {
  }

  class MovieDetailsComponent {
    const auth: AuthService
    const profiles: ProfileService
    var movie: Option<MovieDetails>
    var isLoading: bool
    var isFavoriteLoading: bool
    var isFavorited: bool
    var movieId: Option<string>

    ghost function Env(): set<object> {
      {this} + profiles.Env()
    }

    constructor (auth: AuthService, profiles: ProfileService)
      requires profiles.auth == auth
      ensures this.auth == auth && this.profiles == profiles
      ensures movie == None && isLoading && !isFavoriteLoading && !isFavorited && movieId == None
    {
      this.auth := auth;
      this.profiles := profiles;
      movie := None;
      isLoading := true;
      isFavoriteLoading := false;
      isFavorited := false;
      movieId := None;
    }

    /** `ngOnInit`: with an `id` route parameter, the ids of the viewer's favourites are
        requested and, once the movie `details` and the ids are both in, the movie is shown and
        its favourite state set. Without one nothing is requested and the page keeps loading. */
    method NgOnInit(idParam: Option<string>, favorites: Response<ApiResponse<PagedList<MovieSummary>>>,
                    details: Delivered<MovieDetails>)
      requires profiles.auth == auth
      modifies Env()
      ensures movieId == idParam
      ensures !OptTruthy(idParam) ==>
        && movie == old(movie) && isLoading == old(isLoading) && isFavorited == old(isFavorited)
        && auth.http.sent == old(auth.http.sent) && auth.Reacted([])
      ensures OptTruthy(idParam) ==>
        && auth.http.sent == old(auth.http.sent) +
             [Outgoing(FavoritesRequest(old(auth.GetProfileId()), 1, 100), TokenIn(old(auth.storage.items)))]
        && !isLoading
        && movie == (if details.Next? then Some(details.value) else old(movie))
        && isFavorited == (if details.Next? then idParam.value in IdsOrNone(FavoriteIds(Unwrap(Deliver(favorites)))) else old(isFavorited))
        && auth.Reacted([IsUnauthorized(favorites)])
      ensures isFavoriteLoading == old(isFavoriteLoading)
      ensures profiles.currentProfile == old(profiles.currentProfile) && auth.isLoading == old(auth.isLoading)
    {
      movieId := idParam;
      if !OptTruthy(movieId) {
        return;
      }
      isLoading := true;
      var profileId := auth.GetProfileId();
      var ids := profiles.GetFavoriteMovieIds(profileId, favorites);
      var favoriteIds := IdsOrNone(ids);
      match details
      case Next(m) =>
        movie := Some(m);
        isFavorited := movieId.value in favoriteIds;
        isLoading := false;
      case Error(_) =>
        isLoading := false;
    }

    /** `toggleFavorite`: without a movie nothing happens; otherwise the favourite is removed
        or added, and the flag settles on the answer. */
    method ToggleFavorite(raw: Response<()>)
      requires profiles.auth == auth
      modifies Env()
      ensures !OptTruthy(movieId) ==>
        && isFavorited == old(isFavorited) && isFavoriteLoading == old(isFavoriteLoading)
        && auth.http.sent == old(auth.http.sent) && auth.Reacted([])
      ensures OptTruthy(movieId) ==>
        && auth.http.sent == old(auth.http.sent) +
             [Outgoing(if old(isFavorited) then RemoveFavoriteRequest(old(auth.GetProfileId()), movieId.value)
                       else AddFavoriteRequest(old(auth.GetProfileId()), movieId.value),
                       TokenIn(old(auth.storage.items)))]
        && isFavorited == Toggled(old(isFavorited), Deliver(raw))
        && !isFavoriteLoading
        && auth.Reacted([IsUnauthorized(raw)])
      ensures movieId == old(movieId) && movie == old(movie) && isLoading == old(isLoading)
      ensures profiles.currentProfile == old(profiles.currentProfile) && auth.isLoading == old(auth.isLoading)
    {
      if !OptTruthy(movieId) {
        return;
      }
      isFavoriteLoading := true;
      var profileId := auth.GetProfileId();
      var d;
      if isFavorited {
        d := profiles.RemoveFavorite(profileId, movieId.value, raw);
      } else {
        d := profiles.AddFavorite(profileId, movieId.value, raw);
      }
      match d
      case Next(_) =>
        isFavorited := !isFavorited;
        isFavoriteLoading := false;
      case Error(e) =>
        isFavoriteLoading := false;
        if StatusOf(e) == Some(409) && !isFavorited {
          isFavorited := true;
        }
    }
  }
}
