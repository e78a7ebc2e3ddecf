/** The favourites page (`FavoritesComponent`): the first page of the signed-in viewer's
    favourite movies. */
module FavoritesView {
  import opened Wrappers
  import opened Models
  import opened Http
  import opened Js
  import opened Auth
  import opened Profiles

  /** The list the page shows once the favourites answer `d` is in: its movies, or none. */
  function Shown(d: Delivered<PagedList<MovieSummary>>): (movies: seq<MovieSummary>)
    ensures d.Next? ==> movies == d.value.items
    ensures d.Error? ==> movies == []
  {
    if d.Next? then d.value.items else []
  }

  /** The two readings of one favourites answer agree: the page shows a movie exactly when the
      ids taken from the same answer (as `getFavoriteMovieIds` takes them) list its id. */
  lemma ShownMatchesFavoriteIds(d: Delivered<PagedList<MovieSummary>>, movieId: string)
    ensures (exists i :: 0 <= i < |Shown(d)| && Shown(d)[i].id == movieId) <==>
      FavoriteIds(d).Next? && movieId in FavoriteIds(d).value
  {
    if d.Next? {
      assert Shown(d) == d.value.items;
      IdsMembership(d.value.items, movieId);
    }
  }

  class FavoritesComponent {
    const auth: AuthService
    const profiles: ProfileService
    var favorites: seq<MovieSummary>
    var isLoading: bool

    ghost function Env(): set<object> {
      {this} + profiles.Env()
    }

    constructor (auth: AuthService, profiles: ProfileService)
      requires profiles.auth == auth
      ensures this.auth == auth && this.profiles == profiles
      ensures favorites == [] && isLoading
    {
      this.auth := auth;
      this.profiles := profiles;
      favorites := [];
      isLoading := true;
    }

    /** `ngOnInit`, that is `loadFavorites`: page 1, 20 per page, of the signed-in viewer's
        favourites; a failure empties the list. */
    method NgOnInit(raw: Response<ApiResponse<PagedList<MovieSummary>>>)
      requires profiles.auth == auth
      modifies Env()
      ensures auth.http.sent == old(auth.http.sent) +
        [Outgoing(FavoritesRequest(old(auth.GetProfileId()), 1, 20), TokenIn(old(auth.storage.items)))]
      ensures favorites == Shown(Unwrap(Deliver(raw)))
      ensures !isLoading
      ensures auth.Reacted([IsUnauthorized(raw)]) && profiles.currentProfile == old(profiles.currentProfile)
      ensures auth.isLoading == old(auth.isLoading)
    {
      isLoading := true;
      var profileId := auth.GetProfileId();
      var d := profiles.GetFavorites(profileId, raw);
      match d
      case Next(pagedList) =>
        favorites := pagedList.items;
        isLoading := false;
      case Error(_) =>
        isLoading := false;
        favorites := [];
    }
  }
}
