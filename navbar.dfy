/** The navigation bar (`NavbarComponent`): the genre menu, the search box, the avatar letter
    and the logout button. */
module NavbarView {
  import opened Wrappers
  import opened Models
  import opened Http
  import opened Js
  import opened Auth
  import opened MovieApp
  import opened ReplaceSpaces
  import Routes
  import SearchResultsView

  const SearchCommand: string := "/search"
  const GenresCommand: string := "/movies/genres"
  const DefaultInitial: string := "U"

  /** The avatar letter: the name's first character in capitals, else the email's, else `U`. */
  function AvatarInitial(user: Option<User>): (a: string)
    ensures |a| == 1
    ensures user.Some? && user.value.name.Some? && user.value.name.value != [] ==>
      a == Upper([user.value.name.value[0]])
    ensures !(user.Some? && user.value.name.Some? && user.value.name.value != []) &&
            user.Some? && user.value.email.Some? && user.value.email.value != [] ==>
      a == Upper([user.value.email.value[0]])
    ensures !(user.Some? && ((user.value.name.Some? && user.value.name.value != []) ||
                             (user.value.email.Some? && user.value.email.value != []))) ==>
      a == DefaultInitial
  {
    if user.Some? && user.value.name.Some? && user.value.name.value != [] then Upper([user.value.name.value[0]])
    else if user.Some? && user.value.email.Some? && user.value.email.value != [] then Upper([user.value.email.value[0]])
    else DefaultInitial
  }

  /** A user signed in with an email, as after a login, shows the email's capital letter. */
  lemma SignedInInitial(email: string)
    requires email != []
    ensures AvatarInitial(Some(User(None, Some(email), None))) == [UpperChar(email[0])]
  {
  }

  /** The commands a genre of the menu links to. */
  function GenreLink(genre: GenreSummary): seq<string> {
    [GenresCommand, Transform(genre.name, "-")]
  }

  /** A menu link opens the genre page with that genre's slug, and that page finds a genre with
      the same slug among the loaded genres (the linked genre itself when slugs are distinct). */
  lemma GenreLinkOpensGenre(genres: seq<GenreSummary>, k: int)
    requires 0 <= k < |genres|
    ensures GenreLink(genres[k])[1] == Slug(genres[k].name)
    ensures Routes.Resolve(["movies", "genres", GenreLink(genres[k])[1]]) ==
      Routes.Activated(Routes.MoviesByGenreComponent, [Routes.AuthGuard], [("genreName", Slug(genres[k].name))])
    ensures FindBySlug(genres, GenreLink(genres[k])[1]).Some?
    ensures (forall i, j :: 0 <= i < j < |genres| ==> Slug(genres[i].name) != Slug(genres[j].name)) ==>
      FindBySlug(genres, GenreLink(genres[k])[1]) == Some(genres[k])
  {
    Routes.RoutedPages(Slug(genres[k].name), "");
    GenreLinkResolves(genres, k);
  }

  /** A submitted search opens the search page with the trimmed term, and that page sends the
      trimmed term, never an empty one. */
  lemma SearchSubmitOpensResults(searchTerm: string)
    requires Truthy(Trim(searchTerm))
    ensures Routes.Resolve(["search", Trim(searchTerm)]) ==
      Routes.Activated(Routes.SearchResultsComponent, [Routes.AuthGuard], [("term", Trim(searchTerm))])
    ensures Lookup(MovieQuery(SearchResultsView.SearchParams(Trim(searchTerm), 1)), "searchTerm") == Some(Trim(searchTerm))
  {
    Routes.RoutedPages("", Trim(searchTerm));
    SearchResultsView.SearchQuery(Trim(searchTerm), 1);
  }

  class NavbarComponent {
    const movieService: MovieAppService
    var searchTerm: string
    var genres: seq<GenreSummary>

    ghost function Env(): set<object> {
      {this} + movieService.Env()
    }

    constructor (movieService: MovieAppService)
      ensures this.movieService == movieService
      ensures searchTerm == "" && genres == []
    {
      this.movieService := movieService;
      searchTerm := "";
      genres := [];
    }

    /** The avatar letter of the signed-in user. */
    function Avatar(): string
      reads this, movieService, movieService.auth
    {
      AvatarInitial(movieService.auth.currentUser)
    }

    /** `ngOnInit`, that is `fetchGenres`: the menu shows the genres once they come; an error is
        only logged. */
    method NgOnInit(raw: Response<seq<GenreSummary>>)
      modifies Env()
      ensures CacheHit(old(movieService.genresCache)) ==>
        && genres == old(movieService.genresCache).value && movieService.auth.Reacted([])
        && movieService.genresCache == old(movieService.genresCache)
        && movieService.auth.http.sent == old(movieService.auth.http.sent)
      ensures !CacheHit(old(movieService.genresCache)) ==>
        && (raw.Ok? ==> genres == raw.value && movieService.genresCache == Some(raw.value))
        && (raw.Fail? ==> genres == old(genres) && movieService.genresCache == old(movieService.genresCache))
        && movieService.auth.http.sent == old(movieService.auth.http.sent) +
             [Outgoing(GenresRequest(), TokenIn(old(movieService.auth.storage.items)))]
        && movieService.auth.Reacted([IsUnauthorized(raw)])
      ensures searchTerm == old(searchTerm)
      ensures movieService.auth.isLoading == old(movieService.auth.isLoading)
    {
      var d := movieService.GetAllGenres(raw);
      if d.Next? {
        genres := d.value;
      }
    }

    /** `onSearchSubmit`: a term that is not blank after trimming opens the search page for
        the trimmed term and empties the box; a blank one changes nothing. */
    method OnSearchSubmit()
      modifies this, movieService.auth.router
      ensures Truthy(Trim(old(searchTerm))) ==>
        movieService.auth.router.history == old(movieService.auth.router.history) + [[SearchCommand, Trim(old(searchTerm))]] &&
        searchTerm == ""
      ensures !Truthy(Trim(old(searchTerm))) ==>
        movieService.auth.router.history == old(movieService.auth.router.history) && searchTerm == old(searchTerm)
      ensures genres == old(genres)
    {
      var term := Trim(searchTerm);
      if term != "" {
        movieService.auth.router.Navigate([SearchCommand, term]);
        searchTerm := "";
      }
    }

    /** `onLogout`. */
    method OnLogout()
      modifies movieService.auth, movieService.auth.storage, movieService.auth.router
      ensures movieService.auth.Reacted([true])
      ensures movieService.auth.isLoading == old(movieService.auth.isLoading)
    {
      movieService.auth.Logout();
      CountTrueSingle(true);
    }
  }
}
