/** The genre page (`MoviesByGenreComponent`): once the genre list is loaded, each `genreName`
    route parameter is resolved to a genre through its slug and that genre's movies are listed,
    30 to a page. */
module MoviesByGenreView {
  import opened Wrappers
  import opened Models
  import opened Http
  import opened Js
  import opened Auth
  import opened MovieApp

  const PageSize: int := 30
  const GenreSort: string := "ReleaseDate desc"
  const GenreFailure: string := "Não foi possível carregar os filmes. Verifique a API."

  /** The parameter object of a genre page. */
  function GenreParams(genreId: string, page: int): (o: JsObject)
    ensures UniqueKeys(o)
  {
    [("genreId", Str(genreId)), ("page", Num(page)), ("pageSize", Num(PageSize)), ("sort", Str(GenreSort))]
  }

  /** The query of a genre page: the genre's id (dropped when empty), the page, 30 per page and
      the newest first. */
  lemma GenreQuery(genreId: string, page: int)
    ensures Lookup(MovieQuery(GenreParams(genreId, page)), "genreId") == if genreId == "" then None else Some(genreId)
    ensures Lookup(MovieQuery(GenreParams(genreId, page)), "page") == Some(IntToString(page))
    ensures Lookup(MovieQuery(GenreParams(genreId, page)), "pageSize") == Some("30")
    ensures Lookup(MovieQuery(GenreParams(genreId, page)), "sort") == Some(GenreSort)
  {
    var o := GenreParams(genreId, page);
    assert IntToString(30) == "30" by {
      assert NatToString(30) == NatToString(3) + [DigitChar(0)];
    }
    LookupAt(o, 0);
    LookupAt(o, 1);
    LookupAt(o, 2);
    LookupAt(o, 3);
    MovieQueryLookup(o, "genreId");
    MovieQueryLookup(o, "page");
    MovieQueryLookup(o, "pageSize");
    MovieQueryLookup(o, "sort");
  }

  /** The guard of `changePage`. */
  predicate PageAccepted(newPage: int, totalCount: int, currentPage: int) {
    newPage > 0 && (newPage <= CeilDiv(totalCount, PageSize) || newPage < currentPage)
  }

  /** Going back is always allowed; going forward only to a page that starts within the
      results. */
  lemma PageBounds(newPage: int, totalCount: int, currentPage: int)
    ensures 1 <= newPage < currentPage ==> PageAccepted(newPage, totalCount, currentPage)
    ensures newPage >= currentPage ==>
      (PageAccepted(newPage, totalCount, currentPage) <==> 1 <= newPage && (newPage - 1) * PageSize < totalCount)
  {
    CeilDivBound(newPage, totalCount, PageSize);
  }

  class MoviesByGenreComponent {
    const movieService: MovieAppService
    var isLoading: bool
    var error: Option<string>
    var genreSlug: string
    var currentGenre: Option<GenreSummary>
    var movies: seq<MovieSummary>
    var currentPage: int
    var totalCount: int
    var hasMorePages: bool
    /** Whether the route parameters are being followed: they are, from the moment the genre
        list has loaded; a failed genre list leaves the page as it started. */
    var listening: bool

    ghost function Env(): set<object> {
      {this} + movieService.Env()
    }

    constructor (movieService: MovieAppService)
      ensures this.movieService == movieService
      ensures isLoading && error == None && genreSlug == "" && currentGenre == None && movies == []
      ensures currentPage == 1 && totalCount == 0 && !hasMorePages && !listening
    {
      this.movieService := movieService;
      isLoading := true;
      error := None;
      genreSlug := "";
      currentGenre := None;
      movies := [];
      currentPage := 1;
      totalCount := 0;
      hasMorePages := false;
      listening := false;
    }

    /** `ngOnInit`: the genre list is loaded (from the cache or the server) before any route
        parameter is handled. */
    method NgOnInit(genres: Response<seq<GenreSummary>>) returns (d: Delivered<seq<GenreSummary>>)
      modifies Env()
      ensures CacheHit(old(movieService.genresCache)) ==> d == Next(old(movieService.genresCache).value)
      ensures !CacheHit(old(movieService.genresCache)) ==> d == Deliver(genres)
      ensures listening == d.Next?
      ensures isLoading == old(isLoading) && error == old(error) && movies == old(movies)
      ensures currentGenre == old(currentGenre) && currentPage == old(currentPage) && genreSlug == old(genreSlug)
      ensures totalCount == old(totalCount) && hasMorePages == old(hasMorePages)
      ensures CacheHit(old(movieService.genresCache)) ==>
        && movieService.genresCache == old(movieService.genresCache)
        && movieService.auth.http.sent == old(movieService.auth.http.sent) && movieService.auth.Reacted([])
      ensures !CacheHit(old(movieService.genresCache)) ==>
        && movieService.genresCache == CacheAfter(old(movieService.genresCache), d)
        && movieService.auth.http.sent == old(movieService.auth.http.sent) +
             [Outgoing(GenresRequest(), TokenIn(old(movieService.auth.storage.items)))]
        && movieService.auth.Reacted([IsUnauthorized(genres)])
      ensures movieService.auth.isLoading == old(movieService.auth.isLoading)
    {
      d := movieService.GetAllGenres(genres);
      listening := d.Next?;
    }

    /** The page's request for `currentGenre` went out and its answer `d` is shown. */
    twostate predicate Loaded(d: Delivered<PagedList<MovieSummary>>, unauthorized: bool)
      requires currentGenre.Some?
      reads this, movieService, movieService.auth, movieService.auth.http, movieService.auth.storage, movieService.auth.router
    {
      var auth := movieService.auth;
      && auth.http.sent == old(auth.http.sent) +
           [Outgoing(MoviesRequest(GenreParams(currentGenre.value.id, currentPage)), TokenIn(old(auth.storage.items)))]
      && (d.Next? ==> movies == d.value.items && totalCount == d.value.totalCount &&
                      hasMorePages == d.value.hasNextPage && error == None)
      && (d.Error? ==> movies == old(movies) && totalCount == old(totalCount) &&
                       hasMorePages == old(hasMorePages) && error == Some(GenreFailure))
      && !isLoading
      && auth.Reacted([unauthorized])
      && auth.isLoading == old(auth.isLoading) && movieService.genresCache == old(movieService.genresCache)
    }

    /** `handleRouteParams`, for each `genreName` once the genres are in: the slug is resolved
        against the cached genres and the first page is fetched. */
    method OnRouteParams(genreName: Option<string>, raw: Response<ApiResponse<PagedList<MovieSummary>>>)
      modifies Env()
      ensures !old(listening) ==> unchanged(Env())
      ensures old(listening) ==>
        && genreSlug == OrElse(genreName, "")
        && currentGenre == old(movieService.GetGenreBySlug(OrElse(genreName, "")))
        && currentPage == 1
        && (currentGenre.None? ==>
              && movies == [] && !isLoading && error == old(error) && totalCount == old(totalCount)
              && hasMorePages == old(hasMorePages) && unchanged(movieService.Env()))
        && (currentGenre.Some? ==> Loaded(Unwrap(Deliver(raw)), IsUnauthorized(raw)))
      ensures listening == old(listening)
    {
      if !listening {
        return;
      }
      var slug := OrElse(genreName, "");
      genreSlug := slug;
      currentGenre := movieService.GetGenreBySlug(slug);
      currentPage := 1;
      FetchMovies(raw);
    }

    /** `changePage`: an accepted page becomes current and is fetched. */
    method ChangePage(newPage: int, raw: Response<ApiResponse<PagedList<MovieSummary>>>)
      modifies Env()
      ensures !PageAccepted(newPage, old(totalCount), old(currentPage)) ==> unchanged(Env())
      ensures PageAccepted(newPage, old(totalCount), old(currentPage)) ==>
        && currentPage == newPage
        && (currentGenre.None? ==>
              && movies == [] && !isLoading && error == old(error) && totalCount == old(totalCount)
              && hasMorePages == old(hasMorePages) && unchanged(movieService.Env()))
        && (currentGenre.Some? ==> Loaded(Unwrap(Deliver(raw)), IsUnauthorized(raw)))
      ensures currentGenre == old(currentGenre) && genreSlug == old(genreSlug) && listening == old(listening)
    {
      if newPage > 0 && (newPage <= CeilDiv(totalCount, PageSize) || newPage < currentPage) {
        currentPage := newPage;
        FetchMovies(raw);
      }
    }

    /** `fetchMovies`: no genre empties the list without a request; otherwise the current page
        of the genre is requested. */
    method FetchMovies(raw: Response<ApiResponse<PagedList<MovieSummary>>>)
      modifies Env()
      ensures currentGenre.None? ==>
        && movies == [] && !isLoading && error == old(error) && totalCount == old(totalCount)
        && hasMorePages == old(hasMorePages) && unchanged(movieService.Env())
      ensures currentGenre.Some? ==> Loaded(Unwrap(Deliver(raw)), IsUnauthorized(raw))
      ensures currentGenre == old(currentGenre) && currentPage == old(currentPage)
      ensures genreSlug == old(genreSlug) && listening == old(listening)
    {
      var genre := currentGenre;
      if genre.None? {
        movies := [];
        isLoading := false;
        return;
      }
      isLoading := true;
      error := None;
      var d := movieService.GetMovies(raw, GenreParams(genre.value.id, currentPage));
      Show(d, GenreFailure);
    }
    /** The handlers of a page request: the page's answer shown, or `failure` on an error. */
    method Show(d: Delivered<PagedList<MovieSummary>>, failure: string)
      modifies this
      ensures d.Next? ==> movies == d.value.items && totalCount == d.value.totalCount &&
                          hasMorePages == d.value.hasNextPage && error == old(error)
      ensures d.Error? ==> movies == old(movies) && totalCount == old(totalCount) &&
                           hasMorePages == old(hasMorePages) && error == Some(failure)
      ensures !isLoading
      ensures currentGenre == old(currentGenre) && currentPage == old(currentPage) && genreSlug == old(genreSlug) && listening == old(listening)
    {
      match d
      case Next(pagedList) =>
        movies := pagedList.items;
        totalCount := pagedList.totalCount;
        hasMorePages := pagedList.hasNextPage;
        isLoading := false;
      case Error(_) =>
        error := Some(failure);
        isLoading := false;
    }
  }
}
