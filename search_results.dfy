/** The search page (`SearchResultsComponent`): each `term` route parameter starts a new search
    from page 1, and the page buttons fetch further pages of the same term. */
module SearchResultsView {
  import opened Wrappers
  import opened Models
  import opened Http
  import opened Js
  import opened Auth
  import opened MovieApp

  const PageSize: int := 30
  const SearchSort: string := "ReleaseDate desc"
  const SearchFailure: string := "Não foi possível carregar os resultados da busca."
  const PageFailure: string := "Erro ao carregar a página de resultados."

  /** The parameter object of a search. */
  function SearchParams(term: string, page: int): (o: JsObject)
    ensures UniqueKeys(o)
  {
    [("searchTerm", Str(term)), ("page", Num(page)), ("pageSize", Num(PageSize)), ("sort", Str(SearchSort))]
  }

  /** The query a search sends: the term (dropped when empty), the page, 30 per page and the
      newest first. */
  lemma SearchQuery(term: string, page: int)
    ensures Lookup(MovieQuery(SearchParams(term, page)), "searchTerm") == if term == "" then None else Some(term)
    ensures Lookup(MovieQuery(SearchParams(term, page)), "page") == Some(IntToString(page))
    ensures Lookup(MovieQuery(SearchParams(term, page)), "pageSize") == Some("30")
    ensures Lookup(MovieQuery(SearchParams(term, page)), "sort") == Some(SearchSort)
  {
    var o := SearchParams(term, page);
    assert IntToString(30) == "30" by {
      assert NatToString(30) == NatToString(3) + [DigitChar(0)];
    }
    LookupAt(o, 0);
    LookupAt(o, 1);
    LookupAt(o, 2);
    LookupAt(o, 3);
    MovieQueryLookup(o, "searchTerm");
    MovieQueryLookup(o, "page");
    MovieQueryLookup(o, "pageSize");
    MovieQueryLookup(o, "sort");
  }

  /** The guard of `changePage`: `1 <= newPage <= Math.ceil(totalCount / pageSize)`. */
  predicate PageAccepted(newPage: int, totalCount: int) {
    1 <= newPage && newPage <= CeilDiv(totalCount, PageSize)
  }

  /** A page is accepted exactly when it starts within the results; with no results none is. */
  lemma PageBounds(newPage: int, totalCount: int)
    ensures PageAccepted(newPage, totalCount) <==> 1 <= newPage && (newPage - 1) * PageSize < totalCount
    ensures totalCount <= 0 ==> !PageAccepted(newPage, totalCount)
  {
    CeilDivBound(newPage, totalCount, PageSize);
  }

  class SearchResultsComponent {
    const movieService: MovieAppService
    var isLoading: bool
    var error: Option<string>
    var currentSearchTerm: string
    var movies: seq<MovieSummary>
    var currentPage: int
    var totalCount: int
    var hasMorePages: bool
    /** Whether the subscription to the route parameters is still open: an error of a search
        started from it ends it, and later parameter changes go unheard. */
    var listening: bool

    ghost function Env(): set<object> {
      {this} + movieService.Env()
    }

    constructor (movieService: MovieAppService)
      ensures this.movieService == movieService
      ensures isLoading && error == None && currentSearchTerm == "" && movies == []
      ensures currentPage == 1 && totalCount == 0 && !hasMorePages && listening
    {
      this.movieService := movieService;
      isLoading := true;
      error := None;
      currentSearchTerm := "";
      movies := [];
      currentPage := 1;
      totalCount := 0;
      hasMorePages := false;
      listening := true;
    }

    /** One search's request went out and its answer `d` is shown, or `failure` on an error. */
    twostate predicate Loaded(page: int, d: Delivered<PagedList<MovieSummary>>, unauthorized: bool, failure: string)
      reads this, movieService, movieService.auth, movieService.auth.http, movieService.auth.storage, movieService.auth.router
    {
      var auth := movieService.auth;
      && auth.http.sent == old(auth.http.sent) +
           [Outgoing(MoviesRequest(SearchParams(currentSearchTerm, page)), TokenIn(old(auth.storage.items)))]
      && (d.Next? ==> movies == d.value.items && totalCount == d.value.totalCount &&
                      hasMorePages == d.value.hasNextPage && error == None)
      && (d.Error? ==> movies == old(movies) && totalCount == old(totalCount) &&
                       hasMorePages == old(hasMorePages) && error == Some(failure))
      && !isLoading
      && auth.Reacted([unauthorized])
      && auth.isLoading == old(auth.isLoading) && movieService.genresCache == old(movieService.genresCache)
    }

    /** A new value of the `term` route parameter. An empty term clears the list without a
        request; any other restarts the search at page 1. */
    method OnTermChange(termParam: Option<string>, raw: Response<ApiResponse<PagedList<MovieSummary>>>)
      modifies Env()
      ensures !old(listening) ==> unchanged(Env())
      ensures old(listening) ==> currentSearchTerm == OrElse(termParam, "")
      ensures old(listening) && currentSearchTerm == "" ==>
        && movies == [] && !isLoading && listening
        && error == old(error) && currentPage == old(currentPage) && totalCount == old(totalCount)
        && hasMorePages == old(hasMorePages)
        && unchanged(movieService.Env())
      ensures old(listening) && currentSearchTerm != "" ==>
        && currentPage == 1
        && Loaded(1, Unwrap(Deliver(raw)), IsUnauthorized(raw), SearchFailure)
        && listening == raw.Ok?
    {
      if !listening {
        return;
      }
      var term := OrElse(termParam, "");
      currentSearchTerm := term;
      if term == "" {
        movies := [];
        isLoading := false;
        return;
      }
      currentPage := 1;
      isLoading := true;
      error := None;
      var d := movieService.GetMovies(raw, SearchParams(term, currentPage));
      Show(d, SearchFailure);
      listening := d.Next?;
    }

    /** `changePage`: a page within the results becomes current and is fetched; any other
        changes nothing. */
    method ChangePage(newPage: int, raw: Response<ApiResponse<PagedList<MovieSummary>>>)
      modifies Env()
      ensures !PageAccepted(newPage, old(totalCount)) ==> unchanged(Env())
      ensures PageAccepted(newPage, old(totalCount)) ==>
        && currentPage == newPage
        && (old(currentSearchTerm) == "" ==>
              isLoading == old(isLoading) && error == old(error) && movies == old(movies) &&
              totalCount == old(totalCount) && hasMorePages == old(hasMorePages) &&
              unchanged(movieService.Env()))
        && (old(currentSearchTerm) != "" ==> Loaded(newPage, Unwrap(Deliver(raw)), IsUnauthorized(raw), PageFailure))
      ensures currentSearchTerm == old(currentSearchTerm) && listening == old(listening)
    {
      if 1 <= newPage && newPage <= CeilDiv(totalCount, PageSize) {
        currentPage := newPage;
        FetchMoviesForPage(newPage, raw);
      }
    }

    /** `fetchMoviesForPage`: nothing without a term; otherwise the page is requested. */
    method FetchMoviesForPage(page: int, raw: Response<ApiResponse<PagedList<MovieSummary>>>)
      modifies Env()
      ensures currentSearchTerm == "" ==> unchanged(Env())
      ensures currentSearchTerm != "" ==> Loaded(page, Unwrap(Deliver(raw)), IsUnauthorized(raw), PageFailure)
      ensures currentSearchTerm == old(currentSearchTerm) && currentPage == old(currentPage)
      ensures listening == old(listening)
    {
      var term := currentSearchTerm;
      if term == "" {
        return;
      }
      isLoading := true;
      error := None;
      var d := movieService.GetMovies(raw, SearchParams(term, page));
      Show(d, PageFailure);
    }
    /** The handlers of a page request: the page's answer shown, or `failure` on an error. */
    method Show(d: Delivered<PagedList<MovieSummary>>, failure: string)
      modifies this
      ensures d.Next? ==> movies == d.value.items && totalCount == d.value.totalCount &&
                          hasMorePages == d.value.hasNextPage && error == old(error)
      ensures d.Error? ==> movies == old(movies) && totalCount == old(totalCount) &&
                           hasMorePages == old(hasMorePages) && error == Some(failure)
      ensures !isLoading
      ensures currentSearchTerm == old(currentSearchTerm) && currentPage == old(currentPage) && listening == old(listening)
    {
      match d
      case Next(pagedList) =>
        movies := pagedList.items;
        totalCount := pagedList.totalCount;
        hasMorePages := pagedList.hasNextPage;
        isLoading := false;
      case Error(_) =>
        error := Some(failure);
        isLoading := false;
    }
  }
}
