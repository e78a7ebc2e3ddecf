/** The home page (`HomeComponent`): the genre list first, then three movie lists fetched
    together (most viewed, newest, and the action genre's), the first most-viewed movie as the
    hero. */
module HomeView {
  import opened Wrappers
  import opened Models
  import opened Http
  import opened Js
  import opened Auth
  import opened MovieApp

  const ActionGenreName: string := "ação"
  const PopularSort: string := "Views desc"
  const RecentSort: string := "ReleaseDate desc"
  const ListSize: int := 12
  const GenresFailure: string := "Não foi possível carregar o conteúdo (Erro ao buscar Gêneros)."
  const ListsFailure: string := "Não foi possível carregar o conteúdo dos filmes. (Erro no forkJoin)"

  /** `genresList.find(g => g.name.toLowerCase() === 'ação')`. */
  function ActionGenre(genres: seq<GenreSummary>): (r: Option<GenreSummary>)
    decreases |genres|
  {
    if genres == [] then None
    else if Lower(genres[0].name) == ActionGenreName then Some(genres[0])
    else ActionGenre(genres[1..])
  }

  /** The action genre is the first genre whose lowercased name is `ação`; there is none
      exactly when no genre's is. */
  lemma {:induction false} ActionGenreFirst(genres: seq<GenreSummary>)
    ensures ActionGenre(genres).None? <==> forall i :: 0 <= i < |genres| ==> Lower(genres[i].name) != ActionGenreName
    ensures ActionGenre(genres).Some? ==>
      exists i :: 0 <= i < |genres| && genres[i] == ActionGenre(genres).value &&
        Lower(genres[i].name) == ActionGenreName &&
        forall j :: 0 <= j < i ==> Lower(genres[j].name) != ActionGenreName
    decreases |genres|
  {
    if genres != [] && Lower(genres[0].name) != ActionGenreName {
      var tail := genres[1..];
      ActionGenreFirst(tail);
      var r := ActionGenre(tail);
      if r.Some? {
        var i :| 0 <= i < |tail| && tail[i] == r.value && Lower(tail[i].name) == ActionGenreName &&
          forall j :: 0 <= j < i ==> Lower(tail[j].name) != ActionGenreName;
        assert genres[i + 1] == r.value;
        forall j | 0 <= j < i + 1 ensures Lower(genres[j].name) != ActionGenreName {
          if j > 0 {
            assert genres[j] == tail[j - 1];
          }
        }
      } else {
        forall i | 0 <= i < |genres| ensures Lower(genres[i].name) != ActionGenreName {
          if i > 0 {
            assert genres[i] == tail[i - 1];
          }
        }
      }
    }
  }

  /** The genre may be listed in capitals: lowercasing covers the accented Latin-1 letters. */
  lemma ActionNameSpellings()
    ensures Lower("Ação") == ActionGenreName
    ensures Lower("AÇÃO") == ActionGenreName
  {
  }

  /** `actionGenre?.id`. */
  function ActionGenreId(genres: seq<GenreSummary>): Option<string> {
    match ActionGenre(genres)
    case None => None
    case Some(g) => Some(g.id)
  }

  function PopularParams(): JsObject {
    [("sort", Str(PopularSort)), ("pageSize", Num(ListSize))]
  }

  function RecentParams(): JsObject {
    [("sort", Str(RecentSort)), ("pageSize", Num(ListSize))]
  }

  /** `{ genreId: actionGenreId, pageSize: 12 }`, the id `undefined` when there is no action
      genre. */
  function ActionParams(genreId: Option<string>): JsObject {
    [("genreId", if genreId.Some? then Str(genreId.value) else Undefined), ("pageSize", Num(ListSize))]
  }

  /** Without an action genre the action list is requested with no genre at all. */
  lemma ActionQuery(genreId: Option<string>)
    ensures genreId.None? ==> Lookup(MovieQuery(ActionParams(genreId)), "genreId") == None
    ensures genreId.Some? && genreId.value != "" ==> Lookup(MovieQuery(ActionParams(genreId)), "genreId") == genreId
    ensures Lookup(MovieQuery(ActionParams(genreId)), "pageSize") == Some("12")
  {
    TwelveText();
    var o := ActionParams(genreId);
    LookupAt(o, 0);
    LookupAt(o, 1);
    MovieQueryLookup(o, "genreId");
    MovieQueryLookup(o, "pageSize");
  }

  /** The most viewed and the newest lists ask for 12 movies each, in their own order. */
  lemma PopularAndRecentQueries()
    ensures Lookup(MovieQuery(PopularParams()), "pageSize") == Some("12")
    ensures Lookup(MovieQuery(PopularParams()), "sort") == Some(PopularSort)
    ensures Lookup(MovieQuery(RecentParams()), "pageSize") == Some("12")
    ensures Lookup(MovieQuery(RecentParams()), "sort") == Some(RecentSort)
  {
    TwelveText();
    LookupAt(PopularParams(), 0);
    LookupAt(PopularParams(), 1);
    LookupAt(RecentParams(), 0);
    LookupAt(RecentParams(), 1);
    MovieQueryLookup(PopularParams(), "pageSize");
    MovieQueryLookup(PopularParams(), "sort");
    MovieQueryLookup(RecentParams(), "pageSize");
    MovieQueryLookup(RecentParams(), "sort");
  }

  lemma TwelveText()
    ensures IntToString(ListSize) == "12"
  {
    assert NatToString(12) == NatToString(1) + [DigitChar(2)];
  }

  /** `results.popular.items[0] || null`. */
  function Hero(items: seq<MovieSummary>): (h: Option<MovieSummary>)
    ensures h.Some? <==> items != []
    ensures h.Some? ==> h.value == items[0]
  {
    if |items| > 0 then Some(items[0]) else None
  }

  /** The 401 marks of the answers `forkJoin` processes, taken in the order popular, recent,
      action: the first failure ends the join and the remaining answers are dropped. */
  function ListFlags(popular: Response<ApiResponse<PagedList<MovieSummary>>>,
                     recent: Response<ApiResponse<PagedList<MovieSummary>>>,
                     action: Response<ApiResponse<PagedList<MovieSummary>>>): seq<bool>
  {
    [IsUnauthorized(popular)] +
    if popular.Fail? then [] else [IsUnauthorized(recent)] + if recent.Fail? then [] else [IsUnauthorized(action)]
  }

  /** However the three answers go, the home lists force at most one logout. */
  lemma ListsLogOutAtMostOnce(popular: Response<ApiResponse<PagedList<MovieSummary>>>,
                              recent: Response<ApiResponse<PagedList<MovieSummary>>>,
                              action: Response<ApiResponse<PagedList<MovieSummary>>>)
    ensures CountTrue(ListFlags(popular, recent, action)) <= 1
    ensures CountTrue(ListFlags(popular, recent, action)) == 1 <==>
      IsUnauthorized(popular) || (popular.Ok? && IsUnauthorized(recent)) ||
      (popular.Ok? && recent.Ok? && IsUnauthorized(action))
  {
    var a, b, c := IsUnauthorized(popular), IsUnauthorized(recent), IsUnauthorized(action);
    CountTrueSingle(a);
    CountTrueSingle(b);
    CountTrueSingle(c);
    CountTrueAppend([b], [c]);
    CountTrueAppend([a], [b, c]);
    CountTrueAppend([a], [b]);
    assert [b] + [c] == [b, c];
  }

  /** What `getAllGenres` delivers: the cached list, or the server's answer. */
  function GenresFetched(cache: Option<seq<GenreSummary>>, raw: Response<seq<GenreSummary>>): Delivered<seq<GenreSummary>> {
    if CacheHit(cache) then Next(cache.value) else Deliver(raw)
  }

  /** The genre cache after `getAllGenres`: kept on a hit or a failed fetch, the fetched list
      otherwise. */
  function GenresCached(cache: Option<seq<GenreSummary>>, raw: Response<seq<GenreSummary>>): Option<seq<GenreSummary>> {
    if CacheHit(cache) then cache else CacheAfter(cache, Deliver(raw))
  }

  /** The requests `getAllGenres` makes: none on a cache hit. */
  function GenreRequests(cache: Option<seq<GenreSummary>>, token: Option<string>): seq<Request> {
    if CacheHit(cache) then [] else [Outgoing(GenresRequest(), token)]
  }

  /** The 401 marks of the answers `getAllGenres` receives. */
  function GenreFlags(cache: Option<seq<GenreSummary>>, raw: Response<seq<GenreSummary>>): seq<bool> {
    if CacheHit(cache) then [] else [IsUnauthorized(raw)]
  }

  /** The three list requests, in the order they are made, all carrying `token`. */
  function ListRequests(genresList: seq<GenreSummary>, token: Option<string>): seq<Request> {
    [Outgoing(MoviesRequest(PopularParams()), token),
     Outgoing(MoviesRequest(RecentParams()), token),
     Outgoing(MoviesRequest(ActionParams(ActionGenreId(genresList))), token)]
  }

  /** The three movie lists of the page and its hero. */
  datatype HomeLists = HomeLists(popular: seq<MovieSummary>, recent: seq<MovieSummary>,
                                 action: seq<MovieSummary>, hero: Option<MovieSummary>)

  class HomeComponent {
    const movieService: MovieAppService
    var isLoading: bool
    var error: Option<string>
    var genres: seq<GenreSummary>
    var heroMovie: Option<MovieSummary>
    var popularMovies: seq<MovieSummary>
    var recentMovies: seq<MovieSummary>
    var actionMovies: seq<MovieSummary>

    ghost function Env(): set<object> {
      {this} + movieService.Env()
    }

    constructor (movieService: MovieAppService)
      ensures this.movieService == movieService
      ensures isLoading && error == None && genres == [] && heroMovie == None
      ensures popularMovies == [] && recentMovies == [] && actionMovies == []
    {
      this.movieService := movieService;
      isLoading := true;
      error := None;
      genres := [];
      heroMovie := None;
      popularMovies := [];
      recentMovies := [];
      actionMovies := [];
    }

    /** The movie lists on the page. */
    function Lists(): HomeLists
      reads this
    {
      HomeLists(popularMovies, recentMovies, actionMovies, heroMovie)
    }

    /** The join's outcome is shown: all three lists (the hero the first most-viewed movie) with
        the error still `errorBefore`, or, when any answer failed, the lists as they were
        (`before`) and the join's error. */
    predicate ListsShown(popular: Response<ApiResponse<PagedList<MovieSummary>>>,
                         recent: Response<ApiResponse<PagedList<MovieSummary>>>,
                         action: Response<ApiResponse<PagedList<MovieSummary>>>,
                         before: HomeLists, errorBefore: Option<string>)
      reads this
    {
      && (popular.Ok? && recent.Ok? && action.Ok? ==>
            && Lists() == HomeLists(popular.value.data.items, recent.value.data.items,
                                    action.value.data.items, Hero(popular.value.data.items))
            && error == errorBefore)
      && (!(popular.Ok? && recent.Ok? && action.Ok?) ==> Lists() == before && error == Some(ListsFailure))
      && !isLoading
    }

    /** `ngOnInit`, that is `fetchHomeData`: the genres, then, if they came, the lists. */
    method NgOnInit(genresRaw: Response<seq<GenreSummary>>,
                    popular: Response<ApiResponse<PagedList<MovieSummary>>>,
                    recent: Response<ApiResponse<PagedList<MovieSummary>>>,
                    action: Response<ApiResponse<PagedList<MovieSummary>>>)
      modifies Env()
      ensures GenresFetched(old(movieService.genresCache), genresRaw).Error? ==>
        && error == Some(GenresFailure) && !isLoading && genres == old(genres) && Lists() == old(Lists())
        && movieService.auth.http.sent == old(movieService.auth.http.sent) +
             GenreRequests(old(movieService.genresCache), TokenIn(old(movieService.auth.storage.items)))
        && movieService.auth.Reacted(GenreFlags(old(movieService.genresCache), genresRaw))
      ensures GenresFetched(old(movieService.genresCache), genresRaw).Next? ==>
        && genres == GenresFetched(old(movieService.genresCache), genresRaw).value
        && ListsShown(popular, recent, action, old(Lists()), None)
        && movieService.auth.http.sent == old(movieService.auth.http.sent) +
             GenreRequests(old(movieService.genresCache), TokenIn(old(movieService.auth.storage.items))) +
             ListRequests(genres, TokenIn(old(movieService.auth.storage.items)))
        && movieService.auth.Reacted(GenreFlags(old(movieService.genresCache), genresRaw) + ListFlags(popular, recent, action))
      ensures movieService.auth.isLoading == old(movieService.auth.isLoading)
      ensures movieService.genresCache == GenresCached(old(movieService.genresCache), genresRaw)
    {
      isLoading := true;
      error := None;
      ghost var s0 := movieService.auth.Snapshot();
      ghost var flags := GenreFlags(movieService.genresCache, genresRaw);
      ghost var lists0 := Lists();
      var d := LoadGenres(genresRaw);
      ghost var s1 := movieService.auth.Snapshot();
      if d.Error? {
        error := Some(GenresFailure);
        isLoading := false;
        return;
      }
      genres := d.value;
      assert Lists() == lists0;
      ghost var sent1 := movieService.auth.http.sent;
      FetchMovieLists(d.value, popular, recent, action);
      assert movieService.auth.http.sent == sent1 + ListRequests(genres, TokenIn(s0.items));
      ReactionCompose(s0, s1, movieService.auth.Snapshot(), flags, ListFlags(popular, recent, action));
    }

    /** The genre half of `fetchHomeData`: `getAllGenres`, stated through what it delivers,
        sends and does to the session; a delivered list leaves the session as it was. */
    method LoadGenres(genresRaw: Response<seq<GenreSummary>>) returns (d: Delivered<seq<GenreSummary>>)
      modifies movieService.Env()
      ensures d == GenresFetched(old(movieService.genresCache), genresRaw)
      ensures movieService.genresCache == GenresCached(old(movieService.genresCache), genresRaw)
      ensures movieService.auth.http.sent == old(movieService.auth.http.sent) +
        GenreRequests(old(movieService.genresCache), TokenIn(old(movieService.auth.storage.items)))
      ensures movieService.auth.Reacted(GenreFlags(old(movieService.genresCache), genresRaw))
      ensures d.Next? ==> movieService.auth.Snapshot() == old(movieService.auth.Snapshot())
      ensures movieService.auth.isLoading == old(movieService.auth.isLoading)
    {
      d := movieService.GetAllGenres(genresRaw);
      if !CacheHit(old(movieService.genresCache)) {
        CountTrueSingle(IsUnauthorized(genresRaw));
      }
    }

    /** `fetchMovieLists`: the three requests leave together; the answers are then taken in
        turn, and the first failure ends the join with the lists as they were. */
    method FetchMovieLists(genresList: seq<GenreSummary>,
                           popular: Response<ApiResponse<PagedList<MovieSummary>>>,
                           recent: Response<ApiResponse<PagedList<MovieSummary>>>,
                           action: Response<ApiResponse<PagedList<MovieSummary>>>)
      modifies Env()
      ensures movieService.auth.http.sent == old(movieService.auth.http.sent) +
        ListRequests(genresList, TokenIn(old(movieService.auth.storage.items)))
      ensures ListsShown(popular, recent, action, old(Lists()), old(error))
      ensures movieService.auth.Reacted(ListFlags(popular, recent, action))
      ensures movieService.auth.isLoading == old(movieService.auth.isLoading)
      ensures genres == old(genres) && movieService.genresCache == old(movieService.genresCache)
    {
      SendLists(genresList);
      ReceiveLists(popular, recent, action);
    }

    /** The three requests of `forkJoin`, made one after the other before any answer. */
    method SendLists(genresList: seq<GenreSummary>)
      modifies movieService.auth.http
      ensures movieService.auth.http.sent == old(movieService.auth.http.sent) +
        ListRequests(genresList, TokenIn(movieService.auth.storage.items))
    {
      var actionId := ActionGenreId(genresList);
      movieService.RequestMovies(PopularParams());
      movieService.RequestMovies(RecentParams());
      assert UniqueKeys(ActionParams(actionId));
      movieService.RequestMovies(ActionParams(actionId));
    }

    /** The answers of `forkJoin`, taken in turn until the first failure. */
    method ReceiveLists(popular: Response<ApiResponse<PagedList<MovieSummary>>>,
                        recent: Response<ApiResponse<PagedList<MovieSummary>>>,
                        action: Response<ApiResponse<PagedList<MovieSummary>>>)
      modifies this, movieService.auth, movieService.auth.storage, movieService.auth.router
      ensures ListsShown(popular, recent, action, old(Lists()), old(error))
      ensures movieService.auth.Reacted(ListFlags(popular, recent, action))
      ensures movieService.auth.isLoading == old(movieService.auth.isLoading)
      ensures genres == old(genres)
    {
      var auth := movieService.auth;
      ghost var s0 := auth.Snapshot();
      var dp := movieService.ReceiveMovies(popular);
      CountTrueSingle(IsUnauthorized(popular));
      if dp.Error? {
        error := Some(ListsFailure);
        isLoading := false;
        return;
      }
      ghost var s1 := auth.Snapshot();
      var dr := movieService.ReceiveMovies(recent);
      CountTrueSingle(IsUnauthorized(recent));
      ReactionCompose(s0, s1, auth.Snapshot(), [IsUnauthorized(popular)], [IsUnauthorized(recent)]);
      if dr.Error? {
        error := Some(ListsFailure);
        isLoading := false;
        return;
      }
      ghost var s2 := auth.Snapshot();
      var da := movieService.ReceiveMovies(action);
      CountTrueSingle(IsUnauthorized(action));
      ReactionCompose(s0, s2, auth.Snapshot(), [IsUnauthorized(popular), IsUnauthorized(recent)], [IsUnauthorized(action)]);
      if da.Error? {
        error := Some(ListsFailure);
        isLoading := false;
        return;
      }
      popularMovies := dp.value.items;
      recentMovies := dr.value.items;
      actionMovies := da.value.items;
      heroMovie := Hero(dp.value.items);
      isLoading := false;
    }
  }
}
