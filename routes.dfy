/** The application's route table and the part of the router's matching that it exercises:
    routes are tried in order, a componentless parent passes its guards on to its children and
    gives way to the next route when none of them matches, a leaf must consume the whole URL,
    and a redirect is followed once. Paths are written already split into segments. */
module Routes {
  import opened Wrappers

  datatype Guard = AuthGuard | ProfileGuard

  /** What a route does once its path has matched. */
  datatype Action =
    | Redirect(to: seq<string>)
    | LoadChildren(children: string)
    | LoadComponent(component: string)
    | Children(routes: seq<Route>)

  /** `full` is `pathMatch: 'full'`; `["**"]` is the wildcard path. */
  datatype Route = Route(path: seq<string>, full: bool, guards: seq<Guard>, action: Action)

  /** Where a URL ends up. */
  datatype Outcome =
    | NoMatch
    | Redirected(to: seq<string>)
    | Activated(component: string, guards: seq<Guard>, params: seq<(string, string)>)
    | Delegated(loaded: string, guards: seq<Guard>, rest: seq<string>)

  const Wildcard: seq<string> := ["**"]

  const HomeComponent: string := "HomeComponent"
  const MoviesByGenreComponent: string := "MoviesByGenreComponent"
  const SearchResultsComponent: string := "SearchResultsComponent"
  const AuthRoutes: string := "AUTH_ROUTES"

  const ProtectedRoutes: seq<Route> := [
    Route(["home"], false, [], LoadComponent(HomeComponent)),
    Route(["movies", "genres", ":genreName"], false, [], LoadComponent(MoviesByGenreComponent)),
    Route(["search", ":term"], false, [], LoadComponent(SearchResultsComponent))
  ]

  /** The table of `app.routes.ts`. `profileGuard` is not attached anywhere. */
  const AppRoutes: seq<Route> := [
    Route([], true, [], Redirect(["home"])),
    Route(["auth"], false, [], LoadChildren(AuthRoutes)),
    Route([], false, [AuthGuard], Children(ProtectedRoutes)),
    Route(Wildcard, false, [], Redirect(["home"]))
  ]

  predicate IsParam(p: string) {
    |p| > 0 && p[0] == ':'
  }

  /** Whether the path's segments are a prefix of the URL's, a `:name` segment matching any. */
  predicate PrefixMatches(path: seq<string>, url: seq<string>)
    decreases path
  {
    if path == [] then true
    else url != [] && (IsParam(path[0]) || path[0] == url[0]) && PrefixMatches(path[1..], url[1..])
  }

  lemma {:induction false} PrefixMatchesLength(path: seq<string>, url: seq<string>)
    requires PrefixMatches(path, url)
    ensures |path| <= |url|
    decreases path
  {
    if path != [] {
      PrefixMatchesLength(path[1..], url[1..]);
    }
  }

  /** The `:name` parameters the path binds, in order. */
  function Params(path: seq<string>, url: seq<string>): (ps: seq<(string, string)>)
    requires PrefixMatches(path, url)
    ensures |ps| <= |path|
    decreases path
  {
    if path == [] then []
    else (if IsParam(path[0]) then [(path[0][1..], url[0])] else []) + Params(path[1..], url[1..])
  }

  /** The number of URL segments the route consumes, when its path matches. */
  function Consumed(r: Route, url: seq<string>): (n: Option<nat>)
    ensures n.Some? ==> n.value <= |url|
  {
    if r.path == Wildcard then Some(|url|)
    else if PrefixMatches(r.path, url) && (!r.full || |r.path| == |url|) then
      PrefixMatchesLength(r.path, url);
      Some(|r.path|)
    else None
  }

  /** One route against the URL, under the guards of the routes above it. */
  function MatchRoute(r: Route, url: seq<string>, guards: seq<Guard>): Outcome
    decreases r
  {
    match Consumed(r, url)
    case None => NoMatch
    case Some(n) =>
      match r.action
      case Redirect(to) => Redirected(to + url[n..])
      case LoadChildren(m) => Delegated(m, guards + r.guards, url[n..])
      case LoadComponent(c) =>
        if n == |url| && r.path != Wildcard then Activated(c, guards + r.guards, Params(r.path, url)) else NoMatch
      case Children(cs) => MatchRoutes(cs, url[n..], guards + r.guards)
  }

  /** The first route of the list that matches. */
  function MatchRoutes(routes: seq<Route>, url: seq<string>, guards: seq<Guard>): Outcome
    decreases routes
  {
    if routes == [] then NoMatch
    else
      var o := MatchRoute(routes[0], url, guards);
      if o != NoMatch then o else MatchRoutes(routes[1..], url, guards)
  }

  /** Navigation to a URL, following a redirect once. */
  function Resolve(url: seq<string>): Outcome {
    var o := MatchRoutes(AppRoutes, url, []);
    if o.Redirected? then MatchRoutes(AppRoutes, o.to, []) else o
  }

  /** A route is attached to one of the guarded children's paths. */
  predicate IsProtectedPath(url: seq<string>) {
    || url == ["home"]
    || (|url| == 3 && url[0] == "movies" && url[1] == "genres")
    || (|url| == 2 && url[0] == "search")
  }

  /** A path without parameters matches exactly the URLs it is a prefix of. */
  lemma LiteralPrefix(a: string, b: string, url: seq<string>)
    requires !IsParam(a) && !IsParam(b)
    ensures PrefixMatches([a], url) <==> |url| >= 1 && url[0] == a
    ensures PrefixMatches([a, b], url) <==> |url| >= 2 && url[0] == a && url[1] == b
  {
    assert [a][1..] == [] && [a, b][1..] == [b];
    if |url| >= 1 {
      assert PrefixMatches([b], url[1..]) <==> |url| >= 2 && url[1] == b by {
        assert [b][1..] == [];
      }
    }
  }

  lemma HomeRoute(url: seq<string>, g: seq<Guard>)
    ensures MatchRoute(ProtectedRoutes[0], url, g) ==
      if url == ["home"] then Activated(HomeComponent, g, []) else NoMatch
  {
    LiteralPrefix("home", "home", url);
    if url == ["home"] {
      assert Params(["home"], url) == [] by {
        assert ["home"][1..] == [];
      }
    }
  }

  lemma GenreRoute(url: seq<string>, g: seq<Guard>)
    ensures MatchRoute(ProtectedRoutes[1], url, g) ==
      if |url| == 3 && url[0] == "movies" && url[1] == "genres" then
        Activated(MoviesByGenreComponent, g, [("genreName", url[2])])
      else NoMatch
  {
    var path := ["movies", "genres", ":genreName"];
    assert path[1..] == ["genres", ":genreName"] && path[1..][1..] == [":genreName"] && [":genreName"][1..] == [];
    assert IsParam(":genreName") && ":genreName"[1..] == "genreName";
    LiteralPrefix("movies", "genres", url);
    if |url| >= 2 && url[0] == "movies" && url[1] == "genres" {
      assert PrefixMatches(path, url) <==> |url| >= 3;
      if |url| >= 3 {
        assert Params(path, url) == [] + ([] + [("genreName", url[2])] + []);
      }
    } else {
      assert !PrefixMatches(path, url);
    }
  }

  lemma SearchRoute(url: seq<string>, g: seq<Guard>)
    ensures MatchRoute(ProtectedRoutes[2], url, g) ==
      if |url| == 2 && url[0] == "search" then Activated(SearchResultsComponent, g, [("term", url[1])]) else NoMatch
  {
    var path := ["search", ":term"];
    assert path[1..] == [":term"] && [":term"][1..] == [];
    assert IsParam(":term") && ":term"[1..] == "term";
    LiteralPrefix("search", "search", url);
    if |url| >= 1 && url[0] == "search" {
      assert PrefixMatches(path, url) <==> |url| >= 2;
      if |url| >= 2 {
        assert Params(path, url) == [] + ([("term", url[1])] + []);
      }
    } else {
      assert !PrefixMatches(path, url);
    }
  }

  /** The guarded children: one of the three paths activates its component, with the guards
      above it and the path's parameter; anything else matches none of them. */
  lemma ProtectedMatch(url: seq<string>, g: seq<Guard>)
    ensures !IsProtectedPath(url) ==> MatchRoutes(ProtectedRoutes, url, g) == NoMatch
    ensures url == ["home"] ==> MatchRoutes(ProtectedRoutes, url, g) == Activated(HomeComponent, g, [])
    ensures |url| == 3 && url[0] == "movies" && url[1] == "genres" ==>
      MatchRoutes(ProtectedRoutes, url, g) == Activated(MoviesByGenreComponent, g, [("genreName", url[2])])
    ensures |url| == 2 && url[0] == "search" ==>
      MatchRoutes(ProtectedRoutes, url, g) == Activated(SearchResultsComponent, g, [("term", url[1])])
  {
    var r1, r2 := ProtectedRoutes[1], ProtectedRoutes[2];
    assert ProtectedRoutes[1..] == [r1, r2] && [r1, r2][1..] == [r2] && [r2][1..] == [];
    HomeRoute(url, g);
    GenreRoute(url, g);
    SearchRoute(url, g);
    assert MatchRoutes([], url, g) == NoMatch;
    var m2 := MatchRoutes([r2], url, g);
    assert m2 == if MatchRoute(r2, url, g) != NoMatch then MatchRoute(r2, url, g) else MatchRoutes([], url, g);
    var m1 := MatchRoutes([r1, r2], url, g);
    assert m1 == if MatchRoute(r1, url, g) != NoMatch then MatchRoute(r1, url, g) else m2;
  }

  /** The four top-level routes one by one. */
  lemma TopRoutes(url: seq<string>, g: seq<Guard>)
    ensures MatchRoute(AppRoutes[0], url, g) == if url == [] then Redirected(["home"]) else NoMatch
    ensures MatchRoute(AppRoutes[1], url, g) ==
      if url != [] && url[0] == "auth" then Delegated(AuthRoutes, g, url[1..]) else NoMatch
    ensures MatchRoute(AppRoutes[2], url, g) == MatchRoutes(ProtectedRoutes, url, g + [AuthGuard])
    ensures MatchRoute(AppRoutes[3], url, g) == Redirected(["home"])
  {
    LiteralPrefix("auth", "auth", url);
    assert url[0..] == url && url[|url|..] == [];
    assert g + [] == g;
  }

  /** How the table answers before redirects are followed. */
  lemma FirstMatch(url: seq<string>)
    ensures url == [] ==> MatchRoutes(AppRoutes, url, []) == Redirected(["home"])
    ensures url != [] && url[0] == "auth" ==> MatchRoutes(AppRoutes, url, []) == Delegated(AuthRoutes, [], url[1..])
    ensures url != [] && url[0] != "auth" && IsProtectedPath(url) ==>
      MatchRoutes(AppRoutes, url, []) == MatchRoutes(ProtectedRoutes, url, [AuthGuard])
    ensures url != [] && url[0] != "auth" && !IsProtectedPath(url) ==> MatchRoutes(AppRoutes, url, []) == Redirected(["home"])
  {
    var r1, r2, r3 := AppRoutes[1], AppRoutes[2], AppRoutes[3];
    assert AppRoutes[1..] == [r1, r2, r3] && [r1, r2, r3][1..] == [r2, r3] && [r2, r3][1..] == [r3];
    assert [] + [AuthGuard] == [AuthGuard];
    TopRoutes(url, []);
    ProtectedMatch(url, [AuthGuard]);
    var m3 := MatchRoutes([r3], url, []);
    assert m3 == Redirected(["home"]);
    var m2 := MatchRoutes([r2, r3], url, []);
    assert m2 == if MatchRoute(r2, url, []) != NoMatch then MatchRoute(r2, url, []) else m3;
    var m1 := MatchRoutes([r1, r2, r3], url, []);
    assert m1 == if MatchRoute(r1, url, []) != NoMatch then MatchRoute(r1, url, []) else m2;
  }

  /** The empty URL and every URL the table does not know end at the home page, behind
      `authGuard`. */
  lemma {:induction false} UnknownUrlsGoHome(url: seq<string>)
    requires url == [] || (url[0] != "auth" && !IsProtectedPath(url))
    ensures Resolve(url) == Activated(HomeComponent, [AuthGuard], [])
  {
    FirstMatch(url);
    FirstMatch(["home"]);
    ProtectedMatch(["home"], [AuthGuard]);
  }

  /** Every URL ends either in the lazily loaded authentication routes, unguarded, or at one of
      the three pages behind `authGuard` and nothing else; `profileGuard` guards no URL. */
  lemma {:induction false} EveryUrlResolves(url: seq<string>)
    ensures Resolve(url).Delegated? <==> url != [] && url[0] == "auth"
    ensures Resolve(url).Delegated? ==> Resolve(url) == Delegated(AuthRoutes, [], url[1..])
    ensures !Resolve(url).Delegated? ==> Resolve(url).Activated? && Resolve(url).guards == [AuthGuard]
    ensures Resolve(url).Activated? ==>
      Resolve(url).component in {HomeComponent, MoviesByGenreComponent, SearchResultsComponent}
    ensures ProfileGuard !in Resolve(url).guards
  {
    FirstMatch(url);
    ProtectedMatch(url, [AuthGuard]);
    if url == [] || (url[0] != "auth" && !IsProtectedPath(url)) {
      UnknownUrlsGoHome(url);
    }
  }

  /** The pages the application links to without routing them: the movie page, the profile
      setup the profile guard redirects to, the favourites page and "my list". */
  lemma UnroutedPagesGoHome(id: string)
    ensures Resolve(["movie", id]) == Activated(HomeComponent, [AuthGuard], [])
    ensures Resolve(["setup-profile"]) == Activated(HomeComponent, [AuthGuard], [])
    ensures Resolve(["favorites"]) == Activated(HomeComponent, [AuthGuard], [])
    ensures Resolve(["mylist"]) == Activated(HomeComponent, [AuthGuard], [])
  {
    UnknownUrlsGoHome(["movie", id]);
    UnknownUrlsGoHome(["setup-profile"]);
    UnknownUrlsGoHome(["favorites"]);
    UnknownUrlsGoHome(["mylist"]);
  }

  /** The genre and search pages bind the URL's last segment. */
  lemma RoutedPages(genreName: string, term: string)
    ensures Resolve(["home"]) == Activated(HomeComponent, [AuthGuard], [])
    ensures Resolve(["movies", "genres", genreName]) == Activated(MoviesByGenreComponent, [AuthGuard], [("genreName", genreName)])
    ensures Resolve(["search", term]) == Activated(SearchResultsComponent, [AuthGuard], [("term", term)])
  {
    FirstMatch(["home"]);
    ProtectedMatch(["home"], [AuthGuard]);
    FirstMatch(["movies", "genres", genreName]);
    ProtectedMatch(["movies", "genres", genreName], [AuthGuard]);
    FirstMatch(["search", term]);
    ProtectedMatch(["search", term], [AuthGuard]);
  }
}
