/** The catalogue (`MovieAppService`): paged movie queries built from a partial parameter
    object over defaults, the genre list with its in-memory cache, and the lookup of a genre by
    the slug of its name. */
module MovieApp {
  import opened Wrappers
  import opened Models
  import opened Http
  import opened Js
  import opened Auth
  import opened ReplaceSpaces

  /** The JavaScript values a query parameter may hold. Numbers are integers. */
  datatype JsValue = Undefined | Null | Str(s: string) | Num(n: int) | Bool(b: bool)

  /** A plain object: its own properties in insertion order. */
  type JsObject = seq<(string, JsValue)>

  const MoviesUrl: string := "/api/movies"
  const GenresUrl: string := "/api/genres"
  const DefaultQuery: JsObject := [("page", Num(1)), ("pageSize", Num(30))]

  function Keys<V>(o: seq<(string, V)>): (ks: seq<string>)
    ensures |ks| == |o|
    ensures forall i :: 0 <= i < |o| ==> ks[i] == o[i].0
    decreases |o|
  {
    if o == [] then [] else [o[0].0] + Keys(o[1..])
  }

  /** Whether the object has an own property named `k`. */
  predicate HasKey<V>(o: seq<(string, V)>, k: string)
    decreases |o|
  {
    o != [] && (o[0].0 == k || HasKey(o[1..], k))
  }

  lemma {:induction false} HasKeyIndex<V>(o: seq<(string, V)>, k: string)
    ensures HasKey(o, k) <==> exists i :: 0 <= i < |o| && o[i].0 == k
    decreases |o|
  {
    if o != [] {
      HasKeyIndex(o[1..], k);
      if HasKey(o[1..], k) {
        var i :| 0 <= i < |o[1..]| && o[1..][i].0 == k;
        assert o[i + 1].0 == k;
      }
      if o[0].0 != k && exists i :: 0 <= i < |o| && o[i].0 == k {
        var i :| 0 <= i < |o| && o[i].0 == k;
        assert o[1..][i - 1].0 == k;
      }
    }
  }

  /** The properties of a JavaScript object have distinct names. */
  predicate UniqueKeys<V>(o: seq<(string, V)>) {
    forall i, j :: 0 <= i < j < |o| ==> o[i].0 != o[j].0
  }

  lemma UniqueHead<V>(o: seq<(string, V)>)
    requires UniqueKeys(o) && o != []
    ensures !HasKey(o[1..], o[0].0) && UniqueKeys(o[1..])
  {
    forall i | 0 <= i < |o[1..]| ensures o[1..][i].0 != o[0].0 {
      assert o[1..][i] == o[i + 1];
    }
    HasKeyIndex(o[1..], o[0].0);
  }

  lemma UniqueCons<V>(x: (string, V), t: seq<(string, V)>)
    requires UniqueKeys(t) && !HasKey(t, x.0)
    ensures UniqueKeys([x] + t)
  {
    HasKeyIndex(t, x.0);
    var o := [x] + t;
    forall i, j | 0 <= i < j < |o| ensures o[i].0 != o[j].0 {
      assert o[j] == t[j - 1];
      if i > 0 {
        assert o[i] == t[i - 1];
      }
    }
  }

  lemma UniqueBefore<V>(o: seq<(string, V)>, i: int)
    requires UniqueKeys(o) && 0 <= i < |o|
    ensures !HasKey(o[..i], o[i].0)
  {
    HasKeyIndex(o[..i], o[i].0);
    forall j | 0 <= j < i ensures o[..i][j].0 != o[i].0 {
      assert o[..i][j] == o[j];
    }
  }

  /** The value of property `k`, if the object has one. */
  function Lookup<V>(o: seq<(string, V)>, k: string): (r: Option<V>)
    ensures r.None? <==> !HasKey(o, k)
    decreases |o|
  {
    if o == [] then None
    else if o[0].0 == k then Some(o[0].1)
    else Lookup(o[1..], k)
  }

  /** In an object with distinct names, each property is found under its own name. */
  lemma {:induction false} LookupAt<V>(o: seq<(string, V)>, i: int)
    requires UniqueKeys(o) && 0 <= i < |o|
    ensures HasKey(o, o[i].0) && Lookup(o, o[i].0) == Some(o[i].1)
    decreases i
  {
    if i > 0 {
      UniqueHead(o);
      LookupAt(o[1..], i - 1);
    }
  }

  /** `o[k] = v` on a plain object (and `HttpParams.set` on the parameters): an existing
      property keeps its place, a new one goes last. */
  function Assign<V>(o: seq<(string, V)>, k: string, v: V): (r: seq<(string, V)>)
    ensures !HasKey(o, k) ==> r == o + [(k, v)]
    decreases |o|
  {
    if o == [] then [(k, v)]
    else if o[0].0 == k then [(k, v)] + o[1..]
    else
      var r := [o[0]] + Assign(o[1..], k, v);
      assert !HasKey(o, k) ==> r == o + [(k, v)] by {
        if !HasKey(o, k) {
          assert o == [o[0]] + o[1..];
        }
      }
      r
  }

  /** After the assignment `k` holds `v` and every other property is as it was. */
  lemma {:induction false} AssignLookup<V>(o: seq<(string, V)>, k: string, v: V, k': string)
    ensures Lookup(Assign(o, k, v), k') == if k' == k then Some(v) else Lookup(o, k')
    decreases |o|
  {
    if o != [] && o[0].0 != k {
      AssignLookup(o[1..], k, v, k');
      assert Assign(o, k, v)[1..] == Assign(o[1..], k, v);
    } else if o != [] {
      assert Assign(o, k, v)[1..] == o[1..];
    }
  }

  /** The assignment adds at most the key `k` and keeps the names of the existing properties
      in place. */
  lemma {:induction false} AssignKeys<V>(o: seq<(string, V)>, k: string, v: V, k': string)
    ensures HasKey(Assign(o, k, v), k') <==> k' == k || HasKey(o, k')
    ensures |Assign(o, k, v)| >= |o|
    ensures Keys(Assign(o, k, v))[..|o|] == Keys(o)
    decreases |o|
  {
    if o != [] {
      var r := Assign(o, k, v);
      if o[0].0 != k {
        AssignKeys(o[1..], k, v, k');
        assert r[1..] == Assign(o[1..], k, v);
      } else {
        assert r[1..] == o[1..];
      }
    }
  }

  lemma {:induction false} AssignUnique<V>(o: seq<(string, V)>, k: string, v: V)
    requires UniqueKeys(o)
    ensures UniqueKeys(Assign(o, k, v))
    decreases |o|
  {
    if o == [] {
    } else if o[0].0 == k {
      UniqueHead(o);
      UniqueCons((k, v), o[1..]);
    } else {
      UniqueHead(o);
      AssignUnique(o[1..], k, v);
      AssignKeys(o[1..], k, v, o[0].0);
      UniqueCons(o[0], Assign(o[1..], k, v));
    }
  }

  /** `{ ...target, ...source }` on objects: the source's properties assigned in order. */
  function Spread<V>(target: seq<(string, V)>, source: seq<(string, V)>): seq<(string, V)>
    decreases |source|
  {
    if source == [] then target
    else Spread(Assign(target, source[0].0, source[0].1), source[1..])
  }

  /** A spread property is the source's when the source has it, the target's otherwise. */
  lemma {:induction false} SpreadLookup<V>(target: seq<(string, V)>, source: seq<(string, V)>, k: string)
    requires UniqueKeys(source)
    ensures Lookup(Spread(target, source), k) == if HasKey(source, k) then Lookup(source, k) else Lookup(target, k)
    decreases |source|
  {
    if source != [] {
      var t := Assign(target, source[0].0, source[0].1);
      UniqueHead(source);
      SpreadLookup(t, source[1..], k);
      AssignLookup(target, source[0].0, source[0].1, k);
    }
  }

  /** Spreading keeps every name once, the target's names first and in their order. */
  lemma {:induction false} SpreadKeys<V>(target: seq<(string, V)>, source: seq<(string, V)>)
    requires UniqueKeys(target)
    ensures UniqueKeys(Spread(target, source))
    ensures |Spread(target, source)| >= |target|
    ensures Keys(Spread(target, source))[..|target|] == Keys(target)
    decreases |source|
  {
    if source != [] {
      var t := Assign(target, source[0].0, source[0].1);
      AssignUnique(target, source[0].0, source[0].1);
      AssignKeys(target, source[0].0, source[0].1, source[0].0);
      SpreadKeys(t, source[1..]);
      assert Keys(Spread(target, source))[..|target|] == Keys(Spread(t, source[1..]))[..|t|][..|target|];
    }
  }

  /** The condition `value !== undefined && value !== null && value !== ''`. */
  predicate Kept(v: JsValue) {
    !(v.Undefined? || v.Null? || v == Str(""))
  }

  /** `value.toString()` for the values that are kept. */
  function Stringify(v: JsValue): string {
    match v
    case Str(s) => s
    case Num(n) => IntToString(n)
    case Bool(b) => if b then "true" else "false"
    case Undefined => "undefined"
    case Null => "null"
  }

  /** The query string `createMovieParams` yields: the kept properties, stringified, in order. */
  function KeptParams(o: JsObject): (ps: seq<(string, string)>)
    decreases |o|
  {
    if o == [] then []
    else (if Kept(o[0].1) then [(o[0].0, Stringify(o[0].1))] else []) + KeptParams(o[1..])
  }

  lemma {:induction false} KeptParamsSnoc(o: JsObject, x: (string, JsValue))
    ensures KeptParams(o + [x]) == KeptParams(o) + (if Kept(x.1) then [(x.0, Stringify(x.1))] else [])
    decreases |o|
  {
    if o == [] {
      assert [] + [x] == [x];
      assert [x][1..] == [];
    } else {
      assert (o + [x])[0] == o[0];
      assert (o + [x])[1..] == o[1..] + [x];
      KeptParamsSnoc(o[1..], x);
      var head := if Kept(o[0].1) then [(o[0].0, Stringify(o[0].1))] else [];
      var tail := if Kept(x.1) then [(x.0, Stringify(x.1))] else [];
      calc {
        KeptParams(o + [x]);
        head + KeptParams(o[1..] + [x]);
        head + (KeptParams(o[1..]) + tail);
        (head + KeptParams(o[1..])) + tail;
        KeptParams(o) + tail;
      }
    }
  }

  /** A parameter name is sent exactly when some property of that name has a kept value (not
      `undefined`, `null` or `''`); in particular filtering introduces no name. */
  lemma {:induction false} KeptParamsHasKey(o: JsObject, k: string)
    ensures HasKey(KeptParams(o), k) <==> exists i :: 0 <= i < |o| && o[i].0 == k && Kept(o[i].1)
    ensures HasKey(KeptParams(o), k) ==> HasKey(o, k)
    decreases |o|
  {
    if o != [] {
      KeptParamsHasKey(o[1..], k);
      if !Kept(o[0].1) {
        assert KeptParams(o) == KeptParams(o[1..]);
      } else {
        assert KeptParams(o)[1..] == KeptParams(o[1..]);
      }
      if i :| 1 <= i < |o| && o[i].0 == k && Kept(o[i].1) {
        assert o[1..][i - 1] == o[i];
      }
      if j :| 0 <= j < |o[1..]| && o[1..][j].0 == k && Kept(o[1..][j].1) {
        assert o[j + 1] == o[1..][j];
      }
    }
  }

  /** A parameter is present exactly when its property was kept, with the stringified value. */
  lemma {:induction false} KeptParamsLookup(o: JsObject, k: string)
    requires UniqueKeys(o)
    ensures Lookup(KeptParams(o), k) ==
      if Lookup(o, k).Some? && Kept(Lookup(o, k).value) then Some(Stringify(Lookup(o, k).value)) else None
    decreases |o|
  {
    if o != [] {
      UniqueHead(o);
      KeptParamsLookup(o[1..], k);
      if o[0].0 == k {
        KeptParamsHasKey(o[1..], k);
      }
      if !Kept(o[0].1) {
        assert KeptParams(o) == KeptParams(o[1..]);
      } else {
        assert KeptParams(o)[1..] == KeptParams(o[1..]);
      }
    }
  }

  /** `createMovieParams`: each kept property is `set` on the parameters in key order. */
  method CreateMovieParams(params: JsObject) returns (hp: seq<(string, string)>)
    requires UniqueKeys(params)
    ensures hp == KeptParams(params)
  {
    hp := [];
    var i := 0;
    while i < |params|
      invariant 0 <= i <= |params|
      invariant hp == KeptParams(params[..i])
    {
      var (key, value) := params[i];
      assert params[..i + 1] == params[..i] + [params[i]];
      KeptParamsSnoc(params[..i], params[i]);
      if Kept(value) {
        UniqueBefore(params, i);
        KeptParamsHasKey(params[..i], key);
        hp := Assign(hp, key, Stringify(value));
      }
      i := i + 1;
    }
    assert params[..i] == params;
  }

  /** The query of `getMovies(params)`: the defaults page 1 and size 30, overridden by `params`. */
  function MovieQuery(params: JsObject): seq<(string, string)> {
    KeptParams(Spread(DefaultQuery, params))
  }

  /** A parameter of the movie query is the caller's when the caller names it (absent again if
      the caller's value is not kept), the default otherwise. */
  lemma MovieQueryLookup(params: JsObject, k: string)
    requires UniqueKeys(params)
    ensures var v := if HasKey(params, k) then Lookup(params, k) else Lookup(DefaultQuery, k);
      Lookup(MovieQuery(params), k) == if v.Some? && Kept(v.value) then Some(Stringify(v.value)) else None
  {
    SpreadKeys(DefaultQuery, params);
    SpreadLookup(DefaultQuery, params, k);
    KeptParamsLookup(Spread(DefaultQuery, params), k);
  }

  /** With no parameters the query is `page=1&pageSize=30`. */
  lemma DefaultMovieQuery()
    ensures MovieQuery([]) == [("page", "1"), ("pageSize", "30")]
  {
    assert IntToString(30) == "30" by {
      assert NatToString(30) == NatToString(3) + [DigitChar(0)];
    }
    assert DefaultQuery[1..] == [("pageSize", Num(30))];
    assert KeptParams(DefaultQuery[1..]) == [("pageSize", "30")];
  }

  /** The defaults come first in the query object whatever the caller passes. */
  lemma MovieQueryStartsWithDefaults(params: JsObject)
    requires UniqueKeys(params)
    ensures |Spread(DefaultQuery, params)| >= 2
    ensures Keys(Spread(DefaultQuery, params))[..2] == ["page", "pageSize"]
  {
    SpreadKeys(DefaultQuery, params);
  }

  /** The request `getMovies(params)` sends. */
  function MoviesRequest(params: JsObject): Request {
    NewRequest(Get, MoviesUrl, MovieQuery(params), NoBody)
  }

  function GenresRequest(): Request {
    NewRequest(Get, GenresUrl, [], NoBody)
  }

  /** The guard of the cached branch of `getAllGenres`: a cache that is set and not empty. */
  predicate CacheHit(cache: Option<seq<GenreSummary>>) {
    cache.Some? && |cache.value| > 0
  }

  /** The cache after `getAllGenres` answered `d` from the server. */
  function CacheAfter(cache: Option<seq<GenreSummary>>, d: Delivered<seq<GenreSummary>>): (c: Option<seq<GenreSummary>>)
    ensures d.Next? ==> c == Some(d.value)
    ensures d.Error? ==> c == cache
  {
    if d.Next? then Some(d.value) else cache
  }

  /** Once a non-empty list is fetched, later calls are served from the cache; an empty list is
      cached too but never serves a call, so every later call asks the server again. */
  lemma CacheServesAfterFetch(cache: Option<seq<GenreSummary>>, d: Delivered<seq<GenreSummary>>)
    ensures d.Next? && d.value != [] ==> CacheHit(CacheAfter(cache, d))
    ensures d.Next? && d.value == [] ==> !CacheHit(CacheAfter(cache, d))
    ensures d.Error? ==> CacheHit(CacheAfter(cache, d)) == CacheHit(cache)
  {
  }

  /** `cachedGenres.find(genre => transform(genre.name) === slugName) || null`. */
  function FindBySlug(genres: seq<GenreSummary>, slug: string): Option<GenreSummary>
    decreases |genres|
  {
    if genres == [] then None
    else if Slug(genres[0].name) == slug then Some(genres[0])
    else FindBySlug(genres[1..], slug)
  }

  /** The lookup finds the first genre whose name slugs to `slug`, and finds nothing exactly
      when no genre does. */
  lemma {:induction false} FindBySlugFirst(genres: seq<GenreSummary>, slug: string)
    ensures FindBySlug(genres, slug).None? <==> forall i :: 0 <= i < |genres| ==> Slug(genres[i].name) != slug
    ensures FindBySlug(genres, slug).Some? ==>
      exists i :: 0 <= i < |genres| && genres[i] == FindBySlug(genres, slug).value && Slug(genres[i].name) == slug &&
        forall j :: 0 <= j < i ==> Slug(genres[j].name) != slug
    decreases |genres|
  {
    if genres != [] && Slug(genres[0].name) != slug {
      var tail := genres[1..];
      FindBySlugFirst(tail, slug);
      var r := FindBySlug(tail, slug);
      if r.Some? {
        var i :| 0 <= i < |tail| && tail[i] == r.value && Slug(tail[i].name) == slug &&
          forall j :: 0 <= j < i ==> Slug(tail[j].name) != slug;
        assert genres[i + 1] == r.value;
        forall j | 0 <= j < i + 1 ensures Slug(genres[j].name) != slug {
          if j > 0 {
            assert genres[j] == tail[j - 1];
          }
        }
      } else {
        forall i | 0 <= i < |genres| ensures Slug(genres[i].name) != slug {
          if i > 0 {
            assert genres[i] == tail[i - 1];
          }
        }
      }
    }
  }

  /** A link built from a listed genre's name resolves to a genre of that slug, and to that very
      genre when no two listed genres share a slug. */
  lemma GenreLinkResolves(genres: seq<GenreSummary>, k: int)
    requires 0 <= k < |genres|
    ensures FindBySlug(genres, Slug(genres[k].name)).Some?
    ensures Slug(FindBySlug(genres, Slug(genres[k].name)).value.name) == Slug(genres[k].name)
    ensures (forall i, j :: 0 <= i < j < |genres| ==> Slug(genres[i].name) != Slug(genres[j].name)) ==>
      FindBySlug(genres, Slug(genres[k].name)) == Some(genres[k])
  {
    var slug := Slug(genres[k].name);
    FindBySlugFirst(genres, slug);
    var r := FindBySlug(genres, slug);
    var i :| 0 <= i < |genres| && genres[i] == r.value && Slug(genres[i].name) == slug &&
      forall j :: 0 <= j < i ==> Slug(genres[j].name) != slug;
    assert i <= k;
  }

  /** The genre of a slug that is itself a slug's slug: taking the slug again changes nothing. */
  lemma ReslugResolvesSame(genres: seq<GenreSummary>, name: string)
    ensures FindBySlug(genres, Slug(Slug(name))) == FindBySlug(genres, Slug(name))
  {
    SlugIdempotent(name);
  }

  class MovieAppService {
    const auth: AuthService
    var genresCache: Option<seq<GenreSummary>>

    ghost function Env(): set<object> {
      {this} + auth.Env()
    }

    constructor (auth: AuthService)
      ensures this.auth == auth && genresCache == None
    {
      this.auth := auth;
      genresCache := None;
    }

    /** `getMovies(params = {})`. */
    method GetMovies(raw: Response<ApiResponse<PagedList<MovieSummary>>>, params: JsObject := [])
      returns (d: Delivered<PagedList<MovieSummary>>)
      requires UniqueKeys(params)
      modifies Env()
      ensures auth.http.sent == old(auth.http.sent) + [Outgoing(MoviesRequest(params), TokenIn(old(auth.storage.items)))]
      ensures d == Unwrap(Deliver(raw)) && genresCache == old(genresCache)
      ensures auth.isLoading == old(auth.isLoading) && auth.Reacted([IsUnauthorized(raw)])
    {
      RequestMovies(params);
      d := ReceiveMovies(raw);
    }

    /** Subscribing to `getMovies(params)`: the request leaves. */
    method RequestMovies(params: JsObject)
      requires UniqueKeys(params)
      modifies auth.http
      ensures auth.http.sent == old(auth.http.sent) + [Outgoing(MoviesRequest(params), TokenIn(auth.storage.items))]
    {
      var httpParams := BuildMoviesQuery(params);
      Send(auth, NewRequest(Get, MoviesUrl, httpParams, NoBody));
    }

    /** The answer to a `getMovies` request reaching its subscriber. */
    method ReceiveMovies(raw: Response<ApiResponse<PagedList<MovieSummary>>>) returns (d: Delivered<PagedList<MovieSummary>>)
      modifies auth, auth.storage, auth.router
      ensures d == Unwrap(Deliver(raw))
      ensures auth.isLoading == old(auth.isLoading) && auth.Reacted([IsUnauthorized(raw)])
    {
      var response := Receive(auth, raw);
      d := Unwrap(response);
    }

    /** `getAllGenres`: served from a non-empty cache without a request, otherwise fetched and
        cached. */
    method GetAllGenres(raw: Response<seq<GenreSummary>>) returns (d: Delivered<seq<GenreSummary>>)
      modifies Env()
      ensures CacheHit(old(genresCache)) ==>
        d == Next(old(genresCache).value) && genresCache == old(genresCache) &&
        auth.http.sent == old(auth.http.sent) && auth.Reacted([])
      ensures !CacheHit(old(genresCache)) ==>
        d == Deliver(raw) && genresCache == CacheAfter(old(genresCache), d) &&
        auth.http.sent == old(auth.http.sent) + [Outgoing(GenresRequest(), TokenIn(old(auth.storage.items)))] &&
        auth.Reacted([IsUnauthorized(raw)])
      ensures auth.isLoading == old(auth.isLoading)
    {
      var cached := genresCache;
      if cached.Some? && |cached.value| > 0 {
        return Next(cached.value);
      }
      d := Intercept(auth, GenresRequest(), raw);
      if d.Next? {
        genresCache := Some(d.value);
      }
    }

    /** `getGenreBySlug`: `null` before the genres are loaded. */
    function GetGenreBySlug(slug: string): (r: Option<GenreSummary>)
      reads this
      ensures genresCache.None? ==> r.None?
      ensures genresCache.Some? ==> r == FindBySlug(genresCache.value, slug)
    {
      if genresCache.None? then None else FindBySlug(genresCache.value, slug)
    }
  }

  /** The query half of `getMovies`: the parameters it puts on the wire. */
  method BuildMoviesQuery(params: JsObject) returns (hp: seq<(string, string)>)
    requires UniqueKeys(params)
    ensures hp == MovieQuery(params)
  {
    var query := Spread(DefaultQuery, params);
    SpreadKeys(DefaultQuery, params);
    hp := CreateMovieParams(query);
  }
}
