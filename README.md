# Movie app frontend: session, access control and page state

This project is a Dafny model of the client-side decision logic of an Angular movie-streaming
frontend. It covers the following parts:

- **Authentication service.** Login, registration, logout and session restore. The session is a
  token pair in `localStorage` plus a signed-in user.
- **HTTP interceptor.** It adds the bearer header to outgoing requests. When a response is a
  401, it logs the user out and replaces the error with a plain message.
- **The two route guards.**
- **Profile service.** It holds the current-profile cache and the favourites calls.
- **Movie service.** Query-parameter filtering with default merging, the genre cache and the
  lookup of a genre by its slug.
- **The slug pipe.**
- **The route table.**
- **The page components.** Home, genre page, search results, movie details, favourites, profile
  set-up, sign-in, sign-up, the navigation bar and the root component.

Each remote call is modelled as follows:

- The server's outcome is a parameter, `Http.Response`, which is either `Ok(value)` or
  `Fail(status, body)`.
- Every call goes through the interceptor. The request half (`Auth.Send`) appends the request,
  with its headers set as they leave the client, to a log (`Browser.Network.sent`).
- The response half (`Auth.Receive`) turns the outcome into what the subscriber sees
  (`Http.Delivered`).
- Navigations are recorded in `Browser.Router.history`, and `localStorage` is a map
  (`Browser.LocalStorage.items`).

Services and components are classes whose fields are the signals and fields of the source.
Each handler is a method whose `ensures` gives the new state of every field it may change. The
page logic rests on a few pure functions:

- `Auth.Deliver`, what the interceptor delivers;
- `Auth.ErrorMessage`, the message derivation of `handleError`;
- `MovieApp.MovieQuery`, the query a movie search sends;
- `ReplaceSpaces.Transform`, the slug;
- `Routes.Resolve`, route matching.

Lemmas state the properties of these functions.

The logout done on a 401 is stated once, by `Auth.SessionReaction`:

- After a series of answers, the session is unchanged when none was a 401.
- Otherwise the tokens are removed, the user is cleared, and one navigation to `/auth/login` is
  recorded for each 401.

`Auth.ReactionCompose` shows that two such steps compose into one. Pages that make several calls
(for example the home page) use it to state their combined effect.

## Model

| member | source | states |
|---|---|---|
| Auth.TokenIn | src/app/core/auth/auth.interceptor.ts:13 | the stored access token, `null` when the key is absent |
| Auth.WithoutTokens | src/app/core/auth/auth.service.ts:49-51 | storage after logout: both token keys gone, every other key kept |
| Auth.WithoutTokensIdempotent | src/app/core/auth/auth.service.ts:49-54 | logging out twice removes the same keys as once |
| Auth.ErrorMessage | src/app/core/auth/auth.service.ts:67-82 | `errors` joined by `<br>` when the body has them, else a truthy `message`, else the default text |
| Auth.ErrorsWinOverMessage | src/app/core/auth/auth.service.ts:71-75 | with an `errors` array the message and the status play no part |
| Auth.ProfileIdOf | src/app/core/auth/auth.service.ts:84-86 | the user's id when it is a non-empty string, `""` otherwise |
| Auth.SplitJoin | src/app/core/auth/auth.service.ts:93 | splitting on `.` and joining back gives the token again |
| Auth.PayloadSegment | src/app/core/auth/auth.service.ts:93 | a segment exists exactly when the token holds a `.`, and it holds no `.` itself |
| Auth.PayloadOfCompact | src/app/core/auth/auth.service.ts:93 | in `header.payload` or `header.payload.signature` the segment read is the payload |
| Auth.RestoredUser | src/app/core/auth/auth.service.ts:88-112 | no token, no payload segment, an undecodable payload or no non-empty email claim keeps the user; a decoded non-empty email claim gives the user `{id: Id claim, email}` |
| Auth.RestoreCompact | src/app/core/auth/auth.service.ts:92-108 | a compact token restores from its decoded payload: undecodable or without an email keeps the user, with one signs in that email |
| Auth.RestoreWithoutDot | src/app/core/auth/auth.service.ts:93-94 | a token with no `.` has no payload, so the user is kept |
| Auth.RestoreIdempotent | src/app/core/auth/auth.service.ts:88-112 | restoring twice from the same token gives the user of restoring once |
| Auth.Outgoing | src/app/core/auth/auth.interceptor.ts:13-24 | with a truthy token only `Authorization: Bearer <token>` is set and every other part is kept; otherwise the request is forwarded unchanged |
| Auth.Deliver | src/app/core/auth/auth.interceptor.ts:27-45 | a success passes untouched, a non-401 error is rethrown as it is, a 401 becomes the session-expired string, and no 401 status reaches a subscriber |
| Auth.UnauthorizedAuthMessage | src/app/core/auth/auth.service.ts:67-82 | a login that meets a 401 ends with the default message, because the string error has no body |
| Auth.CountTrueAppend | src/app/core/auth/auth.interceptor.ts:31-41 | the number of 401s of two series of answers adds up |
| Auth.RepeatAppend | src/app/core/auth/auth.interceptor.ts:36 | the login navigations of two series of 401s concatenate |
| Auth.ReactionCompose | src/app/core/auth/auth.interceptor.ts:31-41 | two session reactions in a row are one reaction to both series of answers |
| Auth.AuthService.constructor | src/app/core/auth/auth.service.ts:20-25 | a new service is not loading, and its user is the one restored from storage |
| Auth.AuthService.Login | src/app/core/auth/auth.service.ts:27-36 | one POST to `/login`; on success the tokens are stored, the user is `{email}` and home is opened; on failure the `handleError` message is returned and the session reacts only to a 401; loading ends either way |
| Auth.AuthService.Register | src/app/core/auth/auth.service.ts:38-47 | the same for `/register`, with the user `{email, name: userName}` |
| Auth.AuthService.Authenticate | src/app/core/auth/auth.service.ts:27-47 | the pipeline the two share, with the same contract |
| Auth.AuthService.HandleAuthSuccess | src/app/core/auth/auth.service.ts:57-65 | both tokens stored, the user set, one navigation to `/home` |
| Auth.AuthService.HandleError | src/app/core/auth/auth.service.ts:67-82 | loading off and the derived message, the user untouched |
| Auth.AuthService.Logout | src/app/core/auth/auth.service.ts:49-54 | both keys removed, no user, one navigation to `/auth/login`; nothing outside the session changes |
| Auth.AuthService.CheckToken | src/app/core/auth/auth.service.ts:88-112 | the user becomes `RestoredUser` of the stored token |
| Auth.Send | src/app/core/auth/auth.interceptor.ts:11-27 | the logged request is the `Outgoing` form of the request under the stored token |
| Auth.Receive | src/app/core/auth/auth.interceptor.ts:27-46 | delivers `Deliver(raw)`, after one logout when the answer is a 401 and no session change otherwise |
| Auth.Intercept | src/app/core/auth/auth.interceptor.ts:11-47 | one request logged, the delivered value, and the session reaction to its answer |
| Http.HeaderValue | src/app/core/auth/auth.interceptor.ts:19-23 | a header's value is absent exactly when no header has that name |
| Http.ReplaceHeaderValue | src/app/core/auth/auth.interceptor.ts:19-23 | replacing a header sets it and leaves the others |
| Http.AppendHeaderValue | src/app/core/auth/auth.interceptor.ts:19-23 | a new header is found and the others are kept |
| Http.SetHeader | src/app/core/auth/auth.interceptor.ts:19-23 | `setHeaders`: afterwards the header has the value and every other header is unchanged |
| Http.Unwrap | src/app/core/services/movie-app.service.ts:53-55 | `map(response => response.data)`: success carries `data`, an error is kept |
| Guards.AuthGuardDecision | src/app/core/auth/auth.guard.ts:14-35 | admission exactly when the stored token is truthy, whatever the user |
| Guards.AuthGuard | src/app/core/auth/auth.guard.ts:9-36 | the decision, plus one navigation to `/auth/login` on a denial and none on an admission; storage and user untouched |
| Guards.ProfileGuardOutcome | src/app/core/profile/profile.guard.ts:24-38 | allow exactly on success; a 404 goes to `/setup-profile`, any other error to `/auth/login` |
| Guards.UnauthorizedProfileGoesToLogin | src/app/core/profile/profile.guard.ts:36-38 | a 401 during the profile check goes to login, not to set-up |
| Guards.CreateThenGuard | src/app/core/services/profile.service.ts:38-48 | after a successful creation the profile is cached, so the profile guard allows with no further request |
| Guards.ProfileGuard | src/app/core/profile/profile.guard.ts:8-40 | a cached profile allows with no request; otherwise one profile request with `getProfileId()`, the outcome above, and the cache set on success |
| Profiles.RequestsIgnoreProfileId | src/app/core/services/profile.service.ts:23-92 | the profile and favourite requests do not depend on the profile id passed in |
| Profiles.FavoriteRequestsNameTheMovie | src/app/core/services/profile.service.ts:55-92 | add sends `{movieId}`; remove targets `/favorites/<movieId>` |
| Profiles.CreatedId | src/app/core/services/profile.service.ts:38-48 | the created id is `response.id` when truthy, else the request's id; a missing body is a `TypeError` |
| Profiles.CachedProfile | src/app/core/services/profile.service.ts:40-46 | the cached profile has the request's id and name, and its image or `''` |
| Profiles.Ids | src/app/core/services/profile.service.ts:81 | the items' ids, in order |
| Profiles.IdsMembership | src/app/core/services/profile.service.ts:81 | an id is listed exactly when some item has it |
| Profiles.FavoriteIds | src/app/core/services/profile.service.ts:78-83 | success maps to the ids and an error is kept |
| Profiles.ProfileService.GetProfile | src/app/core/services/profile.service.ts:23-28 | one request; on success the cache is the profile, on failure it is unchanged |
| Profiles.ProfileService.CreateProfile | src/app/core/services/profile.service.ts:33-50 | one POST; on success the cache is the built profile and the created id is returned |
| Profiles.ProfileService.AddFavorite | src/app/core/services/profile.service.ts:55-61 | one POST with the movie id, the answer delivered, the cache untouched |
| Profiles.ProfileService.RemoveFavorite | src/app/core/services/profile.service.ts:89-92 | one DELETE of the movie, the answer delivered, the cache untouched |
| Profiles.ProfileService.GetFavorites | src/app/core/services/profile.service.ts:66-73 | page 1 and size 20 by default, and the `data` of the answer |
| Profiles.ProfileService.GetFavoriteMovieIds | src/app/core/services/profile.service.ts:78-83 | page 1 of size 100, and the items' ids |
| MovieApp.Keys | src/app/core/services/movie-app.service.ts:31 | `Object.keys`: the keys in order |
| MovieApp.HasKeyIndex | src/app/core/services/movie-app.service.ts:31-32 | a key is present exactly when some entry has it |
| MovieApp.Lookup | src/app/core/services/movie-app.service.ts:32 | a property reads absent exactly when the object lacks it |
| MovieApp.LookupAt | src/app/core/services/movie-app.service.ts:32 | in an object with distinct keys each entry's key reads its own value |
| MovieApp.AssignLookup | src/app/core/services/movie-app.service.ts:47-51 | after assigning `k` it reads the new value, and other keys read as before |
| MovieApp.AssignKeys | src/app/core/services/movie-app.service.ts:47-51 | assigning keeps the earlier keys in place and adds `k` only when absent |
| MovieApp.SpreadLookup | src/app/core/services/movie-app.service.ts:47-51 | `{...target, ...source}` reads the source's value when it has the key, else the target's |
| MovieApp.SpreadKeys | src/app/core/services/movie-app.service.ts:47-51 | the spread has exactly the keys of both |
| MovieApp.KeptParamsHasKey | src/app/core/services/movie-app.service.ts:31-38 | a parameter name is sent exactly when some property of that name has a value other than `undefined`, `null` or `''` (so `0` and `false` are sent); filtering introduces no name |
| MovieApp.KeptParamsLookup | src/app/core/services/movie-app.service.ts:31-38 | a parameter is present exactly when its property was kept, and then carries the stringified value |
| MovieApp.CreateMovieParams | src/app/core/services/movie-app.service.ts:28-41 | the loop sets exactly the kept parameters, in key order |
| MovieApp.MovieQueryLookup | src/app/core/services/movie-app.service.ts:46-51 | a parameter is the caller's when the caller names it (dropped again if its value is dropped), else the default |
| MovieApp.DefaultMovieQuery | src/app/core/services/movie-app.service.ts:47-50 | with no parameters the query is `page=1&pageSize=30` |
| MovieApp.MovieQueryStartsWithDefaults | src/app/core/services/movie-app.service.ts:47-50 | the defaults come first in the merged object |
| MovieApp.BuildMoviesQuery | src/app/core/services/movie-app.service.ts:46-51 | the parameters sent are `MovieQuery(params)` |
| MovieApp.CacheAfter | src/app/core/services/movie-app.service.ts:73-75 | a fetched list replaces the cache and an error keeps it |
| MovieApp.CacheServesAfterFetch | src/app/core/services/movie-app.service.ts:62-75 | after fetching a non-empty list the next call is a hit; an empty list is fetched again |
| MovieApp.FindBySlugFirst | src/app/core/services/movie-app.service.ts:91-93 | the first genre whose slug matches, and none exactly when no slug matches |
| MovieApp.GenreLinkResolves | src/app/core/services/movie-app.service.ts:83-94 | a genre's own slug finds a genre with that slug, that genre when slugs are distinct |
| MovieApp.ReslugResolvesSame | src/app/core/services/movie-app.service.ts:83-94 | slugging a slug again finds the same genre |
| MovieApp.MovieAppService.GetMovies | src/app/core/services/movie-app.service.ts:46-56 | one GET with `MovieQuery(params)`, its `data` delivered |
| MovieApp.MovieAppService.RequestMovies | src/app/core/services/movie-app.service.ts:47-53 | the request half of `getMovies` |
| MovieApp.MovieAppService.ReceiveMovies | src/app/core/services/movie-app.service.ts:53-55 | the answer half of `getMovies` |
| MovieApp.MovieAppService.GetAllGenres | src/app/core/services/movie-app.service.ts:61-76 | a set, non-empty cache is returned with no request; otherwise one GET and the cache updated on success |
| MovieApp.MovieAppService.GetGenreBySlug | src/app/core/services/movie-app.service.ts:83-94 | `null` with no cache, else the first cached genre with that slug |
| ReplaceSpaces.Transform | src/app/shared/pipes/replace-spaces.pipe.ts:12-28 | every output character is an ASCII word character or `-`, and a falsy value gives `''` |
| ReplaceSpaces.NfdChar | src/app/shared/pipes/replace-spaces.pipe.ts:21 | decomposition keeps a character or splits a Latin letter into base and combining mark |
| ReplaceSpaces.SlugIsLowerCase | src/app/shared/pipes/replace-spaces.pipe.ts:18-25 | with a lower-case replacement no ASCII capital survives |
| ReplaceSpaces.WhitespaceRunCollapses | src/app/shared/pipes/replace-spaces.pipe.ts:24 | a whitespace run, however long, becomes one replacement |
| ReplaceSpaces.StripNonWordDropsForeign | src/app/shared/pipes/replace-spaces.pipe.ts:24-25 | a replacement of non-word characters is itself stripped |
| ReplaceSpaces.SlugIdempotent | src/app/shared/pipes/replace-spaces.pipe.ts:12-28 | a slug is its own slug |
| ReplaceSpaces.SlugOfTwoWords | src/app/shared/pipes/replace-spaces.pipe.ts:10-24 | two words separated by whitespace slug to the words' slugs joined by `-` |
| ReplaceSpaces.SlugOfAccentedLetter | src/app/shared/pipes/replace-spaces.pipe.ts:10-21 | an accented Latin letter slugs to its lower-case base letter |
| Routes.PrefixMatchesLength | src/app/app.routes.ts:5-37 | a matching path is no longer than the URL |
| Routes.TopRoutes | src/app/app.routes.ts:5-37 | `''` redirects only the empty URL, `auth` delegates, the guarded parent adds `authGuard`, `**` redirects home |
| Routes.ProtectedMatch | src/app/app.routes.ts:18-33 | `home`, `movies/genres/:genreName` and `search/:term` match with their parameters, and nothing else does |
| Routes.FirstMatch | src/app/app.routes.ts:5-37 | the first matching top-level route for each kind of URL |
| Routes.UnknownUrlsGoHome | src/app/app.routes.ts:5-37 | the empty URL and every unmatched URL end on the home page |
| Routes.EveryUrlResolves | src/app/app.routes.ts:3-37 | `auth/...` is the only subtree not behind `authGuard`; every other URL activates one of the three pages behind exactly `authGuard`; `profileGuard` is never applied |
| Routes.UnroutedPagesGoHome | src/app/app.routes.ts:5-37 | `/movie/:id`, `/setup-profile`, `/favorites` and `/mylist` are not routes and fall through to home |
| Routes.RoutedPages | src/app/app.routes.ts:19-31 | the three routed pages with their parameters |
| HomeView.ActionGenreFirst | src/app/features/home/home.component.ts:74 | the action genre is the first whose lowercased name is `ação`, none exactly when no genre's is |
| HomeView.ActionNameSpellings | src/app/features/home/home.component.ts:74 | `Ação` and `AÇÃO` both match |
| HomeView.ActionQuery | src/app/features/home/home.component.ts:74-86 | without an action genre no `genreId` is sent; the action list asks for 12 |
| HomeView.PopularAndRecentQueries | src/app/features/home/home.component.ts:78-79 | the most-viewed and newest lists, 12 each, in their sort orders |
| HomeView.Hero | src/app/features/home/home.component.ts:101 | the first popular movie, or none for an empty list |
| HomeView.ListsLogOutAtMostOnce | src/app/features/home/home.component.ts:90-111 | the joined fetch forces at most one logout, and exactly one when an answer it reads is a 401 |
| HomeView.HomeComponent.NgOnInit | src/app/features/home/home.component.ts:49-66 | a failed genre fetch shows the genre error, stops loading and makes no list request; otherwise the genres are set and the lists fetched; the genre cache, the requests sent and the session reaction are stated in both cases |
| HomeView.HomeComponent.LoadGenres | src/app/features/home/home.component.ts:53 | the genres delivered from the cache or the server, the request only on a miss, the cache afterwards, and a session untouched when a list came |
| HomeView.HomeComponent.FetchMovieLists | src/app/features/home/home.component.ts:71-112 | the three requests; all successes set the lists and the hero, any failure keeps them and shows the join error; loading ends |
| HomeView.HomeComponent.SendLists | src/app/features/home/home.component.ts:78-86 | the three requests in order, under one token |
| HomeView.HomeComponent.ReceiveLists | src/app/features/home/home.component.ts:90-111 | the join's outcome and its session reaction |
| MovieDetailsView.IdsOrNone | src/app/features/movies/movie-details/movie-details.component.ts:46-50 | a failed favourites lookup counts as no favourites |
| MovieDetailsView.FavoritedAfterLoad | src/app/features/movies/movie-details/movie-details.component.ts:46-55 | favourited after loading exactly when a successful lookup lists the movie |
| MovieDetailsView.Toggled | src/app/features/movies/movie-details/movie-details.component.ts:110-130 | success flips; a 409 while not favourited sets it; any other error keeps it |
| MovieDetailsView.ToggleFailures | src/app/features/movies/movie-details/movie-details.component.ts:117-128 | a failure never clears the flag, and changes it only for a 409 while not favourited |
| MovieDetailsView.ToggleTwice | src/app/features/movies/movie-details/movie-details.component.ts:111-114 | two successful toggles restore the flag |
| MovieDetailsView.MovieDetailsComponent.NgOnInit | src/app/features/movies/movie-details/movie-details.component.ts:36-69 | no `id` means no request and still loading; otherwise one favourites request, loading ends, the movie is set on success and the flag follows the ids |
| MovieDetailsView.MovieDetailsComponent.ToggleFavorite | src/app/features/movies/movie-details/movie-details.component.ts:99-131 | no movie id is a no-op; otherwise remove or add by the flag, then `Toggled` and not loading |
| SearchResultsView.SearchParams | src/app/features/movies/search-results/search-results.component.ts:66-71 | the search's parameter object has distinct keys |
| SearchResultsView.SearchQuery | src/app/features/movies/search-results/search-results.component.ts:66-71 | the term (dropped if empty), the page, size 30, newest first |
| SearchResultsView.PageBounds | src/app/features/movies/search-results/search-results.component.ts:89-97 | a page is accepted exactly when it starts within the results; with no results none is |
| SearchResultsView.SearchResultsComponent.OnTermChange | src/app/features/movies/search-results/search-results.component.ts:46-87 | an empty term clears the list with no request; any other resets to page 1 and shows the answer or the search error |
| SearchResultsView.SearchResultsComponent.ChangePage | src/app/features/movies/search-results/search-results.component.ts:89-97 | an accepted page becomes current and is fetched (with no term, every other field is kept); any other page changes nothing |
| SearchResultsView.SearchResultsComponent.FetchMoviesForPage | src/app/features/movies/search-results/search-results.component.ts:99-125 | no term is a no-op; otherwise the page is requested and shown or the page error set |
| MoviesByGenreView.GenreParams | src/app/features/movies/movies-by-genre/movies-by-genre.component.ts:92-97 | the genre page's parameter object has distinct keys |
| MoviesByGenreView.GenreQuery | src/app/features/movies/movies-by-genre/movies-by-genre.component.ts:92-97 | the genre id (dropped if empty), the page, size 30, newest first |
| MoviesByGenreView.PageBounds | src/app/features/movies/movies-by-genre/movies-by-genre.component.ts:70-77 | going back is always allowed; going forward only to a page within the results |
| MoviesByGenreView.MoviesByGenreComponent.NgOnInit | src/app/features/movies/movies-by-genre/movies-by-genre.component.ts:47-55 | route parameters are followed only once the genres came; the genre request (none on a cache hit), the cache afterwards and the session reaction; the page fields untouched |
| MoviesByGenreView.MoviesByGenreComponent.OnRouteParams | src/app/features/movies/movies-by-genre/movies-by-genre.component.ts:57-68 | the slug is the parameter or `''`, the genre its lookup, page 1, then a fetch; with no genre the list is emptied and the error, total and next-page flag are kept |
| MoviesByGenreView.MoviesByGenreComponent.ChangePage | src/app/features/movies/movies-by-genre/movies-by-genre.component.ts:70-77 | an accepted page becomes current and is fetched (with no genre the list is emptied and the other fields kept); any other page changes nothing |
| MoviesByGenreView.MoviesByGenreComponent.FetchMovies | src/app/features/movies/movies-by-genre/movies-by-genre.component.ts:79-112 | no genre empties the list with no request; otherwise the page is requested and shown or the error set |
| NavbarView.AvatarInitial | src/app/shared/components/navbar/navbar.component.ts:99 | one letter: the capital of a non-empty name's first character, else of the email's, else `U` |
| NavbarView.SignedInInitial | src/app/shared/components/navbar/navbar.component.ts:99 | a user signed in by email shows the email's capital letter |
| NavbarView.GenreLinkOpensGenre | src/app/shared/components/navbar/navbar.component.ts:60 | a menu link opens the genre page with the genre's slug, which finds that genre |
| NavbarView.SearchSubmitOpensResults | src/app/shared/components/navbar/navbar.component.ts:152-159 | a submitted term opens the search page, which sends the trimmed term |
| NavbarView.NavbarComponent.NgOnInit | src/app/shared/components/navbar/navbar.component.ts:136-150 | a cache hit shows the cached genres with no request; otherwise one genre request, the genres and the cache set on success and kept on an error |
| NavbarView.NavbarComponent.OnSearchSubmit | src/app/shared/components/navbar/navbar.component.ts:152-159 | a non-blank trimmed term navigates to `['/search', term]` and clears the box; a blank one changes nothing |
| NavbarView.NavbarComponent.OnLogout | src/app/shared/components/navbar/navbar.component.ts:161-163 | one logout of the session |
| Js.TrimEmptyIffAllSpace | src/app/shared/components/navbar/navbar.component.ts:153-154 | a term trims to `''` exactly when it is all whitespace |
| AppShell.ExaminedUrl | src/app/app.component.ts:32 | `urlAfterRedirects` when truthy, else `url` |
| AppShell.HiddenWherever | src/app/app.component.ts:35-38 | a hidden route anywhere in the URL hides the bar |
| AppShell.HiddenPages | src/app/app.component.ts:35 | the set-up, sign-in and sign-up pages hide it |
| AppShell.HomeNotHidden | src/app/app.component.ts:35-38 | the home page does not |
| AppShell.AppComponent.constructor | src/app/app.component.ts:25 | the bar starts hidden |
| AppShell.AppComponent.OnNavigationEnd | src/app/app.component.ts:27-42 | shown exactly when the URL holds no hidden route and a user is signed in |
| SetupProfileView.SubmittedImage | src/app/features/setup-profile/setup-profile.component.ts:62 | the uploaded image when there is one, else the default, never empty |
| SetupProfileView.CreatedProfileHasImage | src/app/features/setup-profile/setup-profile.component.ts:58-64 | the created profile keeps the viewer's id and always has a picture |
| SetupProfileView.SetupProfileComponent.OnFileSelected | src/app/features/setup-profile/setup-profile.component.ts:33-52 | a file of at most 2 MB becomes the preview and the form image; a larger one, or none, changes nothing |
| SetupProfileView.SetupProfileComponent.OnSubmit | src/app/features/setup-profile/setup-profile.component.ts:54-78 | an invalid form sends nothing; else one create request, then home and still loading on success, or not loading on failure |
| FavoritesView.Shown | src/app/features/favorites/favorites.component.ts:32-41 | the list's items on success, none on failure |
| FavoritesView.ShownMatchesFavoriteIds | src/app/features/favorites/favorites.component.ts:32-34 | the page lists a movie exactly when its id is among the favourite ids |
| FavoritesView.FavoritesComponent.NgOnInit | src/app/features/favorites/favorites.component.ts:27-43 | one request with `getProfileId()`, page 1, size 20; then the list shown and loading ended |
| LoginView.SubmitMessage | src/app/features/auth/login/login.component.ts:26-33 | `''` after a success, the service's message after a failure |
| LoginView.SignedInPassesGuard | src/app/core/auth/auth.service.ts:57-65 | after a login the route guard admits exactly when the access token issued is not empty |
| LoginView.LoginComponent.OnSubmit | src/app/features/auth/login/login.component.ts:24-35 | an invalid form does nothing; a valid one logs in with the form's fields and shows `''` or the failure message |
| RegisterView.RegisterStricter | src/app/features/auth/register/register.component.ts:18-22 | the sign-up form is the sign-in form plus a required name |
| RegisterView.RegisterComponent.OnSubmit | src/app/features/auth/register/register.component.ts:24-36 | the same with registration under the chosen name |

## Left out

- Transport and RxJS: requests and answers are sequential values. `switchMap` cancellation, late
  answers and concurrent pages are not modelled.
- `forkJoin` on the home page: all three requests leave first and the answers are then read in
  the order popular, recent, action. The first failure ends the join. The real order in which
  answers arrive is not modelled, so a 401 in a list that answers after another list's failure
  is taken as unread.
- `forkJoin` on the movie page: the favourites answer is always read and its session reaction
  applied (`MovieDetailsView.MovieDetailsComponent.NgOnInit`). When the details call fails first,
  `forkJoin` drops the favourites call, and a 401 it would have carried may then never be read.
- `switchMap` subscriptions: an error inside one ends the subscription. This is the `listening`
  flag of the search and genre pages.
- Router internals: navigations and redirect trees are recorded as values. A command such as
  `'/search'` is taken as the URL segment `search`. The routes that `auth.routes` declares are
  not part of this model, so the auth subtree is only a delegation.
- Route table, where the code is followed rather than the description: `profileGuard` is
  attached to no route. Movie details, profile set-up, favourites and `/mylist` are not in the
  table either, so they fall through to `**` and home (`Routes.UnroutedPagesGoHome`).
- `atob` and `JSON.parse` in `checkToken` are a parameter `decode` that may fail.
- Token claims are a map from names to strings (`Auth.Claims`). A claim that `JSON.parse` gives
  as a number, boolean, object or array is not represented, so a truthy non-string email or `Id`
  claim is out of reach.
- The email validator is a parameter predicate `isEmail`.
- The clock: `createProfile`'s timestamps are parameters.
- `getMovieById`, which the movie page calls: the movie service does not define it. The details
  outcome is therefore a parameter and its request is not logged.
- Unicode: lowercasing, uppercasing and NFD cover ASCII and the Latin-1 letters only. Lengths
  count code points, not UTF-16 units (this affects the 50-character limit and the avatar's first
  character). `toUpperCase` is one character to one character, so `ß` stays `ß`.
- `$` patterns in `replaceChar` are not interpreted.
- Numbers are integers only.
- Parameter objects have distinct keys (`MovieApp.UniqueKeys`), as JavaScript objects do, and
  `Object.keys` follows insertion order.
- Header names are compared case-sensitively.
- DOM and browser effects are not modelled: hls.js playback (`initPlayer`, `playVideo`,
  `ngOnDestroy`), `alert`, `window.scrollTo`, `console` logging, and the `FileReader`. A chosen
  file is given with its size and its data URL, and the reader's load is taken to happen at once.
- Presentational components, templates, styles and the dependency-injection wiring in
  `app.config.ts` are not modelled.
- The service's public `genres` view is the read-only face of `genresCache`, so the model reads
  the cache field itself.
- The documented slug example `Ficção Científica` → `ficcao-cientifica` is covered in general
  form instead: `ReplaceSpaces.SlugOfTwoWords` handles a two-word name and
  `ReplaceSpaces.SlugOfAccentedLetter` an accented letter. The literal string is not evaluated.
