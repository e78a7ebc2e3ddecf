/** The root component (`AppComponent`): after each completed navigation it decides whether the
    navigation bar is shown. */
module AppShell {
  import opened Wrappers
  import opened Models
  import opened Js
  import opened Auth

  const HiddenRoutes: seq<string> := ["/setup-profile", "/auth/login", "/auth/register"]

  /** The URL a `NavigationEnd` event is judged by: the one after redirects, when not empty. */
  function ExaminedUrl(url: string, urlAfterRedirects: string): (u: string)
    ensures Truthy(urlAfterRedirects) ==> u == urlAfterRedirects
    ensures !Truthy(urlAfterRedirects) ==> u == url
  {
    if Truthy(urlAfterRedirects) then urlAfterRedirects else url
  }

  /** Some hidden route occurs anywhere in the URL. */
  predicate IsHidden(url: string) {
    exists i :: 0 <= i < |HiddenRoutes| && Contains(url, HiddenRoutes[i])
  }

  /** Any URL holding a hidden route, at any position and with any query, hides the bar. */
  lemma HiddenWherever(before: string, i: int, after: string)
    requires 0 <= i < |HiddenRoutes|
    ensures IsHidden(before + HiddenRoutes[i] + after)
  {
    ContainsInfix(before, HiddenRoutes[i], after);
  }

  /** The three pages that hide the bar. */
  lemma HiddenPages()
    ensures IsHidden("/setup-profile") && IsHidden("/auth/login") && IsHidden("/auth/register")
  {
    HiddenWherever("", 0, "");
    HiddenWherever("", 1, "");
    HiddenWherever("", 2, "");
    assert "" + HiddenRoutes[0] + "" == "/setup-profile";
    assert "" + HiddenRoutes[1] + "" == "/auth/login";
    assert "" + HiddenRoutes[2] + "" == "/auth/register";
  }

  /** A string shorter than `sub` cannot contain it. */
  lemma {:induction false} ShortContainsNothing(s: string, sub: string)
    requires |s| < |sub|
    ensures !Contains(s, sub)
    decreases |s|
  {
    if s != [] {
      ShortContainsNothing(s[1..], sub);
    }
  }

  /** The home page keeps the bar (for a signed-in user). */
  lemma HomeNotHidden()
    ensures !IsHidden("/home")
  {
    ShortContainsNothing("/home", HiddenRoutes[0]);
    ShortContainsNothing("/home", HiddenRoutes[1]);
    ShortContainsNothing("/home", HiddenRoutes[2]);
    assert |HiddenRoutes| == 3;
    forall i | 0 <= i < |HiddenRoutes| ensures !Contains("/home", HiddenRoutes[i]) {
      assert i == 0 || i == 1 || i == 2;
    }
  }

  class AppComponent {
    const auth: AuthService
    var showNavbar: bool

    constructor (auth: AuthService)
      ensures this.auth == auth && !showNavbar
    {
      this.auth := auth;
      showNavbar := false;
    }

    /** A `NavigationEnd` event: the bar is shown exactly when the URL holds no hidden route
        and a user is signed in. */
    method OnNavigationEnd(url: string, urlAfterRedirects: string)
      modifies this
      ensures showNavbar <==> !IsHidden(ExaminedUrl(url, urlAfterRedirects)) && auth.currentUser.Some?
    {
      var examined := ExaminedUrl(url, urlAfterRedirects);
      showNavbar := !IsHidden(examined) && auth.currentUser.Some?;
    }
  }
}
