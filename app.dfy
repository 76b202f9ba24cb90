/** The route table and the application's own gate, which also renders the navigation bar. */
module App {
  import opened Outcomes
  import Storage
  import RouteGuard

  datatype View = LoginView | QuoteListView | CreateQuoteView

  /** A rendered element of a route: the navigation bar, or a page. */
  datatype Part = Navbar | Page(view: View)

  /** The inline `ProtectedRoute` of the application: `Navbar` then the child, or a redirect to "/". */
  function ProtectedRoute(session: map<string, string>, child: View): (r: RouteGuard.Rendered<seq<Part>>)
    ensures r.Children? <==> RouteGuard.Admits(session)
    ensures r.Children? ==> r.children == [Navbar, Page(child)]
    ensures r.Redirect? ==> r.to == "/"
  {
    if Truthy(Storage.Token(session)) then RouteGuard.Children([Navbar, Page(child)]) else RouteGuard.Redirect("/")
  }

  /** ASCII lower-casing, the only case folding a case-insensitive regular expression without the `u` flag applies to these route paths. */
  function LowerChar(c: char): (l: char)
    ensures 'A' <= c <= 'Z' ==> l as int == c as int + 32
    ensures !('A' <= c <= 'Z') ==> l == c
  {
    if 'A' <= c <= 'Z' then (c as int + 32) as char else c
  }

  predicate AllSlashes(s: string) {
    forall i :: 0 <= i < |s| ==> s[i] == '/'
  }

  /** The pathname the router matches: an empty one counts as "/". */
  function Pathname(path: string): string {
    if path == "" then "/" else path
  }

  /**
   * Whether a route path matches a pathname the way the router's compiled
   * pattern with the case-insensitive flag does: the route path letter by
   * letter up to ASCII case, then any number of slashes, then the end.
   */
  function MatchRoute(pattern: string, s: string): bool
    decreases pattern
  {
    if pattern == [] then AllSlashes(s)
    else s != [] && LowerChar(s[0]) == pattern[0] && MatchRoute(pattern[1..], s[1..])
  }

  /** What `MatchRoute` means: a prefix that folds to the pattern, followed by slashes only. */
  ghost predicate Matches(pattern: string, s: string) {
    |pattern| <= |s| &&
    (forall i :: 0 <= i < |pattern| ==> LowerChar(s[i]) == pattern[i]) &&
    AllSlashes(s[|pattern|..])
  }

  lemma {:induction false} MatchRouteMeaning(pattern: string, s: string)
    ensures MatchRoute(pattern, s) <==> Matches(pattern, s)
    decreases pattern
  {
    if pattern != [] && s != [] {
      MatchRouteMeaning(pattern[1..], s[1..]);
      if |pattern| <= |s| {
        assert s[1..][|pattern| - 1..] == s[|pattern|..];
      }
      if Matches(pattern, s) {
        forall i | 0 <= i < |pattern[1..]|
          ensures LowerChar(s[1..][i]) == pattern[1..][i]
        {
          assert LowerChar(s[i + 1]) == pattern[i + 1];
        }
      }
      if MatchRoute(pattern, s) {
        forall i | 0 <= i < |pattern|
          ensures LowerChar(s[i]) == pattern[i]
        {
          if i > 0 {
            assert LowerChar(s[1..][i - 1]) == pattern[1..][i - 1];
          }
        }
      }
    }
  }

  /**
   * The route table: what the router renders for a path, `None` when no
   * route matches. Matching ignores ASCII case and trailing slashes.
   */
  function Route(path: string, session: map<string, string>): (r: Option<RouteGuard.Rendered<seq<Part>>>)
    ensures r.Some? <==> Matches("/", Pathname(path)) || Matches("/quotes", Pathname(path)) || Matches("/create-quote", Pathname(path))
    ensures Matches("/", Pathname(path)) ==> r == Some(RouteGuard.Children([Page(LoginView)]))
    ensures Matches("/quotes", Pathname(path)) ==> r == Some(ProtectedRoute(session, QuoteListView))
    ensures Matches("/create-quote", Pathname(path)) ==> r == Some(ProtectedRoute(session, CreateQuoteView))
  {
    var p := Pathname(path);
    MatchRouteMeaning("/", p);
    MatchRouteMeaning("/quotes", p);
    MatchRouteMeaning("/create-quote", p);
    RoutesExclusive(p);
    if MatchRoute("/", p) then Some(RouteGuard.Children([Page(LoginView)]))
    else if MatchRoute("/quotes", p) then Some(ProtectedRoute(session, QuoteListView))
    else if MatchRoute("/create-quote", p) then Some(ProtectedRoute(session, CreateQuoteView))
    else None
  }

  /** No pathname matches two routes, so the router's ranking and the order of the table play no part. */
  lemma RoutesExclusive(s: string)
    ensures !(Matches("/", s) && Matches("/quotes", s))
    ensures !(Matches("/", s) && Matches("/create-quote", s))
    ensures !(Matches("/quotes", s) && Matches("/create-quote", s))
  {
    if Matches("/", s) && |s| > 1 {
      assert s[1] == s[1..][0];
    }
  }

  /** The router ignores ASCII case and trailing slashes. */
  lemma CaseAndTrailingSlashIgnored(session: map<string, string>)
    ensures Route("/Quotes/", session) == Some(ProtectedRoute(session, QuoteListView))
    ensures Route("/CREATE-QUOTE//", session) == Some(ProtectedRoute(session, CreateQuoteView))
  {
    var feed, composer := "/Quotes/", "/CREATE-QUOTE//";
    assert Matches("/quotes", feed) by {
      assert feed[7..] == "/";
    }
    assert Matches("/create-quote", composer) by {
      assert composer[13..] == "//";
    }
  }

  /** An empty pathname and a run of slashes both reach the login page. */
  lemma EmptyAndSlashesAreRoot(session: map<string, string>)
    ensures Route("", session) == Route("//", session) == Some(RouteGuard.Children([Page(LoginView)]))
  {
    assert Matches("/", "/") && Matches("/", "//");
  }

  /** A path below a route matches no route. */
  lemma LongerPathUnmatched(session: map<string, string>)
    ensures Route("/quotes/1", session) == None
  {
    var p := "/quotes/1";
    assert !Matches("/", p) by { assert p[1..][0] == 'q'; }
    assert !Matches("/quotes", p) by { assert p[7..][1] == '1'; }
    assert !Matches("/create-quote", p) by { assert LowerChar(p[1]) != "/create-quote"[1]; }
  }

  /** The two gates admit on exactly the same sessions; the application's adds the bar in front. */
  lemma GatesAgree(session: map<string, string>, child: View)
    ensures ProtectedRoute(session, child).Children? <==> RouteGuard.ProtectedRoute(session, child).Children?
    ensures RouteGuard.ProtectedRoute(session, child).Children? ==>
              ProtectedRoute(session, child).children == [Navbar] + [Page(RouteGuard.ProtectedRoute(session, child).children)]
    ensures ProtectedRoute(session, child).Redirect? ==> RouteGuard.ProtectedRoute(session, child) == RouteGuard.Redirect("/")
  {
  }

  /** The feed and the composer are rendered only when the stored token is non-empty; the login page never needs one. */
  lemma PagesBehindGate(path: string, session: map<string, string>, parts: seq<Part>, i: nat)
    requires Route(path, session) == Some(RouteGuard.Children(parts))
    requires i < |parts| && parts[i].Page? && parts[i].view != LoginView
    ensures Storage.Token(session) != ""
    ensures path != "/"
  {
  }

  /** Every redirect lands on the login page, which renders whatever the session. */
  lemma RedirectLandsOnLogin(path: string, session: map<string, string>)
    requires Route(path, session).Some? && Route(path, session).value.Redirect?
    ensures Route(Route(path, session).value.to, session) == Some(RouteGuard.Children([Page(LoginView)]))
    ensures Storage.Token(session) == ""
  {
  }
}
