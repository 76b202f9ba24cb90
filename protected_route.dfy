/** The stand-alone session gate component: children pass through unchanged when a token is stored. */
module RouteGuard {
  import opened Outcomes
  import Storage

  /** What a gate renders: its children, or a redirect. */
  datatype Rendered<C> = Children(children: C) | Redirect(to: string)

  /** The admission test shared by both gates: the stored token is truthy. */
  predicate Admits(session: map<string, string>): (b: bool)
    ensures b <==> Storage.TokenKey in session && session[Storage.TokenKey] != ""
  {
    Truthy(Storage.Token(session))
  }

  /** `ProtectedRoute`: evaluated against the storage as it is now, so nothing is cached between evaluations. */
  function ProtectedRoute<C>(session: map<string, string>, children: C): (r: Rendered<C>)
    ensures r.Children? <==> Storage.TokenKey in session && session[Storage.TokenKey] != ""
    ensures r.Children? ==> r.children == children
    ensures r.Redirect? ==> r.to == "/"
  {
    if Admits(session) then Children(children) else Redirect("/")
  }

  /** The outcome depends on the stored token alone: a change of token is seen at the next evaluation. */
  lemma GateReadsOnlyToken<C>(before: map<string, string>, after: map<string, string>, children: C)
    requires Storage.Token(before) == Storage.Token(after)
    ensures ProtectedRoute(before, children) == ProtectedRoute(after, children)
  {
  }

  /** After `clearStorage`, the next evaluation redirects; after `setToken(t)` with t non-empty, it admits. */
  lemma ClearThenSet<C>(session: map<string, string>, token: string, children: C)
    ensures ProtectedRoute(Storage.Cleared(session), children) == Redirect("/")
    ensures token != "" ==> ProtectedRoute(Storage.WithToken(session, token), children) == Children(children)
  {
  }
}
