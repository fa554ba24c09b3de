/** ProtectedRoute: pages that need a stored token. */
module ProtectedRoute {
  import opened Wrappers
  import opened Strings

  datatype Outcome = Children | Navigate(to: string, replace: bool)

  function ProtectedRoute(token: Option<string>): Outcome {
    if Truthy(token) then Children else Navigate("/factory/login", true)
  }

  /** Any non-empty token grants the pages whatever it contains; a missing
      or empty one redirects to the login page, replacing the history entry. */
  lemma ProtectedRouteOutcomes(token: Option<string>)
    ensures token.Some? && token.value != "" ==> ProtectedRoute(token) == Children
    ensures token.None? || token == Some("") ==> ProtectedRoute(token) == Navigate("/factory/login", true)
  {
  }

  /** The token's contents are never inspected. */
  lemma ContentsIgnored(t1: string, t2: string)
    requires t1 != "" && t2 != ""
    ensures ProtectedRoute(Some(t1)) == ProtectedRoute(Some(t2))
  {
  }
}
