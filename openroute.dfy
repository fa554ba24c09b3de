/** OpenRoute: pages for visitors who are not signed in. */
module OpenRoute {
  import opened Wrappers
  import opened Strings
  import opened Session

  /** Render the wrapped pages, redirect, or let the decoding error escape. */
  datatype Outcome = Children | Navigate(to: string, replace: bool) | Throws

  function OpenRoute(token: Option<string>, decode: Decoder): Outcome {
    if token.None? then Children
    else
      match Payload(token.value, decode)
      case None => Throws
      case Some(claims) =>
        if claims.role == Some("customer") then
          (if Truthy(token) then Navigate("/customer", true) else Children)
        else
          (if Truthy(token) then Navigate("/factory", true) else Children)
  }

  /** No token: the pages. A decodable token: a redirect by role, never the
      pages. An undecodable one: the error escapes. */
  lemma OpenRouteOutcomes(token: Option<string>, decode: Decoder)
    ensures token.None? ==> OpenRoute(token, decode) == Children
    ensures token.Some? && Payload(token.value, decode).None? ==> OpenRoute(token, decode) == Throws
    ensures token.Some? && Payload(token.value, decode).Some? ==>
      OpenRoute(token, decode) ==
        if Payload(token.value, decode).value.role == Some("customer") then Navigate("/customer", true)
        else Navigate("/factory", true)
  {
    if token.Some? {
      PayloadNeedsDot(token.value, decode);
    }
  }

  /** With a token present the pages are never shown: the `: children`
      fallbacks cannot be reached. */
  lemma ChildrenOnlyWithoutToken(token: Option<string>, decode: Decoder)
    ensures OpenRoute(token, decode) == Children <==> token.None?
  {
    OpenRouteOutcomes(token, decode);
  }
}
