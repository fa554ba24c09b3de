/** AppRouter: which view the application mounts for the hook's state. */
module AppRouter {
  import opened Wrappers
  import opened Strings
  import opened SubdomainValidation

  datatype Page = Support | ContactUs | TermsOfService | PrivacyPolicy | RefundPolicy
                | FactoryDashboard(subdomain: string)

  datatype Route = Route(path: string, page: Page)

  /** The three outcomes: the spinner, the invalid-tenant page, or a route set. */
  datatype View = LoadingSpinner | InvalidSubdomainError | Routes(routes: seq<Route>)

  /** The six public routes; "/" and "/support" both show Support. */
  const PublicRoutes: seq<Route> := [
    Route("/", Support),
    Route("/support", Support),
    Route("/contact", ContactUs),
    Route("/terms", TermsOfService),
    Route("/privacy", PrivacyPolicy),
    Route("/refund", RefundPolicy)
  ]

  function Render(isValidSubdomain: Validity, subdomain: Option<string>): View {
    if isValidSubdomain == Null then LoadingSpinner
    else if Truthy(subdomain) && isValidSubdomain == Bool(false) then InvalidSubdomainError
    else if isValidSubdomain.Truthy() && Truthy(subdomain) then
      Routes([Route("/*", FactoryDashboard(subdomain.value))])
    else Routes(PublicRoutes)
  }

  /** Each view is chosen under exactly one condition. */
  lemma RenderCases(v: Validity, subdomain: Option<string>)
    ensures Render(v, subdomain) == LoadingSpinner <==> v == Null
    ensures Render(v, subdomain) == InvalidSubdomainError <==> v == Bool(false) && Truthy(subdomain)
    ensures Render(v, subdomain) == Routes(PublicRoutes) <==>
      v != Null && !(Truthy(subdomain) && v.Bool?)
    ensures Render(v, subdomain).Routes? && Render(v, subdomain) != Routes(PublicRoutes) <==>
      v == Bool(true) && Truthy(subdomain)
  {
  }

  /** The path with its trailing slashes removed, so that "/support/" and
      "/support" compare alike and "/" becomes "". */
  function TrimTrailingSlashes(p: string): (r: string)
    ensures r <= p
    ensures r == [] || r[|r| - 1] != '/'
    ensures forall i :: |r| <= i < |p| ==> p[i] == '/'
  {
    if |p| > 0 && p[|p| - 1] == '/' then TrimTrailingSlashes(p[..|p| - 1]) else p
  }

  /** The key a route path and a location are compared by: the router
      ignores letter case and trailing slashes. */
  function PathKey(p: string): string {
    Lower(TrimTrailingSlashes(p))
  }

  /** Whether a route's path matches the location's pathname; the catch-all
      path matches every pathname. */
  predicate PathMatches(routePath: string, pathname: string) {
    routePath == "/*" || PathKey(routePath) == PathKey(pathname)
  }

  /** Cutting a path at a position followed only by slashes, and not itself
      after a slash, is trimming it. */
  lemma {:induction false} TrimAt(p: string, k: nat)
    requires k <= |p|
    requires k == 0 || p[k - 1] != '/'
    requires forall i :: k <= i < |p| ==> p[i] == '/'
    ensures TrimTrailingSlashes(p) == p[..k]
  {
    if k < |p| {
      assert p[..|p| - 1][..k] == p[..k];
      TrimAt(p[..|p| - 1], k);
    } else {
      assert p[..k] == p;
    }
  }

  /** Lower-casing neither removes a slash nor makes one. */
  lemma LowerLastIsSlash(s: string)
    requires |s| > 0
    ensures Lower(s)[|s| - 1] == '/' <==> s[|s| - 1] == '/'
  {
  }

  /** The router's reading of a route path: the pathname is `key`, in any
      letter case, up to position k, and only slashes follow. */
  predicate IsPatternMatch(key: string, pathname: string, k: int) {
    && 0 <= k <= |pathname| && Lower(pathname[..k]) == key
    && forall i :: k <= i < |pathname| ==> pathname[i] == '/'
  }

  /** A route path other than the catch-all matches exactly the pathnames
      made of the route path, in any letter case, followed by any number of
      slashes. */
  lemma PathMatchesAsPattern(routePath: string, pathname: string)
    requires routePath != "/*"
    ensures PathMatches(routePath, pathname) <==> exists k :: IsPatternMatch(PathKey(routePath), pathname, k)
  {
    var t := TrimTrailingSlashes(pathname);
    var key := PathKey(routePath);
    if PathMatches(routePath, pathname) {
      assert pathname[..|t|] == t;
      assert IsPatternMatch(key, pathname, |t|);
    }
    if k :| IsPatternMatch(key, pathname, k) {
      if k > 0 {
        LowerLastIsSlash(pathname[..k]);
        LowerLastIsSlash(TrimTrailingSlashes(routePath));
      }
      TrimAt(pathname, k);
    }
  }

  /** The page a route set shows for a path: the first route whose path
      matches it. */
  function Match(routes: seq<Route>, pathname: string): (r: Option<Page>)
    ensures r.Some? ==> exists i :: 0 <= i < |routes| && routes[i].page == r.value
                          && PathMatches(routes[i].path, pathname)
    ensures r.None? <==> forall i :: 0 <= i < |routes| ==> !PathMatches(routes[i].path, pathname)
  {
    if |routes| == 0 then None
    else if PathMatches(routes[0].path, pathname) then Some(routes[0].page)
    else
      var rest := Match(routes[1..], pathname);
      assert rest.Some? ==> exists i :: 0 <= i < |routes| - 1 && routes[1..][i].page == rest.value
                                      && PathMatches(routes[1..][i].path, pathname);
      rest
  }

  /** Routes before the first matching one do not affect the match. */
  lemma {:induction false} MatchSkips(routes: seq<Route>, k: nat, pathname: string)
    requires k <= |routes|
    requires forall i :: 0 <= i < k ==> !PathMatches(routes[i].path, pathname)
    ensures Match(routes, pathname) == Match(routes[k..], pathname)
  {
    if k > 0 {
      assert routes[1..][k-1..] == routes[k..];
      MatchSkips(routes[1..], k - 1, pathname);
    }
  }

  /** The page shown is that of the first matching route. */
  lemma MatchIsFirst(routes: seq<Route>, pathname: string, i: nat)
    requires i < |routes| && PathMatches(routes[i].path, pathname)
    requires forall j :: 0 <= j < i ==> !PathMatches(routes[j].path, pathname)
    ensures Match(routes, pathname) == Some(routes[i].page)
  {
    MatchSkips(routes, i, pathname);
  }

  lemma KeyOfRoot() ensures PathKey("/") == "" {}
  lemma KeyOfSupport() ensures PathKey("/support") == "/support" {}
  lemma KeyOfContact() ensures PathKey("/contact") == "/contact" {}
  lemma KeyOfTerms() ensures PathKey("/terms") == "/terms" {}
  lemma KeyOfPrivacy() ensures PathKey("/privacy") == "/privacy" {}
  lemma KeyOfRefund() ensures PathKey("/refund") == "/refund" {}

  /** The keys of the six public paths, in table order. */
  const PublicKeys: seq<string> := ["", "/support", "/contact", "/terms", "/privacy", "/refund"]

  /** Each public path has the key listed for it, and none is the catch-all. */
  lemma PublicRouteKeys()
    ensures forall i :: 0 <= i < |PublicRoutes| ==>
      PathKey(PublicRoutes[i].path) == PublicKeys[i] && PublicRoutes[i].path != "/*"
  {
    forall i | 0 <= i < |PublicRoutes|
      ensures PathKey(PublicRoutes[i].path) == PublicKeys[i] && PublicRoutes[i].path != "/*"
    {
      if i == 0 { KeyOfRoot(); }
      else if i == 1 { KeyOfSupport(); }
      else if i == 2 { KeyOfContact(); }
      else if i == 3 { KeyOfTerms(); }
      else if i == 4 { KeyOfPrivacy(); }
      else { KeyOfRefund(); }
    }
  }

  /** No path matches two public routes, so the first match is the only
      one and the router's ranking cannot pick another. */
  lemma PublicRoutesMatchAtMostOne(pathname: string, i: nat, j: nat)
    requires i < j < |PublicRoutes|
    ensures !(PathMatches(PublicRoutes[i].path, pathname) && PathMatches(PublicRoutes[j].path, pathname))
  {
    PublicRouteKeys();
    PublicKeysDistinct();
  }

  /** The six public keys are pairwise distinct: they differ in length or
      in their second character. */
  lemma PublicKeysDistinct()
    ensures forall i, j :: 0 <= i < j < |PublicKeys| ==> PublicKeys[i] != PublicKeys[j]
  {
    forall i, j | 0 <= i < j < |PublicKeys|
      ensures PublicKeys[i] != PublicKeys[j]
    {
      var a, b := PublicKeys[i], PublicKeys[j];
      assert |a| != |b| || a[1] != b[1];
    }
  }

  /** A path whose key is that of public route i shows that route's page. */
  lemma PublicRouteShown(pathname: string, i: nat)
    requires i < |PublicKeys| && PathKey(pathname) == PublicKeys[i]
    ensures Match(PublicRoutes, pathname) == Some(PublicRoutes[i].page)
  {
    PublicRouteKeys();
    PublicKeysDistinct();
    MatchIsFirst(PublicRoutes, pathname, i);
  }

  /** "/" and "/Support/" both show Support: the router ignores letter case
      and trailing slashes. */
  lemma SupportPaths()
    ensures Match(PublicRoutes, "/") == Some(Support)
    ensures Match(PublicRoutes, "/Support/") == Some(Support)
  {
    KeyOfRoot();
    PublicRouteShown("/", 0);
    KeyOfSupportVariant();
    PublicRouteShown("/Support/", 1);
  }

  lemma KeyOfSupportVariant() ensures PathKey("/Support/") == "/support" {}

  /** A path whose key is none of the six public keys shows nothing. */
  lemma PublicRoutesUnmatched(pathname: string)
    requires PathKey(pathname) !in PublicKeys
    ensures Match(PublicRoutes, pathname) == None
  {
    PublicRouteKeys();
    assert forall i :: 0 <= i < |PublicRoutes| ==> !PathMatches(PublicRoutes[i].path, pathname);
  }

  /** A tenant dashboard is reached whatever the path. */
  lemma DashboardCatchesAll(subdomain: string, pathname: string)
    requires subdomain != ""
    ensures Render(Bool(true), Some(subdomain)).Routes?
    ensures Match(Render(Bool(true), Some(subdomain)).routes, pathname) == Some(FactoryDashboard(subdomain))
  {
  }

  /** After the hook has settled for a host name, the spinner is gone unless
      the reply's `valid` is `null`; a host without a usable subdomain gets the
      public routes; a thrown lookup or `valid: false` gets the invalid-tenant
      page; a reply without `valid` gets the public routes; `valid: true`
      gets the dashboard. */
  lemma SettledRouting(hostname: string, lookup: Lookup)
    ensures (var sub := Subdomain(hostname);
      var view := Render(Settle(sub, lookup), sub);
      && (view == LoadingSpinner <==> Truthy(sub) && lookup == Replied(NullValue))
      && (!Truthy(sub) ==> view == Routes(PublicRoutes))
      && (Truthy(sub) && lookup == Threw ==> view == InvalidSubdomainError)
      && (Truthy(sub) && lookup == Replied(BoolValue(false)) ==> view == InvalidSubdomainError)
      && (Truthy(sub) && lookup == Replied(Absent) ==> view == Routes(PublicRoutes))
      && (Truthy(sub) && lookup == Replied(BoolValue(true)) ==> view == Routes([Route("/*", FactoryDashboard(sub.value))])))
  {
  }

  /** A host name beginning with a dot has an empty first label, which is
      falsy: no lookup is made and the public routes are shown. */
  lemma LeadingDotHostIsPublic(rest: string, lookup: Lookup)
    ensures (var h := "." + rest;
      Subdomain(h) == Some("") && Render(Settle(Subdomain(h), lookup), Subdomain(h)) == Routes(PublicRoutes))
  {
    var h := "." + rest;
    SubdomainIsTextBeforeFirstDot(h);
  }
}
