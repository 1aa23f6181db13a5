/**
 * The client's route table: login, the two dashboards, one route per
 * dynamic page, and the root redirect; and when the navigation bar shows.
 */
module AppRoutes {
  import opened Text

  /** `DYNAMIC_PAGES` */
  const DYNAMIC_PAGES: seq<string> := [
    "products_list", "marketing_list", "order_list", "media_plans", "offer_pricing_skus",
    "clients", "suppliers", "customer_support", "sales_reports", "finance_accounting"]

  /** The route a path resolves to. */
  datatype Route = LoginRoute | AdminRoute | DashboardRoute | PageRoute(name: string) | Redirect(to: string) | NoRoute

  /**
   * The path of a dynamic page's route: "/" and the name with only its
   * first '_' turned into '-' (a string pattern in JavaScript's `replace`).
   */
  function RoutePath(name: string): (path: string)
    ensures |path| == |name| + 1 && path[0] == '/'
    ensures '_' !in name ==> path == "/" + name
    ensures forall i | 0 <= i < |name| ::
      path[i + 1] == (if name[i] == '_' && '_' !in name[..i] then '-' else name[i])
  {
    "/" + ReplaceFirst(name, '_', '-')
  }

  /** Only the first '_' turns into '-'; whatever follows it is kept as it is. */
  lemma ReplaceFirstSplit(a: string, b: string)
    requires '_' !in a
    ensures ReplaceFirst(a + "_" + b, '_', '-') == a + "-" + b
  {
    var s := a + "_" + b;
    var r := ReplaceFirst(s, '_', '-');
    forall i | 0 <= i < |s|
      ensures r[i] == (a + "-" + b)[i]
    {
      if i < |a| {
        assert s[i] == a[i];
      } else if i == |a| {
        assert s[..i] == a;
      } else {
        assert s[|a|] == '_' && s[..i][|a|] == '_';
      }
    }
  }

  /** A name with two underscores keeps the second: 'offer_pricing_skus' routes at '/offer-pricing_skus'. */
  lemma OfferPricingRoute()
    ensures RoutePath("offer_pricing_skus") == "/offer-pricing_skus"
  {
    var a, b := "offer", "pricing_skus";
    OfferRoutePieces(a, b);
    ReplaceFirstSplit(a, b);
  }

  lemma OfferRoutePieces(a: string, b: string)
    requires a == "offer" && b == "pricing_skus"
    ensures '_' !in a
    ensures "offer_pricing_skus" == a + "_" + b
    ensures "/" + (a + "-" + b) == "/offer-pricing_skus"
  {
  }

  /** Among names without '-', distinct names get distinct route paths. */
  lemma RoutePathInjective(a: string, b: string)
    requires '-' !in a && '-' !in b && RoutePath(a) == RoutePath(b)
    ensures a == b
  {
    var r := RoutePath(a);
    assert |a| == |b|;
    forall i | 0 <= i < |a|
      ensures a[i] == b[i]
    {
      if r[i + 1] == '-' {
        assert a[i] == '_' && b[i] == '_';
      }
    }
  }

  /** The ten dynamic pages get ten different routes. */
  lemma RoutePathsDistinct()
    ensures forall i, j | 0 <= i < j < |DYNAMIC_PAGES| :: RoutePath(DYNAMIC_PAGES[i]) != RoutePath(DYNAMIC_PAGES[j])
  {
    forall i, j | 0 <= i < j < |DYNAMIC_PAGES|
      ensures RoutePath(DYNAMIC_PAGES[i]) != RoutePath(DYNAMIC_PAGES[j])
    {
      assert DYNAMIC_PAGES[i] != DYNAMIC_PAGES[j];
      assert '-' !in DYNAMIC_PAGES[i] && '-' !in DYNAMIC_PAGES[j];
      if RoutePath(DYNAMIC_PAGES[i]) == RoutePath(DYNAMIC_PAGES[j]) {
        RoutePathInjective(DYNAMIC_PAGES[i], DYNAMIC_PAGES[j]);
      }
    }
  }

  /** The route paths of `names`, in order: the table's `DYNAMIC_PAGES.map(...)`. */
  function RoutePaths(names: seq<string>): (r: seq<string>)
    ensures |r| == |names|
    ensures forall i | 0 <= i < |names| :: r[i] == RoutePath(names[i])
  {
    if names == [] then [] else [RoutePath(names[0])] + RoutePaths(names[1..])
  }

  /** The first position of `pathname` among `paths`, or -1: the first route that matches wins. */
  function FindPath(pathname: string, paths: seq<string>): (r: int)
    ensures -1 <= r < |paths|
    ensures r >= 0 ==> paths[r] == pathname && pathname !in paths[..r]
    ensures r == -1 <==> pathname !in paths
  {
    if paths == [] then -1
    else if paths[0] == pathname then 0
    else
      var r := FindPath(pathname, paths[1..]);
      assert r >= 0 ==> paths[..r + 1] == [paths[0]] + paths[1..][..r];
      if r == -1 then -1 else r + 1
  }

  /** The route the table picks for `pathname`. */
  function Resolve(pathname: string): (r: Route)
    ensures pathname == "/" ==> r == Redirect("/admin")
    ensures r.PageRoute? ==> r.name in DYNAMIC_PAGES && RoutePath(r.name) == pathname
    ensures ((forall k | 0 <= k < |DYNAMIC_PAGES| :: RoutePath(DYNAMIC_PAGES[k]) != pathname)
             && pathname !in {"/login", "/admin", "/dashboard", "/"}) ==> r == NoRoute
  {
    if pathname == "/login" then LoginRoute
    else if pathname == "/admin" then AdminRoute
    else if pathname == "/dashboard" then DashboardRoute
    else if pathname == "/" then Redirect("/admin")
    else
      var k := FindPath(pathname, RoutePaths(DYNAMIC_PAGES));
      if k >= 0 then PageRoute(DYNAMIC_PAGES[k]) else NoRoute
  }

  /** Among pairwise distinct paths, the search finds each at its own position. */
  lemma {:induction false} FindPathFindsIt(paths: seq<string>, k: nat)
    requires k < |paths|
    requires forall i, j | 0 <= i < j < |paths| :: paths[i] != paths[j]
    ensures FindPath(paths[k], paths) == k
  {
    if k > 0 {
      FindPathFindsIt(paths[1..], k - 1);
    }
  }

  /** Every dynamic page is reachable at its own route path. */
  lemma EveryPageRoutes(k: nat)
    requires k < |DYNAMIC_PAGES|
    ensures Resolve(RoutePath(DYNAMIC_PAGES[k])) == PageRoute(DYNAMIC_PAGES[k])
  {
    var name := DYNAMIC_PAGES[k];
    var p := RoutePath(name);
    PageInitials(k);
    assert p[1] == name[0];
    NotAFixedRoute(p);
    RoutePathsDistinct();
    FindsOwnRoute(DYNAMIC_PAGES, k);
  }

  /** With distinct route paths, a name's own route path finds that name. */
  lemma FindsOwnRoute(names: seq<string>, k: nat)
    requires k < |names|
    requires forall i, j | 0 <= i < j < |names| :: RoutePath(names[i]) != RoutePath(names[j])
    ensures FindPath(RoutePath(names[k]), RoutePaths(names)) == k
  {
    var paths := RoutePaths(names);
    assert forall i, j | 0 <= i < j < |paths| :: paths[i] != paths[j];
    FindPathFindsIt(paths, k);
  }

  /** Every dynamic page name starts with one of these letters. */
  lemma PageInitials(k: nat)
    requires k < |DYNAMIC_PAGES|
    ensures |DYNAMIC_PAGES[k]| > 0 && DYNAMIC_PAGES[k][0] in "pmocsf"
  {
  }

  /** A path whose second character is one of those letters is none of the fixed routes. */
  lemma NotAFixedRoute(p: string)
    requires |p| > 1 && p[1] in "pmocsf"
    ensures p != "/login" && p != "/admin" && p != "/dashboard" && p != "/"
  {
    assert "/login"[1] == 'l' && "/admin"[1] == 'a' && "/dashboard"[1] == 'd';
  }

  /** The navigation bar renders on every path except the login page. */
  predicate ShowsNavbar(pathname: string) {
    pathname != "/login"
  }
}
