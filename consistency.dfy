/**
 * Facts that relate the client and the server: where the two readings of a
 * grant agree, what the client can learn from the user object the server
 * sends, and how the different logout paths leave the session store.
 */
module Consistency {
  import opened Wrappers
  import opened Text
  import opened Js
  import opened Models
  import opened Store
  import Permissions
  import opened Storage
  import SessionManager
  import PermissionContext
  import AuthContext
  import CommentSystem
  import AccountViews
  import Serializers
  import PageViews
  import AppRoutes

  /**
   * For an active user who is not a superuser, the client's check over a
   * cache holding the user's row agrees with the server's
   * `validate_permission_edge_cases` for every action.
   */
  lemma ClientCheckMatchesServer(u: User, grants: GrantTable, page: PageId, name: string,
                                 stored: Option<JsObject>, cache: PermissionContext.Cache, action: string)
    requires u.isActive && !u.isSuperuser && !PermissionContext.StoredSuperuser(stored)
    requires (u.id, page) in grants && name in cache && cache[name] == grants[(u.id, page)]
    ensures PermissionContext.CheckPermission(stored, cache, name, action)
      == Permissions.EdgeCasePermission(u, grants, page, action)
  {
  }

  /**
   * The user object either login endpoint answers with has no
   * `is_superuser`: once stored by the client's login, the client's
   * superuser bypass never applies, and the comment panel never shows the
   * History control, whoever logged in.
   */
  lemma StoredLoginUserIsNeverSuperuser(found: Option<User>, password: Option<string>,
                                        tokens: AccountViews.TokenPair, items: Items, superadmin: bool)
    requires var r := if superadmin then AccountViews.LoginSuperadmin(found, password, tokens)
                      else AccountViews.LoginUser(found, password, tokens);
      r.Ok?
    ensures var r := if superadmin then AccountViews.LoginSuperadmin(found, password, tokens)
                     else AccountViews.LoginUser(found, password, tokens);
      var body := AuthContext.LoginBody(r.value.access, r.value.refresh, r.value.user);
      var after := AuthContext.SessionOf(items, body);
      !PermissionContext.StoredSuperuser(StoredUser(after))
      && !CommentSystem.ShowsHistory(StoredUser(after))
  {
    var r := if superadmin then AccountViews.LoginSuperadmin(found, password, tokens)
             else AccountViews.LoginUser(found, password, tokens);
    assert r.value.user == Serializers.SerializeUser(found.value);
    assert Field(r.value.user, "is_superuser") == Undefined;
  }

  /**
   * Even a Django superuser, who passes every server-side check, gets
   * nothing from the client's check when the cache is empty.
   */
  lemma ServerSuperuserNotSeenByClient(u: User, page: string, action: string)
    requires u.isSuperuser
    ensures !PermissionContext.CheckPermission(Some(Serializers.SerializeUser(u)), map[], page, action)
  {
    assert Field(Serializers.SerializeUser(u), "is_superuser") == Undefined;
  }

  /**
   * The two kinds of logout leave different keys behind: the AuthContext,
   * Navbar and api.js paths keep `last_activity` and drop `user`; the
   * session manager keeps `user` and drops `last_activity`.
   */
  lemma LogoutPathsDiffer(items: Items)
    requires USER in items && LAST_ACTIVITY in items
    ensures LAST_ACTIVITY in items - AUTH_KEYS && USER !in items - AUTH_KEYS
    ensures USER in items - SESSION_KEYS && LAST_ACTIVITY !in items - SESSION_KEYS
    ensures (items - AUTH_KEYS) - SESSION_KEYS == (items - SESSION_KEYS) - AUTH_KEYS
  {
  }

  /**
   * After the session manager logs out, the stored user is still there, so
   * a stored superuser would still pass the client's check although no
   * token is left.
   */
  lemma SessionLogoutKeepsStoredUser(items: Items, now: int)
    ensures StoredUser(items - SESSION_KEYS) == StoredUser(items)
    ensures !SessionManager.IsAuthenticated(items - SESSION_KEYS, now)
  {
  }

  /** Both kinds of logout end the session as the session manager sees it. */
  lemma EveryLogoutEndsSession(items: Items, now: int)
    ensures !SessionManager.IsAuthenticated(items - AUTH_KEYS, now)
    ensures !SessionManager.IsAuthenticated(items - SESSION_KEYS, now)
  {
  }

  /**
   * The server's url for a page (every '_' turned into '-') and the
   * client's route (only the first) agree exactly for names with at most
   * one underscore.
   */
  lemma UrlMatchesRouteWithOneUnderscore(name: string)
    requires forall i, j | 0 <= i < j < |name| :: !(name[i] == '_' && name[j] == '_')
    ensures PageViews.PageUrl(name) == AppRoutes.RoutePath(name)
  {
    var u := PageViews.PageUrl(name);
    var r := AppRoutes.RoutePath(name);
    forall i | 1 <= i < |u|
      ensures u[i] == r[i]
    {
      var j := i - 1;
      if name[j] == '_' {
        assert '_' !in name[..j] by {
          forall k | 0 <= k < j ensures name[..j][k] != '_' { }
        }
      }
    }
  }

  /**
   * The one page whose name has two underscores: when the page is created
   * on demand, the server's url for it, which is what the navigation bar
   * links to, is a path the client's route table does not have. (A page
   * seeded by the initial data migration carries the url written there
   * instead; that migration is not part of this model.)
   */
  lemma OfferPricingUrlHasNoRoute()
    ensures PageViews.PageUrl("offer_pricing_skus") == "/offer-pricing-skus"
    ensures AppRoutes.Resolve("/offer-pricing-skus") == AppRoutes.NoRoute
  {
    OfferPricingUrl();
    NoRouteFor("/offer-pricing-skus");
    Unrouted("/offer-pricing-skus");
  }

  lemma OfferPricingUrl()
    ensures PageViews.PageUrl("offer_pricing_skus") == "/offer-pricing-skus"
  {
    OfferPricingPieces("offer", "pricing", "skus");
    UrlOfTwoUnderscores("offer", "pricing", "skus");
  }

  lemma OfferPricingPieces(a: string, b: string, c: string)
    requires a == "offer" && b == "pricing" && c == "skus"
    ensures "offer_pricing_skus" == a + "_" + b + "_" + c
    ensures "/" + a + "-" + b + "-" + c == "/offer-pricing-skus"
  {
  }

  /** A long path no dynamic page routes at resolves to nothing. */
  lemma Unrouted(p: string)
    requires |p| > 10
    requires forall k | 0 <= k < |AppRoutes.DYNAMIC_PAGES| :: AppRoutes.RoutePath(AppRoutes.DYNAMIC_PAGES[k]) != p
    ensures AppRoutes.Resolve(p) == AppRoutes.NoRoute
  {
  }

  /** The server's url turns both underscores of a name into '-'. */
  lemma UrlOfTwoUnderscores(a: string, b: string, c: string)
    requires '_' !in a && '_' !in b && '_' !in c
    ensures PageViews.PageUrl(a + "_" + b + "_" + c) == "/" + a + "-" + b + "-" + c
  {
    ReplaceAllSplit(a, b, c);
    assert "/" + (a + "-" + b + "-" + c) == "/" + a + "-" + b + "-" + c;
  }

  /** Replacing every '_' of a + "_" + b + "_" + c touches only the two separators. */
  lemma ReplaceAllSplit(a: string, b: string, c: string)
    requires '_' !in a && '_' !in b && '_' !in c
    ensures ReplaceAll(a + "_" + b + "_" + c, '_', '-') == a + "-" + b + "-" + c
  {
    assert ReplaceAll(a, '_', '-') == a;
    ReplaceAllJoin(a, b);
    ReplaceAllJoin(a + "_" + b, c);
  }

  /** Joining at a '_' and replacing is replacing the left part and joining at a '-'. */
  lemma ReplaceAllJoin(x: string, y: string)
    requires '_' !in y
    ensures ReplaceAll(x + "_" + y, '_', '-') == ReplaceAll(x, '_', '-') + "-" + y
  {
    ReplaceAllAppend(x + "_", y, '_', '-');
    ReplaceAllAppend(x, "_", '_', '-');
    assert ReplaceAll("_", '_', '-') == "-";
    assert ReplaceAll(y, '_', '-') == y;
  }

  /** A route path differs from `p` when the first letter of the name or the length already does. */
  lemma RouteDiffers(name: string, p: string)
    requires |p| == 19 && p[1] == 'o' && (|name| != 18 || name[0] != 'o')
    ensures AppRoutes.RoutePath(name) != p
  {
    var r := AppRoutes.RoutePath(name);
    if |name| == 18 {
      assert r[0 + 1] == (if name[0] == '_' && '_' !in name[..0] then '-' else name[0]);
    }
  }

  /** Of the dynamic pages only 'offer_pricing_skus' has 18 letters and starts with 'o'. */
  lemma NamesShape()
    ensures forall k | 0 <= k < |AppRoutes.DYNAMIC_PAGES| && k != 4 ::
      |AppRoutes.DYNAMIC_PAGES[k]| != 18 || AppRoutes.DYNAMIC_PAGES[k][0] != 'o'
  {
  }

  /** No dynamic page routes at the server's url for 'offer_pricing_skus'. */
  lemma NoRouteFor(p: string)
    requires p == "/offer-pricing-skus"
    ensures forall k | 0 <= k < |AppRoutes.DYNAMIC_PAGES| :: AppRoutes.RoutePath(AppRoutes.DYNAMIC_PAGES[k]) != p
  {
    PathShape(p);
    NoRouteForShape(p);
  }

  lemma PathShape(p: string)
    requires p == "/offer-pricing-skus"
    ensures |p| == 19 && p[1] == 'o' && p[14] == '-'
  {
  }

  /** The client's route for 'offer_pricing_skus' keeps its second underscore. */
  lemma OfferRouteKeepsUnderscore()
    ensures |AppRoutes.RoutePath(AppRoutes.DYNAMIC_PAGES[4])| == 19
    ensures AppRoutes.RoutePath(AppRoutes.DYNAMIC_PAGES[4])[14] == '_'
  {
    assert AppRoutes.DYNAMIC_PAGES[4] == "offer_pricing_skus";
    AppRoutes.OfferPricingRoute();
  }

  /** No route path has the shape of the offer-pricing url. */
  lemma NoRouteForShape(p: string)
    requires |p| == 19 && p[1] == 'o' && p[14] == '-'
    ensures forall k | 0 <= k < |AppRoutes.DYNAMIC_PAGES| :: AppRoutes.RoutePath(AppRoutes.DYNAMIC_PAGES[k]) != p
  {
    var names := AppRoutes.DYNAMIC_PAGES;
    OfferRouteKeepsUnderscore();
    NamesShape();
    forall k | 0 <= k < |names|
      ensures AppRoutes.RoutePath(names[k]) != p
    {
      if k != 4 {
        RouteDiffers(names[k], p);
      }
    }
  }
}
