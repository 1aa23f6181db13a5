/**
 * The navigation bar: the links to the pages the user may reach, the
 * user's role badge, and the logout button.
 */
module Navbar {
  import opened Wrappers
  import opened Js
  import opened Storage

  /** One accessible page as the bar links it. */
  datatype NavPage = NavPage(id: int, name: string, url: string)

  const LOGIN_PATH := "/login"
  const NAV_ERROR := "Failed to load navigation"

  /** The role badge: 'Super Admin' exactly for role 'superadmin'. */
  function RoleLabel(user: JsObject): (badge: string)
    ensures badge == "Super Admin" || badge == "User"
    ensures badge == "Super Admin" <==> Field(user, "role") == Str("superadmin")
  {
    if Field(user, "role") == Str("superadmin") then "Super Admin" else "User"
  }

  /** A link is highlighted exactly when the current path is its url. */
  predicate IsActiveLink(pathname: string, page: NavPage) {
    pathname == page.url
  }

  /** The links of `pages` highlighted at `pathname`. */
  function ActiveLinks(pathname: string, pages: seq<NavPage>): (r: set<int>)
    ensures forall i | 0 <= i < |pages| :: i in r <==> IsActiveLink(pathname, pages[i])
    ensures forall i | i in r :: 0 <= i < |pages|
  {
    set i | 0 <= i < |pages| && IsActiveLink(pathname, pages[i])
  }

  class NavbarState {
    var pages: seq<NavPage>
    var loading: bool
    var error: string
    var user: Option<JsObject>

    constructor()
      ensures pages == [] && loading && error == "" && user.None?
    {
      pages := [];
      loading := true;
      error := "";
      user := None;
    }

    /** The page links render only once loading is over and no error is set. */
    predicate ShowsLinks()
      reads this
    {
      !loading && error == ""
    }

    /** The mount effect's first half: the stored user, when there is one, becomes the bar's user. */
    method LoadUser(store: LocalStorage)
      modifies this
      ensures StoredUser(store.items).Some? ==> user == StoredUser(store.items)
      ensures StoredUser(store.items).None? ==> user == old(user)
      ensures pages == old(pages) && loading == old(loading) && error == old(error)
    {
      var stored := StoredUser(store.items);
      if stored.Some? {
        user := stored;
      }
    }

    /** `fetchAccessiblePages()`, given the request's outcome. */
    method FetchAccessiblePages(reply: Reply<seq<NavPage>>)
      modifies this
      ensures !loading && user == old(user)
      ensures reply.Success? ==> pages == reply.data && error == "" && ShowsLinks()
      ensures reply.Failed? ==> pages == old(pages) && error == NAV_ERROR && !ShowsLinks()
    {
      loading := true;
      match reply {
        case Success(data) =>
          pages := data;
          error := "";
        case Failed(_, _) =>
          error := NAV_ERROR;
      }
      loading := false;
    }

    /** `handleLogout()`: removes the three session keys, keeps `last_activity`, goes to /login. */
    method HandleLogout(store: LocalStorage) returns (nav: string)
      modifies store
      ensures store.items == old(store.items) - AUTH_KEYS
      ensures LAST_ACTIVITY in old(store.items) ==>
        LAST_ACTIVITY in store.items && store.items[LAST_ACTIVITY] == old(store.items)[LAST_ACTIVITY]
      ensures nav == LOGIN_PATH
    {
      store.RemoveItem(TOKEN);
      store.RemoveItem(REFRESH_TOKEN);
      store.RemoveItem(USER);
      nav := LOGIN_PATH;
    }
  }
}
