/**
 * The client's authentication context: the current user, whether the
 * session counts as authenticated, and the loading flag, kept in step with
 * the stored session keys.
 */
module AuthContext {
  import opened Wrappers
  import opened Js
  import opened Storage

  /** The body both login endpoints answer with. */
  datatype LoginBody = LoginBody(access: string, refresh: string, user: JsObject)

  /** What `login` resolves to. */
  datatype LoginResult = LoggedIn(user: JsObject) | LoginFailed(error: string)

  const INVALID_CREDENTIALS := "Invalid credentials"
  const LOGIN_PATH := "/login"

  /** The storage after a successful login: tokens and the user; `last_activity` is not written. */
  function SessionOf(items: Items, body: LoginBody): (r: Items)
    ensures r.Keys == items.Keys + {TOKEN, REFRESH_TOKEN, USER}
    ensures r[TOKEN] == Plain(body.access) && r[REFRESH_TOKEN] == Plain(body.refresh) && r[USER] == Json(body.user)
    ensures forall k | k in items && k !in AUTH_KEYS :: r[k] == items[k]
  {
    items[TOKEN := Plain(body.access)][REFRESH_TOKEN := Plain(body.refresh)][USER := Json(body.user)]
  }

  class AuthState {
    var user: Option<JsObject>
    var loading: bool
    var isAuthenticated: bool

    constructor()
      ensures user.None? && loading && !isAuthenticated
    {
      user := None;
      loading := true;
      isAuthenticated := false;
    }

    /**
     * `checkAuthStatus()`. `profile` is the profile request, made
     * (`fetched`) only when a token is stored.
     */
    method CheckAuthStatus(store: LocalStorage, profile: Reply<JsObject>) returns (fetched: bool)
      modifies this, store
      ensures !loading
      ensures fetched <==> HasTruthy(old(store.items), TOKEN)
      ensures !fetched ==> user.None? && !isAuthenticated && store.items == old(store.items)
      ensures fetched && profile.Success? ==>
        user == Some(profile.data) && isAuthenticated && store.items == old(store.items)
      ensures fetched && profile.IsUnauthorized() ==>
        user.None? && !isAuthenticated && store.items == old(store.items) - AUTH_KEYS
      ensures fetched && profile.Failed? && !profile.IsUnauthorized() ==>
        user == old(user) && isAuthenticated == old(isAuthenticated) && store.items == old(store.items)
    {
      fetched := HasTruthy(store.items, TOKEN);
      if fetched {
        match profile {
          case Success(data) =>
            user := Some(data);
            isAuthenticated := true;
          case Failed(status, _) =>
            if status == Some(401) {
              store.RemoveItem(TOKEN);
              store.RemoveItem(REFRESH_TOKEN);
              store.RemoveItem(USER);
              user := None;
              isAuthenticated := false;
            }
        }
      } else {
        user := None;
        isAuthenticated := false;
      }
      loading := false;
    }

    /** Stores a login body and marks the session authenticated. */
    method Establish(store: LocalStorage, body: LoginBody)
      modifies this, store
      ensures store.items == SessionOf(old(store.items), body)
      ensures user == Some(body.user) && isAuthenticated && loading == old(loading)
    {
      store.SetItem(TOKEN, Plain(body.access));
      store.SetItem(REFRESH_TOKEN, Plain(body.refresh));
      store.SetItem(USER, Json(body.user));
      user := Some(body.user);
      isAuthenticated := true;
    }

    /**
     * `login(email, password)`: the superadmin endpoint first, the user
     * endpoint (`second`) only when that fails.
     */
    method Login(store: LocalStorage, superadmin: Reply<LoginBody>, regular: Reply<LoginBody>)
      returns (r: LoginResult, second: bool)
      modifies this, store
      ensures second <==> superadmin.Failed?
      ensures superadmin.Success? ==>
        r == LoggedIn(superadmin.data.user) && store.items == SessionOf(old(store.items), superadmin.data)
        && user == Some(superadmin.data.user) && isAuthenticated
      ensures second && regular.Success? ==>
        r == LoggedIn(regular.data.user) && store.items == SessionOf(old(store.items), regular.data)
        && user == Some(regular.data.user) && isAuthenticated
      ensures second && regular.Failed? ==>
        r == LoginFailed(ErrorText(regular, INVALID_CREDENTIALS)) && store.items == old(store.items)
        && user == old(user) && isAuthenticated == old(isAuthenticated)
      ensures loading == old(loading)
    {
      second := superadmin.Failed?;
      if superadmin.Success? {
        Establish(store, superadmin.data);
        r := LoggedIn(superadmin.data.user);
      } else if regular.Success? {
        Establish(store, regular.data);
        r := LoggedIn(regular.data.user);
      } else {
        r := LoginFailed(ErrorText(regular, INVALID_CREDENTIALS));
      }
    }

    /** `logout()`: clears the three session keys and sends the page to /login. */
    method Logout(store: LocalStorage) returns (nav: string)
      modifies this, store
      ensures store.items == old(store.items) - AUTH_KEYS
      ensures user.None? && !isAuthenticated && nav == LOGIN_PATH && loading == old(loading)
    {
      store.RemoveItem(TOKEN);
      store.RemoveItem(REFRESH_TOKEN);
      store.RemoveItem(USER);
      user := None;
      isAuthenticated := false;
      nav := LOGIN_PATH;
    }
  }

  /** A login never stamps activity: `last_activity` is as it was. */
  lemma LoginLeavesActivity(items: Items, body: LoginBody)
    ensures LAST_ACTIVITY in SessionOf(items, body) <==> LAST_ACTIVITY in items
    ensures LAST_ACTIVITY in items ==> SessionOf(items, body)[LAST_ACTIVITY] == items[LAST_ACTIVITY]
  {
  }
}
