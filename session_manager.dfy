/**
 * The client's idle-session manager. Activity stamps `last_activity` with
 * the current time in milliseconds; a periodic check logs out after an hour
 * of inactivity and refreshes the token after half an hour. The clock and
 * the event listeners that drive these steps are inputs here.
 */
module SessionManager {
  import opened Wrappers
  import opened Text
  import opened Js
  import opened Storage

  /** One hour, in milliseconds. */
  const SESSION_TIMEOUT := 60 * 60 * 1000
  /** Half an hour, in milliseconds: the refresh threshold. */
  const REFRESH_AFTER := 30 * 60 * 1000
  const EXPIRED_PATH := "/login?session=expired"
  const LOGIN_PATH := "/login"

  /**
   * `parseInt(localStorage.getItem('last_activity') || '0')`; None stands
   * for NaN. A missing or empty entry reads as 0; a stored object's JSON
   * text starts with '{' and parses to NaN.
   */
  function LastActivity(items: Items): (r: Option<int>)
    ensures LAST_ACTIVITY !in items ==> r == Some(0)
    ensures LAST_ACTIVITY in items && items[LAST_ACTIVITY].Json? ==> r.None?
    ensures LAST_ACTIVITY in items && items[LAST_ACTIVITY].Plain? && items[LAST_ACTIVITY].s != "" ==>
      r == ParseInt(items[LAST_ACTIVITY].s)
  {
    if LAST_ACTIVITY !in items then ParseInt("0")
    else match items[LAST_ACTIVITY]
      case Json(_) => None
      case Plain(s) => ParseInt(if s == "" then "0" else s)
  }

  /** `Date.now() - lastActivity`; None when the stamp is NaN. */
  function Idle(items: Items, now: int): (r: Option<int>)
    ensures r.Some? <==> LastActivity(items).Some?
    ensures r.Some? ==> r.value == now - LastActivity(items).value
  {
    match LastActivity(items)
    case Some(t) => Some(now - t)
    case None => None
  }

  /**
   * `isAuthenticated()`: a non-empty token is stored and the idle time is
   * at most the timeout (a NaN comparison is false).
   */
  predicate IsAuthenticated(items: Items, now: int) {
    HasTruthy(items, TOKEN) && Idle(items, now).Some? && Idle(items, now).value <= SESSION_TIMEOUT
  }

  /** `updateLastActivity()`: stamps the time; no other key changes. */
  method UpdateLastActivity(store: LocalStorage, now: nat)
    modifies store
    ensures store.items == old(store.items)[LAST_ACTIVITY := Plain(NatToString(now))]
  {
    store.SetItem(LAST_ACTIVITY, Plain(NatToString(now)));
  }

  /** `logout()`: removes token, refresh token and activity stamp, never `user`. */
  method Logout(store: LocalStorage)
    modifies store
    ensures store.items == old(store.items) - SESSION_KEYS
    ensures USER in old(store.items) ==> USER in store.items && store.items[USER] == old(store.items)[USER]
  {
    store.RemoveItem(TOKEN);
    store.RemoveItem(REFRESH_TOKEN);
    store.RemoveItem(LAST_ACTIVITY);
  }

  /**
   * `checkSession()` at time `now`. `refresh` is the outcome of the refresh
   * call, made (`called`) only past the half-hour mark with a refresh token
   * stored and the hour not yet over.
   */
  method CheckSession(store: LocalStorage, now: int, refresh: Reply<string>)
    returns (nav: Option<string>, called: bool)
    modifies store
    ensures var idle := Idle(old(store.items), now);
      called <==> idle.Some? && REFRESH_AFTER < idle.value <= SESSION_TIMEOUT
                  && HasTruthy(old(store.items), REFRESH_TOKEN)
    ensures var idle := Idle(old(store.items), now);
      idle.Some? && idle.value > SESSION_TIMEOUT ==>
        store.items == old(store.items) - SESSION_KEYS && nav == Some(EXPIRED_PATH)
    ensures called && refresh.Success? ==>
      store.items == old(store.items)[TOKEN := Plain(refresh.data)] && nav.None?
    ensures called && refresh.Failed? ==>
      store.items == old(store.items) - SESSION_KEYS && nav == Some(LOGIN_PATH)
    ensures var idle := Idle(old(store.items), now);
      (idle.None? || idle.value <= REFRESH_AFTER
       || (idle.value <= SESSION_TIMEOUT && !HasTruthy(old(store.items), REFRESH_TOKEN))) ==>
        store.items == old(store.items) && nav.None?
  {
    nav := None;
    called := false;
    var lastActivity := LastActivity(store.items);
    if lastActivity.None? {
      return;
    }
    var idle := now - lastActivity.value;
    if idle > SESSION_TIMEOUT {
      Logout(store);
      nav := Some(EXPIRED_PATH);
      return;
    }
    if idle > REFRESH_AFTER {
      if HasTruthy(store.items, REFRESH_TOKEN) {
        called := true;
        match refresh
        case Success(access) =>
          store.SetItem(TOKEN, Plain(access));
        case Failed(_, _) =>
          Logout(store);
          nav := Some(LOGIN_PATH);
      }
    }
  }

  /**
   * Stamping activity at `t` keeps the session authenticated, as long as a
   * token is stored, for exactly the following hour.
   */
  lemma StampKeepsSessionForAnHour(items: Items, t: nat, now: int)
    ensures IsAuthenticated(items[LAST_ACTIVITY := Plain(NatToString(t))], now) <==>
      HasTruthy(items, TOKEN) && now - t <= SESSION_TIMEOUT
  {
    ParseIntNatToString(t);
  }

  /** With nothing stamped, the session counts from time 0. */
  lemma NoStampMeansEpoch(items: Items, now: int)
    requires LAST_ACTIVITY !in items
    ensures IsAuthenticated(items, now) <==> HasTruthy(items, TOKEN) && now <= SESSION_TIMEOUT
  {
  }
}
