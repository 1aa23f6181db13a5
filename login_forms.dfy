/**
 * The two login forms. Each posts to its own endpoint, refuses the other
 * role, and on success stores the tokens and an activity stamp (but not
 * the user) before navigating.
 */
module LoginForms {
  import opened Wrappers
  import opened Text
  import opened Js
  import opened Storage
  import opened AuthContext

  const SUPERADMIN_ONLY := "Access denied. Super Admin access only."
  const USE_SUPERADMIN_PAGE := "Please use the Super Admin login page."
  const LOGIN_FAILED := "Login failed. Please try again."
  const ADMIN_PATH := "/admin"
  const DASHBOARD_PATH := "/dashboard"

  /** `response.data.user.role === 'superadmin'` */
  predicate IsSuperadminBody(body: LoginBody) {
    Field(body.user, "role") == Str("superadmin")
  }

  /** The storage a successful form login leaves: tokens and the time stamp, `user` untouched. */
  function FormSession(items: Items, body: LoginBody, now: nat): (r: Items)
    ensures r.Keys == items.Keys + {TOKEN, REFRESH_TOKEN, LAST_ACTIVITY}
    ensures r[TOKEN] == Plain(body.access) && r[REFRESH_TOKEN] == Plain(body.refresh)
    ensures r[LAST_ACTIVITY] == Plain(NatToString(now))
    ensures forall k | k in items && k !in SESSION_KEYS :: r[k] == items[k]
  {
    items[TOKEN := Plain(body.access)][REFRESH_TOKEN := Plain(body.refresh)][LAST_ACTIVITY := Plain(NatToString(now))]
  }

  /** The form's own state: the error message and the loading flag. */
  class LoginForm {
    var error: string
    var loading: bool

    constructor()
      ensures error == "" && !loading
    {
      error := "";
      loading := false;
    }

    /** Writes the tokens and the activity stamp, in the order the forms do. */
    method Store(store: LocalStorage, body: LoginBody, now: nat)
      modifies store
      ensures store.items == FormSession(old(store.items), body, now)
    {
      store.SetItem(TOKEN, Plain(body.access));
      store.SetItem(REFRESH_TOKEN, Plain(body.refresh));
      store.SetItem(LAST_ACTIVITY, Plain(NatToString(now)));
    }

    /** SuperAdminLogin's `handleSubmit` at time `now`, given the endpoint's reply. */
    method SubmitSuperAdmin(store: LocalStorage, reply: Reply<LoginBody>, now: nat) returns (nav: Option<string>)
      modifies this, store
      ensures !loading
      ensures reply.Success? && !IsSuperadminBody(reply.data) ==>
        error == SUPERADMIN_ONLY && nav.None? && store.items == old(store.items)
      ensures reply.Success? && IsSuperadminBody(reply.data) ==>
        error == "" && nav == Some(ADMIN_PATH) && store.items == FormSession(old(store.items), reply.data, now)
      ensures reply.Failed? ==>
        error == ErrorText(reply, LOGIN_FAILED) && nav.None? && store.items == old(store.items)
    {
      loading := true;
      error := "";
      nav := None;
      match reply {
        case Success(body) =>
          if !IsSuperadminBody(body) {
            error := SUPERADMIN_ONLY;
          } else {
            Store(store, body, now);
            nav := Some(ADMIN_PATH);
          }
        case Failed(_, _) =>
          error := ErrorText(reply, LOGIN_FAILED);
      }
      loading := false;
    }

    /** UserLogin's `handleSubmit` at time `now`, given the endpoint's reply. */
    method SubmitUser(store: LocalStorage, reply: Reply<LoginBody>, now: nat) returns (nav: Option<string>)
      modifies this, store
      ensures !loading
      ensures reply.Success? && IsSuperadminBody(reply.data) ==>
        error == USE_SUPERADMIN_PAGE && nav.None? && store.items == old(store.items)
      ensures reply.Success? && !IsSuperadminBody(reply.data) ==>
        error == "" && nav == Some(DASHBOARD_PATH) && store.items == FormSession(old(store.items), reply.data, now)
      ensures reply.Failed? ==>
        error == ErrorText(reply, LOGIN_FAILED) && nav.None? && store.items == old(store.items)
    {
      loading := true;
      error := "";
      nav := None;
      match reply {
        case Success(body) =>
          if IsSuperadminBody(body) {
            error := USE_SUPERADMIN_PAGE;
          } else {
            Store(store, body, now);
            nav := Some(DASHBOARD_PATH);
          }
        case Failed(_, _) =>
          error := ErrorText(reply, LOGIN_FAILED);
      }
      loading := false;
    }
  }

  /** A form login never writes `user`: whatever was stored there stays. */
  lemma FormLoginKeepsUser(items: Items, body: LoginBody, now: nat)
    ensures USER in FormSession(items, body, now) <==> USER in items
    ensures USER in items ==> FormSession(items, body, now)[USER] == items[USER]
  {
  }
}
