/**
 * The browser's `localStorage` as the client uses it: a string-keyed map
 * with the four session keys `token`, `refresh_token`, `user` and
 * `last_activity`. `user` holds `JSON.stringify` of an object; the model
 * keeps the object itself, so that `JSON.parse` gives it back.
 */
module Storage {
  import opened Wrappers
  import opened Js

  /** A stored value: plain text, or the JSON text of an object. */
  datatype Item = Plain(s: string) | Json(obj: JsObject)

  type Items = map<string, Item>

  const TOKEN := "token"
  const REFRESH_TOKEN := "refresh_token"
  const USER := "user"
  const LAST_ACTIVITY := "last_activity"

  /** The keys the AuthContext, Navbar and api.js 401 paths remove. */
  const AUTH_KEYS: set<string> := {TOKEN, REFRESH_TOKEN, USER}

  /** The keys the session manager's logout removes. */
  const SESSION_KEYS: set<string> := {TOKEN, REFRESH_TOKEN, LAST_ACTIVITY}

  /**
   * `if (localStorage.getItem(key))`: the key is present and its text is
   * non-empty (JSON text of an object is never empty).
   */
  predicate HasTruthy(items: Items, key: string) {
    key in items && (items[key].Json? || items[key].s != "")
  }

  /** The non-empty plain text stored under `key`, if any. */
  function TextOf(items: Items, key: string): (r: Option<string>)
    ensures r.Some? ==> key in items && items[key] == Plain(r.value) && r.value != ""
    ensures r.None? ==> !(key in items && items[key].Plain? && items[key].s != "")
  {
    if key in items && items[key].Plain? && items[key].s != "" then Some(items[key].s) else None
  }

  /**
   * `JSON.parse(localStorage.getItem('user'))`: the stored object, or
   * None when nothing (or no object) is stored.
   */
  function StoredUser(items: Items): (r: Option<JsObject>)
    ensures r.Some? <==> USER in items && items[USER].Json?
    ensures r.Some? ==> items[USER] == Json(r.value)
  {
    if USER in items && items[USER].Json? then Some(items[USER].obj) else None
  }

  class LocalStorage {
    var items: Items

    constructor()
      ensures items == map[]
    {
      items := map[];
    }

    /** `localStorage.setItem(key, v)` */
    method SetItem(key: string, v: Item)
      modifies this
      ensures items == old(items)[key := v]
    {
      items := items[key := v];
    }

    /** `localStorage.removeItem(key)`: removing an absent key is a no-op. */
    method RemoveItem(key: string)
      modifies this
      ensures items == old(items) - {key}
    {
      items := items - {key};
    }
  }
}
