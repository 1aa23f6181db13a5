/**
 * The client's permission context: a cache from page name to the four
 * permission flags, a hierarchical check over it, and the refresh that
 * replaces the cache.
 */
module PermissionContext {
  import opened Wrappers
  import opened Js
  import opened Models
  import opened Storage
  import Permissions

  type Cache = map<string, Grant>

  /** `user?.is_superuser` on the parsed stored user. */
  predicate StoredSuperuser(storedUser: Option<JsObject>) {
    storedUser.Some? && Truthy(Field(storedUser.value, "is_superuser"))
  }

  /**
   * `checkPermission(page, action)`: a stored superuser may do anything;
   * otherwise a page missing from the cache allows nothing, and a cached
   * grant is read hierarchically.
   */
  function CheckPermission(storedUser: Option<JsObject>, cache: Cache, page: string, action: string): (ok: bool)
    ensures StoredSuperuser(storedUser) ==> ok
    ensures !StoredSuperuser(storedUser) && page !in cache ==> !ok
    ensures !StoredSuperuser(storedUser) && page in cache ==>
      (ok <==> Permissions.Hierarchical(cache[page], action))
  {
    if StoredSuperuser(storedUser) then true
    else if page !in cache then false
    else
      var g := cache[page];
      match action
      case "view" => g.canView || g.canEdit || g.canCreate || g.canDelete
      case "create" => g.canCreate
      case "edit" => g.canEdit || g.canDelete
      case "delete" => g.canDelete
      case _ => false
  }

  /** The check as the page components make it, reading the stored user from storage. */
  function CheckStored(items: Items, cache: Cache, page: string, action: string): bool {
    CheckPermission(StoredUser(items), cache, page, action)
  }

  /** The client's ladder matches the backend's: delete allows edit, edit and create allow view. */
  lemma ClientLadder(storedUser: Option<JsObject>, cache: Cache, page: string)
    ensures CheckPermission(storedUser, cache, page, "delete") ==> CheckPermission(storedUser, cache, page, "edit")
    ensures CheckPermission(storedUser, cache, page, "edit") ==> CheckPermission(storedUser, cache, page, "view")
    ensures CheckPermission(storedUser, cache, page, "create") ==> CheckPermission(storedUser, cache, page, "view")
  {
    if !StoredSuperuser(storedUser) && page in cache {
      Permissions.HierarchyLadder(cache[page]);
    }
  }

  /** The provider's state: the cache, the loading flag and the error message. */
  class PermissionProvider {
    var permissions: Cache
    var loading: bool
    var error: Option<string>

    constructor()
      ensures permissions == map[] && loading && error.None?
    {
      permissions := map[];
      loading := true;
      error := None;
    }

    /**
     * `refreshPermissions()`. `response` is the fetch: a success carries
     * the decoded cache; a failure with a status is a non-ok response
     * (nothing thrown); a failure without one is a thrown error.
     */
    method RefreshPermissions(response: Reply<Cache>)
      modifies this
      ensures !loading
      ensures response.Success? ==> permissions == response.data && error.None?
      ensures response.Failed? && response.status.Some? ==>
        permissions == old(permissions) && error == old(error)
      ensures response.Failed? && response.status.None? ==>
        permissions == old(permissions) && error == Some("Failed to load permissions")
    {
      loading := true;
      match response {
        case Success(data) =>
          permissions := data;
          error := None;
        case Failed(status, _) =>
          if status.None? {
            error := Some("Failed to load permissions");
          }
      }
      loading := false;
    }
  }
}
