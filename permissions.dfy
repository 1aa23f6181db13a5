/**
 * The three server-side readings of a permission row:
 * `validate_permission_edge_cases` (hierarchical), `user_has_permission`
 * (flat) and `check_page_permission_view` (all four flags), and how they
 * relate.
 */
module Permissions {
  import opened Wrappers
  import opened Models
  import opened Store

  const ACTIONS: set<string> := {"view", "edit", "create", "delete"}

  /** The hierarchical reading: viewing follows from any flag, editing from edit or delete. */
  predicate Hierarchical(g: Grant, action: string) {
    if action == "view" then g.canView || g.canEdit || g.canCreate || g.canDelete
    else if action == "create" then g.canCreate
    else if action == "edit" then g.canEdit || g.canDelete
    else if action == "delete" then g.canDelete
    else false
  }

  /** The flat reading: each action is exactly its own flag. */
  predicate Flat(g: Grant, action: string) {
    if action == "view" then g.canView
    else if action == "edit" then g.canEdit
    else if action == "create" then g.canCreate
    else if action == "delete" then g.canDelete
    else false
  }

  /**
   * `validate_permission_edge_cases(user, page, action)`: a superuser passes
   * before anything else is looked at; an inactive user or one without a row
   * for the page fails; otherwise the row is read hierarchically.
   */
  function EdgeCasePermission(u: User, grants: GrantTable, page: PageId, action: string): (ok: bool)
    ensures u.isSuperuser ==> ok
    ensures !u.isSuperuser && !u.isActive ==> !ok
    ensures !u.isSuperuser && (u.id, page) !in grants ==> !ok
    ensures ok && !u.isSuperuser ==> action in ACTIONS
  {
    if u.isSuperuser then true
    else if !u.isActive then false
    else if (u.id, page) !in grants then false
    else Hierarchical(grants[(u.id, page)], action)
  }

  /**
   * `user_has_permission(user, page_name, permission_type)`: a superuser
   * passes; otherwise the page is looked up by name and the row for
   * (user, page) is read flat. A missing page or row fails. The active
   * flag is not consulted.
   */
  function UserHasPermission(u: User, pages: seq<Page>, grants: GrantTable, pageName: string, action: string): (ok: bool)
    ensures u.isSuperuser ==> ok
    ensures !u.isSuperuser && FindPageByName(pages, pageName).None? ==> !ok
    ensures ok && !u.isSuperuser ==> action in ACTIONS
  {
    if u.isSuperuser then true
    else match FindPageByName(pages, pageName)
      case None => false
      case Some(p) => (u.id, p.id) in grants && Flat(grants[(u.id, p.id)], action)
  }

  /**
   * `check_page_permission_view`: a user whose role is superadmin passes;
   * anyone else passes only when the row for the page has all four flags
   * set. The requested permission type plays no part.
   */
  function CheckPagePermission(u: User, pages: seq<Page>, grants: GrantTable, page: PageId, permissionType: string): (ok: bool)
    ensures IsSuperadmin(u) ==> ok
    ensures !IsSuperadmin(u) ==> (ok <==> page in PageIds(pages) && (u.id, page) in grants && grants[(u.id, page)] == FULL_GRANT)
  {
    if IsSuperadmin(u) then true
    else FindPageById(pages, page).Some? && (u.id, page) in grants && grants[(u.id, page)] == FULL_GRANT
  }

  /** delete implies edit implies view, and create implies view, under the hierarchical reading. */
  lemma HierarchyLadder(g: Grant)
    ensures Hierarchical(g, "delete") ==> Hierarchical(g, "edit")
    ensures Hierarchical(g, "edit") ==> Hierarchical(g, "view")
    ensures Hierarchical(g, "create") ==> Hierarchical(g, "view")
    ensures Hierarchical(g, "view") <==> g != NO_GRANT
  {
  }

  /** A create-only row allows create and view but not edit: create does not imply edit. */
  lemma CreateDoesNotImplyEdit()
    ensures var g := Grant(false, false, true, false);
      Hierarchical(g, "create") && Hierarchical(g, "view") && !Hierarchical(g, "edit")
  {
  }

  /** An action outside view, edit, create and delete is refused by both readings. */
  lemma UnknownActionRefused(g: Grant, action: string)
    requires action !in ACTIONS
    ensures !Hierarchical(g, action) && !Flat(g, action)
  {
  }

  /** Whatever the flat reading allows, the hierarchical one allows too. */
  lemma FlatImpliesHierarchical(g: Grant, action: string)
    ensures Flat(g, action) ==> Hierarchical(g, action)
  {
  }

  /** The converse fails: an edit-only row is viewable hierarchically but not flatly. */
  lemma HierarchicalNotFlat()
    ensures var g := Grant(false, true, false, false);
      Hierarchical(g, "view") && !Flat(g, "view")
  {
  }

  /** On the rows the `permission_level` setter produces, the two readings agree. */
  lemma ReadingsAgreeOnLadder(g: Grant, action: string)
    requires IsLadder(g)
    ensures Flat(g, action) <==> Hierarchical(g, action)
  {
  }

  /** An inactive superuser still passes every edge-case check, for any page and any action. */
  lemma InactiveSuperuserPasses(u: User, grants: GrantTable, page: PageId, action: string)
    requires u.isSuperuser && !u.isActive
    ensures EdgeCasePermission(u, grants, page, action)
  {
  }

  /**
   * The flat check ignores the active flag: an inactive user with a view
   * row passes `user_has_permission` while the edge-case check refuses.
   */
  lemma InactiveUserDiverges(u: User, pages: seq<Page>, grants: GrantTable, p: Page)
    requires !u.isSuperuser && !u.isActive
    requires DistinctPages(pages) && p in pages
    requires (u.id, p.id) in grants && grants[(u.id, p.id)].canView
    ensures UserHasPermission(u, pages, grants, p.name, "view")
    ensures !EdgeCasePermission(u, grants, p.id, "view")
  {
    FindPageByNameUnique(pages, p);
  }

  /**
   * The flat check and the edge-case check agree for an active user whose
   * row is a ladder, once the page is found by its name.
   */
  lemma FlatMatchesEdgeCaseOnLadder(u: User, pages: seq<Page>, grants: GrantTable, p: Page, action: string)
    requires u.isActive
    requires DistinctPages(pages) && p in pages
    requires (u.id, p.id) in grants ==> IsLadder(grants[(u.id, p.id)])
    ensures UserHasPermission(u, pages, grants, p.name, action) == EdgeCasePermission(u, grants, p.id, action)
  {
    FindPageByNameUnique(pages, p);
    if (u.id, p.id) in grants {
      ReadingsAgreeOnLadder(grants[(u.id, p.id)], action);
    }
  }

  /** `check_page_permission_view` gives the same answer whatever permission type is asked for. */
  lemma CheckIgnoresType(u: User, pages: seq<Page>, grants: GrantTable, page: PageId, t1: string, t2: string)
    ensures CheckPagePermission(u, pages, grants, page, t1) == CheckPagePermission(u, pages, grants, page, t2)
  {
  }

  /**
   * The two superuser notions differ: a superuser whose role is "user" and
   * who has no row passes `user_has_permission` but not
   * `check_page_permission_view`.
   */
  lemma SuperuserAndSuperadminDiffer(u: User, pages: seq<Page>, p: Page)
    requires u.isSuperuser && u.role == USER_ROLE && p in pages
    ensures UserHasPermission(u, pages, map[], p.name, "view")
    ensures !CheckPagePermission(u, pages, map[], p.id, "view")
  {
  }

  /** A view-only row passes the flat view check but not `check_page_permission_view`. */
  lemma ViewRowNotEnoughForCheck(u: User, pages: seq<Page>, p: Page)
    requires !u.isSuperuser && u.role == USER_ROLE && DistinctPages(pages) && p in pages
    ensures var grants := map[(u.id, p.id) := Grant(true, false, false, false)];
      UserHasPermission(u, pages, grants, p.name, "view")
      && !CheckPagePermission(u, pages, grants, p.id, "view")
  {
    FindPageByNameUnique(pages, p);
  }
}
