/**
 * The superadmin's user-management screen: the permission badges of the
 * user table, the permission update it sends, the local copy of the users
 * it keeps, and the side panel's form.
 */
module AdminDashboard {
  import opened Wrappers
  import opened Text
  import opened Js
  import opened Models

  /** A user row as the screen holds it; `permissions` maps a page id to an object of flags. */
  datatype DashUser = DashUser(id: int, email: string, firstName: string, lastName: string,
                               role: string, permissions: map<int, JsObject>)

  /** A user row as the users endpoint sends it; `permissions` may be absent. */
  datatype FetchedUser = FetchedUser(id: int, email: string, firstName: string, lastName: string,
                                     role: string, permissions: Option<map<int, JsObject>>)

  datatype DashPage = DashPage(id: int, name: string)

  datatype FormData = FormData(email: string, firstName: string, lastName: string, role: string, password: string)

  const INITIAL_FORM := FormData("", "", "", "user", "")

  /** The body of the permission update request. */
  datatype Payload = Payload(userId: int, pageId: int, grant: Grant)

  /** The body of the user creation request. */
  datatype NewUser = NewUser(email: string, firstName: string, lastName: string, role: string,
                             password: string, username: string)

  const LOAD_FAILED := "Failed to load dashboard data. Please try again."
  const UPDATE_FAILED := "Failed to update permissions. Please try again."
  const CREATE_FAILED := "Failed to create user. Please try again."
  const DELETE_FAILED := "Failed to delete user. Please try again."
  const CREATED_PREFIX := "User created successfully! Password: "

  const LABELS: set<string> := {"Full Access", "Delete", "Create", "Edit", "View", "No Access"}

  /** `!!o[key]` */
  predicate Flag(o: JsObject, key: string) {
    Truthy(Field(o, key))
  }

  /** A grant as an object with the short keys the label and the payload read. */
  function ShortKeys(g: Grant): JsObject {
    map["view" := Bool(g.canView), "edit" := Bool(g.canEdit), "create" := Bool(g.canCreate), "delete" := Bool(g.canDelete)]
  }

  /** A grant as an object with the `can_*` keys the local update writes and the checkboxes read. */
  function CanKeys(g: Grant): JsObject {
    map["can_view" := Bool(g.canView), "can_edit" := Bool(g.canEdit),
        "can_create" := Bool(g.canCreate), "can_delete" := Bool(g.canDelete)]
  }

  /**
   * `getPermissionLabel(permissions, role)`: 'Full Access' for a
   * superadmin, else the first short-key flag set in the order delete,
   * create, edit, view, else 'No Access'.
   */
  function PermissionLabel(permissions: Option<JsObject>, role: string): (r: string)
    ensures r in LABELS
    ensures r == "Full Access" <==> role == "superadmin"
    ensures permissions.None? && role != "superadmin" ==> r == "No Access"
  {
    if role == "superadmin" then "Full Access"
    else if permissions.None? then "No Access"
    else if Flag(permissions.value, "delete") then "Delete"
    else if Flag(permissions.value, "create") then "Create"
    else if Flag(permissions.value, "edit") then "Edit"
    else if Flag(permissions.value, "view") then "View"
    else "No Access"
  }

  /** `getPermissionColor(permissions, role)`, the same chain as the label. */
  function PermissionColor(permissions: Option<JsObject>, role: string): (r: string)
    ensures role == "superadmin" ==> r == "permission-delete"
  {
    if role == "superadmin" then "permission-delete"
    else if permissions.None? then "permission-none"
    else if Flag(permissions.value, "delete") then "permission-delete"
    else if Flag(permissions.value, "create") then "permission-create"
    else if Flag(permissions.value, "edit") then "permission-edit"
    else if Flag(permissions.value, "view") then "permission-view"
    else "permission-none"
  }

  /** The colour class that goes with each badge label. */
  function ColorOf(badge: string): string {
    match badge
    case "Full Access" => "permission-delete"
    case "Delete" => "permission-delete"
    case "Create" => "permission-create"
    case "Edit" => "permission-edit"
    case "View" => "permission-view"
    case _ => "permission-none"
  }

  /** Badge colour and label always go together. */
  lemma ColorFollowsLabel(permissions: Option<JsObject>, role: string)
    ensures PermissionColor(permissions, role) == ColorOf(PermissionLabel(permissions, role))
  {
  }

  /** The label a backend permission level reads as. */
  function LevelLabel(level: string): string {
    match level
    case "delete" => "Delete"
    case "create" => "Create"
    case "edit" => "Edit"
    case "view" => "View"
    case _ => "No Access"
  }

  /**
   * On short-key objects the label follows the backend's `permission_level`
   * getter: the same priority delete, create, edit, view.
   */
  lemma LabelFollowsLevel(g: Grant, role: string)
    requires role != "superadmin"
    ensures PermissionLabel(Some(ShortKeys(g)), role) == LevelLabel(PermissionLevel(g))
  {
  }

  /**
   * The objects the screen stores carry `can_*` keys, which the label does
   * not read: a stored grant, whatever its flags, is labelled 'No Access'
   * for every user who is not a superadmin.
   */
  lemma StoredGrantLabelledNoAccess(g: Grant, role: string)
    requires role != "superadmin"
    ensures PermissionLabel(Some(CanKeys(g)), role) == "No Access"
  {
    assert Field(CanKeys(g), "delete") == Undefined;
    assert Field(CanKeys(g), "create") == Undefined;
    assert Field(CanKeys(g), "edit") == Undefined;
    assert Field(CanKeys(g), "view") == Undefined;
  }

  /** `newPermissions.view || false` and so on: the flags the request carries. */
  function PayloadGrant(newPermissions: JsObject): (g: Grant)
    ensures g.canView <==> Flag(newPermissions, "view")
    ensures g.canEdit <==> Flag(newPermissions, "edit")
    ensures g.canCreate <==> Flag(newPermissions, "create")
    ensures g.canDelete <==> Flag(newPermissions, "delete")
  {
    Grant(Flag(newPermissions, "view"), Flag(newPermissions, "edit"),
          Flag(newPermissions, "create"), Flag(newPermissions, "delete"))
  }

  /** A grant sent as short keys arrives unchanged. */
  lemma PayloadOfShortKeys(g: Grant)
    ensures PayloadGrant(ShortKeys(g)) == g
  {
  }

  /**
   * The local update: the user with id `userId` gets `entry` for page
   * `pageId`; every other user, and every other page, is as it was.
   */
  function WithPermission(users: seq<DashUser>, userId: int, pageId: int, entry: JsObject): (r: seq<DashUser>)
    ensures |r| == |users|
    ensures forall i | 0 <= i < |users| && users[i].id != userId :: r[i] == users[i]
    ensures forall i | 0 <= i < |users| && users[i].id == userId ::
      r[i].permissions.Keys == users[i].permissions.Keys + {pageId}
      && r[i].permissions[pageId] == entry
      && (forall p | p in users[i].permissions && p != pageId :: r[i].permissions[p] == users[i].permissions[p])
      && r[i] == users[i].(permissions := r[i].permissions)
  {
    seq(|users|, i requires 0 <= i < |users| =>
      if users[i].id == userId then users[i].(permissions := users[i].permissions[pageId := entry]) else users[i])
  }

  /** `permissions: user.permissions || {}` for every fetched user. */
  function WithDefaults(fetched: seq<FetchedUser>): (r: seq<DashUser>)
    ensures |r| == |fetched|
    ensures forall i | 0 <= i < |fetched| ::
      r[i].id == fetched[i].id && r[i].email == fetched[i].email && r[i].role == fetched[i].role
      && r[i].firstName == fetched[i].firstName && r[i].lastName == fetched[i].lastName
      && r[i].permissions == (if fetched[i].permissions.Some? then fetched[i].permissions.value else map[])
  {
    seq(|fetched|, i requires 0 <= i < |fetched| =>
      var f := fetched[i];
      DashUser(f.id, f.email, f.firstName, f.lastName, f.role,
               if f.permissions.Some? then f.permissions.value else map[]))
  }

  /** The creation request built from the form; the username is the e-mail up to its first '@'. */
  function NewUserBody(form: FormData): (r: NewUser)
    ensures r.email == form.email && r.role == form.role && r.password == form.password
    ensures '@' !in r.username && |r.username| <= |form.email| && r.username == form.email[..|r.username|]
    ensures |r.username| < |form.email| ==> form.email[|r.username|] == '@'
    ensures '@' !in form.email ==> r.username == form.email
  {
    NewUser(form.email, form.firstName, form.lastName, form.role, form.password, BeforeFirst(form.email, '@'))
  }

  /** The checkbox state for one flag: `permissions[pageId]?.can_<perm> || false`. */
  function CheckedFlags(entry: Option<JsObject>): (g: Grant)
    ensures entry.None? ==> g == NO_GRANT
    ensures entry.Some? ==>
      (g.canView <==> Truthy(Field(entry.value, "can_view")))
      && (g.canEdit <==> Truthy(Field(entry.value, "can_edit")))
      && (g.canCreate <==> Truthy(Field(entry.value, "can_create")))
      && (g.canDelete <==> Truthy(Field(entry.value, "can_delete")))
  {
    match entry
    case None => NO_GRANT
    case Some(o) => Grant(Flag(o, "can_view"), Flag(o, "can_edit"), Flag(o, "can_create"), Flag(o, "can_delete"))
  }

  /**
   * The boxes show a grant stored under the `can_*` keys as it is, and show
   * every box unticked for one stored only under the short keys.
   */
  lemma CheckedFlagsReadCanKeys(g: Grant)
    ensures CheckedFlags(Some(CanKeys(g))) == g
    ensures CheckedFlags(Some(ShortKeys(g))) == NO_GRANT
  {
    assert "can_view" !in ShortKeys(g) && "can_edit" !in ShortKeys(g);
    assert "can_create" !in ShortKeys(g) && "can_delete" !in ShortKeys(g);
  }

  /** The grant with the one flag named by `perm` set to `checked`. */
  function SetFlag(g: Grant, perm: string, checked: bool): (r: Grant)
    requires perm in LEVELS
    ensures perm == "view" ==> r == g.(canView := checked)
    ensures perm == "edit" ==> r == g.(canEdit := checked)
    ensures perm == "create" ==> r == g.(canCreate := checked)
    ensures perm == "delete" ==> r == g.(canDelete := checked)
  {
    match perm
    case "view" => g.(canView := checked)
    case "edit" => g.(canEdit := checked)
    case "create" => g.(canCreate := checked)
    case _ => g.(canDelete := checked)
  }

  /**
   * The checkbox handler as written: it spreads the stored entry and sets
   * the short key `perm`, and the payload then reads the short keys.
   */
  function ToggleAsWritten(entry: Option<JsObject>, perm: string, checked: bool): JsObject
    requires perm in LEVELS
  {
    var base := if entry.Some? then entry.value else map[];
    base[perm := Bool(checked)]
  }

  /**
   * The stored entries carry only `can_*` keys, so a toggle as written
   * sends every other flag as false: ticking 'edit' on a row that grants
   * view sends a payload that withdraws view.
   */
  lemma ToggleClearsOtherFlags(g: Grant, perm: string, checked: bool)
    requires perm in LEVELS
    ensures PayloadGrant(ToggleAsWritten(Some(CanKeys(g)), perm, checked)) == SetFlag(NO_GRANT, perm, checked)
    ensures PayloadGrant(ToggleAsWritten(None, perm, checked)) == SetFlag(NO_GRANT, perm, checked)
  {
    CanKeysHaveNoShortKey(g);
    ToggleOverForeignKeys(CanKeys(g), perm, checked);
    ToggleOverForeignKeys(map[], perm, checked);
  }

  /** No short key is among the `can_*` keys. */
  lemma CanKeysHaveNoShortKey(g: Grant)
    ensures forall k | k in LEVELS :: k !in CanKeys(g)
  {
  }

  /** Ticking one short key on an object that has none sends that flag alone. */
  lemma ToggleOverForeignKeys(base: JsObject, perm: string, checked: bool)
    requires perm in LEVELS
    requires forall k | k in LEVELS :: k !in base
    ensures PayloadGrant(base[perm := Bool(checked)]) == SetFlag(NO_GRANT, perm, checked)
  {
  }

  /** The concrete case: a view-only row, 'edit' ticked. */
  lemma ToggleWithdrawsView()
    ensures PayloadGrant(ToggleAsWritten(Some(CanKeys(Grant(true, false, false, false))), "edit", true))
      == Grant(false, true, false, false)
  {
    ToggleClearsOtherFlags(Grant(true, false, false, false), "edit", true);
  }

  /** The toggle as intended: the flags the checkboxes show, with the one ticked or unticked. */
  function IntendedToggle(entry: Option<JsObject>, perm: string, checked: bool): (r: JsObject)
    requires perm in LEVELS
    ensures PayloadGrant(r) == SetFlag(CheckedFlags(entry), perm, checked)
  {
    PayloadOfShortKeys(SetFlag(CheckedFlags(entry), perm, checked));
    ShortKeys(SetFlag(CheckedFlags(entry), perm, checked))
  }

  /** A corrected toggle changes only the flag ticked; the other three keep what the checkboxes show. */
  lemma IntendedToggleKeepsOthers(g: Grant, perm: string, checked: bool)
    requires perm in LEVELS
    ensures var sent := PayloadGrant(IntendedToggle(Some(CanKeys(g)), perm, checked));
      (perm != "view" ==> sent.canView == g.canView)
      && (perm != "edit" ==> sent.canEdit == g.canEdit)
      && (perm != "create" ==> sent.canCreate == g.canCreate)
      && (perm != "delete" ==> sent.canDelete == g.canDelete)
      && (perm == "view" ==> sent.canView == checked)
      && (perm == "edit" ==> sent.canEdit == checked)
      && (perm == "create" ==> sent.canCreate == checked)
      && (perm == "delete" ==> sent.canDelete == checked)
  {
    assert CheckedFlags(Some(CanKeys(g))) == g;
  }

  class Dashboard {
    var users: seq<DashUser>
    var pages: seq<DashPage>
    var selectedUser: Option<DashUser>
    var isRightPanelOpen: bool
    var loading: bool
    var error: string
    var formData: FormData

    constructor()
      ensures users == [] && pages == [] && selectedUser.None? && !isRightPanelOpen
      ensures loading && error == "" && formData == INITIAL_FORM
    {
      users := [];
      pages := [];
      selectedUser := None;
      isRightPanelOpen := false;
      loading := true;
      error := "";
      formData := INITIAL_FORM;
    }

    /** `fetchData()`: both lists must arrive; a missing page list becomes []. */
    method FetchData(usersReply: Reply<seq<FetchedUser>>, pagesReply: Reply<Option<seq<DashPage>>>)
      modifies this
      ensures !loading
      ensures usersReply.Success? && pagesReply.Success? ==>
        users == WithDefaults(usersReply.data) && error == ""
        && pages == (if pagesReply.data.Some? then pagesReply.data.value else [])
      ensures !(usersReply.Success? && pagesReply.Success?) ==>
        users == old(users) && pages == old(pages) && error == LOAD_FAILED
      ensures selectedUser == old(selectedUser) && isRightPanelOpen == old(isRightPanelOpen)
      ensures formData == old(formData)
    {
      loading := true;
      error := "";
      if usersReply.Success? && pagesReply.Success? {
        users := WithDefaults(usersReply.data);
        pages := if pagesReply.data.Some? then pagesReply.data.value else [];
      } else {
        error := LOAD_FAILED;
      }
      loading := false;
    }

    /**
     * `handleUpdatePermissions(userId, pageId, newPermissions)`: sends
     * `payload`; on success updates the local copy, then fetches again.
     */
    method HandleUpdatePermissions(userId: int, pageId: int, newPermissions: JsObject, reply: Reply<()>,
                                   usersReply: Reply<seq<FetchedUser>>, pagesReply: Reply<Option<seq<DashPage>>>)
      returns (payload: Payload)
      modifies this
      ensures payload == Payload(userId, pageId, PayloadGrant(newPermissions))
      ensures reply.Failed? ==>
        users == old(users) && pages == old(pages) && error == ErrorText(reply, UPDATE_FAILED)
        && loading == old(loading)
      ensures reply.Success? && usersReply.Success? && pagesReply.Success? ==>
        users == WithDefaults(usersReply.data) && error == "" && !loading
      ensures reply.Success? && !(usersReply.Success? && pagesReply.Success?) ==>
        users == WithPermission(old(users), userId, pageId, CanKeys(PayloadGrant(newPermissions)))
        && pages == old(pages) && error == LOAD_FAILED && !loading
      ensures selectedUser == old(selectedUser) && formData == old(formData)
    {
      error := "";
      var g := PayloadGrant(newPermissions);
      payload := Payload(userId, pageId, g);
      if reply.Failed? {
        error := ErrorText(reply, UPDATE_FAILED);
        return;
      }
      users := WithPermission(users, userId, pageId, CanKeys(g));
      FetchData(usersReply, pagesReply);
    }

    /**
     * `handleCreateUser()`: sends the body built from the form. `reply`
     * carries the `password` of the created user's answer (None when the
     * answer has none, which the message shows as "undefined"). On success
     * the lists are fetched again, the form is reset, the panel closes and
     * the password is shown.
     */
    method HandleCreateUser(reply: Reply<Option<string>>,
                            usersReply: Reply<seq<FetchedUser>>, pagesReply: Reply<Option<seq<DashPage>>>)
      returns (sent: NewUser)
      modifies this
      ensures sent == NewUserBody(old(formData))
      ensures !loading && selectedUser == old(selectedUser)
      ensures reply.Success? ==>
        formData == INITIAL_FORM && !isRightPanelOpen
        && error == CREATED_PREFIX + (if reply.data.Some? then reply.data.value else "undefined")
        && (usersReply.Success? && pagesReply.Success? ==> users == WithDefaults(usersReply.data))
        && (!(usersReply.Success? && pagesReply.Success?) ==> users == old(users) && pages == old(pages))
      ensures reply.Failed? ==>
        error == ErrorText(reply, CREATE_FAILED) && users == old(users) && pages == old(pages)
        && formData == old(formData) && isRightPanelOpen == old(isRightPanelOpen)
    {
      error := "";
      loading := true;
      sent := NewUserBody(formData);
      match reply {
        case Success(password) =>
          FetchData(usersReply, pagesReply);
          formData := INITIAL_FORM;
          isRightPanelOpen := false;
          error := CREATED_PREFIX + (if password.Some? then password.value else "undefined");
        case Failed(_, _) =>
          error := ErrorText(reply, CREATE_FAILED);
      }
      loading := false;
    }

    /**
     * `handleDeleteUser(userId)`. `confirmed` is the answer to the
     * confirmation dialog; `reply` carries the answer's `message`. The
     * message is set and then overwritten by the refetch, which clears the
     * error first.
     */
    method HandleDeleteUser(userId: int, confirmed: bool, reply: Reply<Option<string>>,
                            usersReply: Reply<seq<FetchedUser>>, pagesReply: Reply<Option<seq<DashPage>>>)
      returns (sent: bool)
      modifies this
      ensures sent == confirmed
      ensures !confirmed ==>
        users == old(users) && pages == old(pages) && error == old(error) && loading == old(loading)
      ensures confirmed ==> !loading
      ensures confirmed && reply.Success? && reply.data.Some? && reply.data.value != "" ==>
        (usersReply.Success? && pagesReply.Success? ==> users == WithDefaults(usersReply.data) && error == "")
        && (!(usersReply.Success? && pagesReply.Success?) ==> users == old(users) && error == LOAD_FAILED)
      ensures confirmed && reply.Success? && !(reply.data.Some? && reply.data.value != "") ==>
        users == old(users) && pages == old(pages) && error == ""
      ensures confirmed && reply.Failed? ==>
        users == old(users) && pages == old(pages) && error == ErrorText(reply, DELETE_FAILED)
      ensures selectedUser == old(selectedUser) && formData == old(formData)
      ensures isRightPanelOpen == old(isRightPanelOpen)
    {
      sent := confirmed;
      if !confirmed {
        return;
      }
      error := "";
      loading := true;
      match reply {
        case Success(message) =>
          if message.Some? && message.value != "" {
            error := message.value;
            FetchData(usersReply, pagesReply);
          }
        case Failed(_, _) =>
          error := ErrorText(reply, DELETE_FAILED);
      }
      loading := false;
    }

    /** `openRightPanel(user)`: copies the user into the form, or restores the empty form. */
    method OpenRightPanel(user: Option<DashUser>)
      modifies this
      ensures selectedUser == user && isRightPanelOpen
      ensures user.None? ==> formData == INITIAL_FORM
      ensures user.Some? ==>
        formData.email == user.value.email && formData.firstName == user.value.firstName
        && formData.lastName == user.value.lastName && formData.password == ""
        && formData.role == (if user.value.role == "" then "user" else user.value.role)
      ensures users == old(users) && pages == old(pages) && error == old(error) && loading == old(loading)
    {
      selectedUser := user;
      match user {
        case Some(u) =>
          formData := FormData(u.email, u.firstName, u.lastName, if u.role == "" then "user" else u.role, "");
        case None =>
          formData := INITIAL_FORM;
      }
      isRightPanelOpen := true;
    }

    /**
     * A checkbox of the side panel, with the corrected toggle: the payload
     * keeps the three flags not ticked as the checkboxes show them.
     */
    method ToggleFlag(pageId: int, perm: string, checked: bool, reply: Reply<()>,
                      usersReply: Reply<seq<FetchedUser>>, pagesReply: Reply<Option<seq<DashPage>>>)
      returns (payload: Payload)
      requires selectedUser.Some? && perm in LEVELS
      modifies this
      ensures var u := old(selectedUser).value;
        var entry := if pageId in u.permissions then Some(u.permissions[pageId]) else None;
        payload == Payload(u.id, pageId, SetFlag(CheckedFlags(entry), perm, checked))
    {
      var u := selectedUser.value;
      var entry := if pageId in u.permissions then Some(u.permissions[pageId]) else None;
      payload := HandleUpdatePermissions(u.id, pageId, IntendedToggle(entry, perm, checked), reply, usersReply, pagesReply);
    }
  }
}
