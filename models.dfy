/**
 * The persistent entities of the accounts application: users, pages, the
 * per-(user, page) permission grant, comments and their history, together
 * with the pure properties and the permission-level ladder declared on them.
 */
module Models {
  import opened Wrappers
  import opened Text

  type UserId = nat
  type PageId = nat
  type CommentId = nat

  const SUPERADMIN_ROLE := "superadmin"
  const USER_ROLE := "user"

  /** The two values of `User.ROLE_CHOICES`. */
  const ROLE_CHOICES: set<string> := {SUPERADMIN_ROLE, USER_ROLE}

  /**
   * A user row. Passwords are kept in clear (hashing is outside the model);
   * `None` is Django's unusable password. Times are whole seconds; a date
   * of birth is a day number.
   */
  datatype User = User(
    id: UserId,
    email: string,
    username: string,
    firstName: string,
    lastName: string,
    role: string,
    isActive: bool,
    isSuperuser: bool,
    password: Option<string>,
    otpCode: Option<string>,
    otpCreatedAt: Option<int>,
    otpVerified: bool,
    otp: Option<string>,
    phone: Option<string>,
    dateOfBirth: Option<int>)

  /** `User.is_superadmin` */
  predicate IsSuperadmin(u: User) {
    u.role == SUPERADMIN_ROLE
  }

  /** `User.full_name`: first name, one space, last name. */
  function FullName(u: User): (r: string)
    ensures |r| == |u.firstName| + 1 + |u.lastName|
    ensures r[..|u.firstName|] == u.firstName && r[|u.firstName|] == ' '
    ensures r[|u.firstName| + 1..] == u.lastName
  {
    u.firstName + " " + u.lastName
  }

  datatype Page = Page(id: PageId, name: string, description: string, url: string)

  /** Pages in the order of `Page.Meta.ordering`: by name. */
  predicate SortedByName(ps: seq<Page>) {
    forall i, j | 0 <= i < j < |ps| :: LexLe(ps[i].name, ps[j].name)
  }

  /** `p` placed before the first page of the sorted `s` whose name does not come before it. */
  function InsertByName(p: Page, s: seq<Page>): seq<Page> {
    if s == [] || LexLe(p.name, s[0].name) then [p] + s
    else [s[0]] + InsertByName(p, s[1..])
  }

  /** A page table read back in name order, as every unordered query on it is. */
  function SortByName(ps: seq<Page>): seq<Page> {
    if ps == [] then [] else InsertByName(ps[0], SortByName(ps[1..]))
  }

  lemma {:induction false} InsertByNameMultiset(p: Page, s: seq<Page>)
    ensures multiset(InsertByName(p, s)) == multiset(s) + multiset{p}
  {
    if s != [] && !LexLe(p.name, s[0].name) {
      InsertByNameMultiset(p, s[1..]);
      assert s == [s[0]] + s[1..];
    }
  }

  /** A page whose name comes no later than every name of a sorted list can go in front of it. */
  lemma ConsSorted(p: Page, s: seq<Page>)
    requires SortedByName(s)
    requires forall x | x in s :: LexLe(p.name, x.name)
    ensures SortedByName([p] + s)
  {
    var r := [p] + s;
    forall i, j | 0 <= i < j < |r| ensures LexLe(r[i].name, r[j].name) {
      assert r[j] == s[j - 1];
      if i > 0 {
        assert r[i] == s[i - 1];
      }
    }
  }

  lemma {:induction false} InsertByNameSorted(p: Page, s: seq<Page>)
    requires SortedByName(s)
    ensures SortedByName(InsertByName(p, s))
  {
    if s == [] {
    } else if LexLe(p.name, s[0].name) {
      forall x | x in s ensures LexLe(p.name, x.name) {
        var k :| 0 <= k < |s| && s[k] == x;
        if k > 0 {
          LexLeTrans(p.name, s[0].name, x.name);
        }
      }
      ConsSorted(p, s);
    } else {
      var tail := InsertByName(p, s[1..]);
      assert SortedByName(s[1..]) by {
        forall i, j | 0 <= i < j < |s[1..]| ensures LexLe(s[1..][i].name, s[1..][j].name) {
          assert s[1..][i] == s[i + 1] && s[1..][j] == s[j + 1];
        }
      }
      InsertByNameSorted(p, s[1..]);
      InsertByNameMultiset(p, s[1..]);
      LexLeTotal(p.name, s[0].name);
      forall x | x in tail ensures LexLe(s[0].name, x.name) {
        assert x in multiset(tail);
        if x != p {
          assert x in multiset(s[1..]);
          var k :| 0 <= k < |s[1..]| && s[1..][k] == x;
          assert s[k + 1] == x;
        }
      }
      ConsSorted(s[0], tail);
    }
  }

  /** Sorting by name lists the same pages, each as often, in name order. */
  lemma {:induction false} SortByNameOrders(ps: seq<Page>)
    ensures multiset(SortByName(ps)) == multiset(ps)
    ensures SortedByName(SortByName(ps))
  {
    if ps != [] {
      SortByNameOrders(ps[1..]);
      InsertByNameMultiset(ps[0], SortByName(ps[1..]));
      InsertByNameSorted(ps[0], SortByName(ps[1..]));
      assert ps == [ps[0]] + ps[1..];
    }
  }

  /** The four independent flags of a `UserPagePermission` row. */
  datatype Grant = Grant(canView: bool, canEdit: bool, canCreate: bool, canDelete: bool)

  /** The defaults of a fresh row: every flag false. */
  const NO_GRANT := Grant(false, false, false, false)

  /** All four flags set. */
  const FULL_GRANT := Grant(true, true, true, true)

  /** The levels the `permission_level` setter recognises, lowest first. */
  const LEVELS: seq<string> := ["view", "edit", "create", "delete"]

  /**
   * The `permission_level` getter: the highest flag set, in the priority
   * delete, create, edit, view, or "none".
   */
  function PermissionLevel(g: Grant): (level: string)
    ensures level == "delete" <==> g.canDelete
    ensures level == "create" <==> !g.canDelete && g.canCreate
    ensures level == "edit" <==> !g.canDelete && !g.canCreate && g.canEdit
    ensures level == "view" <==> !g.canDelete && !g.canCreate && !g.canEdit && g.canView
    ensures level == "none" <==> g == NO_GRANT
  {
    if g.canDelete then "delete"
    else if g.canCreate then "create"
    else if g.canEdit then "edit"
    else if g.canView then "view"
    else "none"
  }

  /** Each flag implies the next lower one. */
  predicate IsLadder(g: Grant) {
    (g.canDelete ==> g.canCreate) && (g.canCreate ==> g.canEdit) && (g.canEdit ==> g.canView)
  }

  /** The flags the `permission_level` setter assigns for `level`. */
  function LadderGrant(level: string): (g: Grant)
    ensures IsLadder(g)
    ensures g.canView <==> level in LEVELS
    ensures g.canDelete <==> level == "delete"
    ensures level !in LEVELS ==> g == NO_GRANT
  {
    Grant(level in ["view", "edit", "create", "delete"],
          level in ["edit", "create", "delete"],
          level in ["create", "delete"],
          level == "delete")
  }

  /** Setting a known level and reading it back gives that level; anything else reads "none". */
  lemma LevelRoundTrip(level: string)
    ensures PermissionLevel(LadderGrant(level)) == (if level in LEVELS then level else "none")
  {
  }

  /** Reading the level of a ladder grant and setting it again gives back the same grant. */
  lemma LadderRoundTrip(g: Grant)
    requires IsLadder(g)
    ensures LadderGrant(PermissionLevel(g)) == g
  {
  }

  /** A grant row as an object whose flags the setter assigns in place. */
  class PermissionRow {
    var canView: bool
    var canEdit: bool
    var canCreate: bool
    var canDelete: bool

    constructor (g: Grant)
      ensures Flags() == g
    {
      canView, canEdit, canCreate, canDelete := g.canView, g.canEdit, g.canCreate, g.canDelete;
    }

    function Flags(): Grant
      reads this
    {
      Grant(canView, canEdit, canCreate, canDelete)
    }

    /** The `permission_level` property getter. */
    function Level(): (level: string)
      reads this
      ensures level == PermissionLevel(Flags())
    {
      if canDelete then "delete"
      else if canCreate then "create"
      else if canEdit then "edit"
      else if canView then "view"
      else "none"
    }

    /** The `permission_level` property setter. */
    method SetLevel(level: string)
      modifies this
      ensures Flags() == LadderGrant(level)
      ensures Level() == (if level in LEVELS then level else "none")
    {
      canView := level in ["view", "edit", "create", "delete"];
      canEdit := level in ["edit", "create", "delete"];
      canCreate := level in ["create", "delete"];
      canDelete := level == "delete";
      LevelRoundTrip(level);
    }
  }

  /** Position of a flag label in `UserPagePermission.__str__`. */
  function FlagRank(name: string): int {
    if name == "View" then 0
    else if name == "Edit" then 1
    else if name == "Create" then 2
    else if name == "Delete" then 3
    else 4
  }

  /** The labels of the set flags, in the order View, Edit, Create, Delete. */
  function FlagNames(g: Grant): (r: seq<string>)
    ensures "View" in r <==> g.canView
    ensures "Edit" in r <==> g.canEdit
    ensures "Create" in r <==> g.canCreate
    ensures "Delete" in r <==> g.canDelete
    ensures forall i, j | 0 <= i < j < |r| :: FlagRank(r[i]) < FlagRank(r[j])
  {
    LabelFacts();
    (if g.canView then ["View"] else []) +
    (if g.canEdit then ["Edit"] else []) +
    (if g.canCreate then ["Create"] else []) +
    (if g.canDelete then ["Delete"] else [])
  }

  /** The four labels differ, and their ranks follow the declaration order. */
  lemma LabelFacts()
    ensures "View" != "Edit" && "View" != "Create" && "View" != "Delete"
    ensures "Edit" != "Create" && "Edit" != "Delete" && "Create" != "Delete"
    ensures FlagRank("View") == 0 && FlagRank("Edit") == 1 && FlagRank("Create") == 2 && FlagRank("Delete") == 3
  {
  }

  function JoinComma(parts: seq<string>): string {
    if |parts| == 0 then ""
    else if |parts| == 1 then parts[0]
    else parts[0] + ", " + JoinComma(parts[1..])
  }

  /**
   * `UserPagePermission.__str__`: the email, the page name, and in
   * parentheses the labels of the set flags (in the order View, Edit,
   * Create, Delete, as `FlagNames` states) joined by ", ".
   */
  function GrantDescription(email: string, pageName: string, g: Grant): (r: string)
    ensures |r| > |email| && r[..|email|] == email
    ensures r == email + " - " + pageName + " (" + JoinComma(FlagNames(g)) + ")"
    ensures g == NO_GRANT ==> r == email + " - " + pageName + " ()"
  {
    email + " - " + pageName + " (" + JoinComma(FlagNames(g)) + ")"
  }

  /** The `Comment.PAGE_CHOICES` keys, in declaration order. */
  const PAGE_CHOICES: seq<string> := [
    "products_list", "marketing_list", "order_list", "media_plans", "offer_pricing_skus",
    "clients", "suppliers", "customer_support", "sales_reports", "finance_accounting"]

  datatype Comment = Comment(
    id: CommentId,
    author: UserId,
    pageName: string,
    content: string,
    isDeleted: bool,
    modifiedBy: Option<UserId>)

  datatype Action = Create | Edit | Delete

  datatype HistoryEntry = HistoryEntry(
    commentId: CommentId,
    actor: UserId,
    action: Action,
    oldContent: Option<string>,
    newContent: Option<string>)

  /** The validity window of an emailed code, in seconds. */
  const OTP_WINDOW := 600

  /** Python truthiness of an optional text field. */
  predicate Present(s: Option<string>) {
    s.Some? && s.value != ""
  }

  /**
   * `User.verify_otp` as a decision: a code and a creation time are stored,
   * at most 600 seconds have passed, and the given code equals the stored one.
   */
  predicate OtpAccepts(u: User, given: string, now: int) {
    Present(u.otpCode) && u.otpCreatedAt.Some?
    && now - u.otpCreatedAt.value <= OTP_WINDOW
    && u.otpCode.value == given
  }

  /** A code matching the stored one is accepted up to and including 600 seconds, and not after. */
  lemma OtpWindowEdge(u: User, t: int)
    requires Present(u.otpCode) && u.otpCreatedAt == Some(t)
    ensures OtpAccepts(u, u.otpCode.value, t + OTP_WINDOW)
    ensures !OtpAccepts(u, u.otpCode.value, t + OTP_WINDOW + 1)
  {
  }

  /** Whatever is presented, a user without a stored code or creation time is refused. */
  lemma OtpNeedsStoredCode(u: User, given: string, now: int)
    requires !Present(u.otpCode) || u.otpCreatedAt.None?
    ensures !OtpAccepts(u, given, now)
  {
  }
}
