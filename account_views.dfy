/**
 * The views of the accounts application that read or change the grant
 * table, the user table, comments and the password-reset state, and the
 * two login endpoints.
 */
module AccountViews {
  import opened Wrappers
  import opened Text
  import opened Js
  import opened Models
  import opened Store
  import opened Permissions
  import opened Http
  import opened Serializers

  // ---------------------------------------------------------------------
  // Grant table

  /**
   * `update_user_permissions`: after validation, a superadmin target is
   * refused with a "message" body and nothing changes; otherwise the row
   * for (user, page) is created or overwritten with the requested flags.
   */
  method UpdateUserPermissions(db: Backend, req: BulkRequest) returns (r: Outcome<Grant>)
    requires db.Valid()
    modifies db
    ensures db.Valid()
    ensures var v := ValidateBulkPermission(req, old(db.users).Keys, PageIds(old(db.pages)));
      match v
      case Err(e) => r == Err(e) && db.Snapshot() == old(db.Snapshot())
      case Ok(d) =>
        if IsSuperadmin(old(db.users)[d.userId]) then
          r == Err(Refusal(BAD_REQUEST, "message", "Super admin permissions cannot be modified"))
          && db.Snapshot() == old(db.Snapshot())
        else
          r == Ok(d.grant)
          && db.Snapshot() == old(db.Snapshot()).(grants := old(db.grants)[(d.userId, d.pageId) := d.grant])
  {
    var v := ValidateBulkPermission(req, db.users.Keys, PageIds(db.pages));
    if v.Err? {
      return Err(v.error);
    }
    var d := v.value;
    if db.users[d.userId].role == SUPERADMIN_ROLE {
      return Err(Refusal(BAD_REQUEST, "message", "Super admin permissions cannot be modified"));
    }
    // get_or_create with the flags as defaults, or overwrite the existing row: either way the row ends equal to them.
    db.grants := db.grants[(d.userId, d.pageId) := d.grant];
    return Ok(d.grant);
  }

  /** An upsert leaves every other (user, page) row as it was, and is the only row it writes. */
  lemma UpsertTouchesOneRow(grants: GrantTable, key: (UserId, PageId), g: Grant)
    ensures forall k | k in grants && k != key :: k in grants[key := g] && grants[key := g][k] == grants[k]
    ensures grants[key := g].Keys == grants.Keys + {key}
  {
  }

  const USER_NOT_FOUND := Refusal(NOT_FOUND, "error", "User not found")
  const CANNOT_DELETE_SUPERADMIN := Refusal(BAD_REQUEST, "error", "Cannot delete super admin user")
  const USER_DELETED := "User and related data deleted successfully"

  /**
   * `delete_user`: an unknown id is a 404, a superadmin is never deleted,
   * anyone else is deleted with their rows, comments and history.
   */
  method DeleteUser(db: Backend, uid: int) returns (r: Outcome<string>)
    requires db.Valid()
    modifies db
    ensures db.Valid()
    ensures (uid < 0 || uid !in old(db.users)) ==> r == Err(USER_NOT_FOUND) && db.Snapshot() == old(db.Snapshot())
    ensures uid >= 0 && uid in old(db.users) && IsSuperadmin(old(db.users)[uid])
            ==> r == Err(CANNOT_DELETE_SUPERADMIN) && db.Snapshot() == old(db.Snapshot())
    ensures uid >= 0 && uid in old(db.users) && !IsSuperadmin(old(db.users)[uid])
            ==> r == Ok(USER_DELETED) && db.Snapshot() == DeleteCascade(old(db.Snapshot()), uid)
  {
    if uid < 0 || uid !in db.users {
      return Err(USER_NOT_FOUND);
    }
    if db.users[uid].role == SUPERADMIN_ROLE {
      return Err(CANNOT_DELETE_SUPERADMIN);
    }
    db.DeleteUserCascade(uid);
    return Ok(USER_DELETED);
  }

  /**
   * `UserViewSet.destroy`: the same rules, but an unknown id is answered by
   * `get_object` with the framework's 404.
   */
  method Destroy(db: Backend, uid: int) returns (r: Outcome<string>)
    requires db.Valid()
    modifies db
    ensures db.Valid()
    ensures (uid < 0 || uid !in old(db.users)) ==> r == Err(NOT_FOUND_DETAIL) && db.Snapshot() == old(db.Snapshot())
    ensures uid >= 0 && uid in old(db.users) && IsSuperadmin(old(db.users)[uid])
            ==> r == Err(CANNOT_DELETE_SUPERADMIN) && db.Snapshot() == old(db.Snapshot())
    ensures uid >= 0 && uid in old(db.users) && !IsSuperadmin(old(db.users)[uid])
            ==> r == Ok(USER_DELETED) && db.Snapshot() == DeleteCascade(old(db.Snapshot()), uid)
  {
    if uid < 0 || uid !in db.users {
      return Err(NOT_FOUND_DETAIL);
    }
    if db.users[uid].role == SUPERADMIN_ROLE {
      return Err(CANNOT_DELETE_SUPERADMIN);
    }
    db.DeleteUserCascade(uid);
    return Ok(USER_DELETED);
  }

  /** A deletion removes exactly the victim's rows and leaves every other user's rows untouched. */
  lemma DeleteSparesOthers(t: Tables, uid: UserId)
    ensures var r := DeleteCascade(t, uid);
      (forall k | k in t.grants :: (k in r.grants <==> k.0 != uid))
      && (forall k | k in r.grants :: r.grants[k] == t.grants[k])
      && (forall c | c in t.comments :: (c in r.comments <==> t.comments[c].author != uid))
      && (forall c | c in r.comments :: r.comments[c].content == t.comments[c].content
                                        && r.comments[c].isDeleted == t.comments[c].isDeleted)
  {
  }

  // ---------------------------------------------------------------------
  // Accessible pages and per-user grants

  /** One element of the `user_accessible_pages` list. */
  datatype PageEntry = PageEntry(id: PageId, name: string, url: string, permissions: Grant)

  function EntryOf(p: Page, g: Grant): PageEntry {
    PageEntry(p.id, p.name, p.url, g)
  }

  /** Every page with all four flags, in page order. */
  function AllEntries(ps: seq<Page>): (r: seq<PageEntry>)
    ensures |r| == |ps|
    ensures forall i | 0 <= i < |ps| :: r[i] == EntryOf(ps[i], FULL_GRANT)
  {
    if ps == [] then [] else AllEntries(ps[..|ps| - 1]) + [EntryOf(ps[|ps| - 1], FULL_GRANT)]
  }

  /** One entry per page the user has a row for, carrying that row's flags, in page order. */
  function GrantedEntries(ps: seq<Page>, grants: GrantTable, uid: UserId): (r: seq<PageEntry>)
    ensures |r| <= |ps|
    ensures forall e :: e in r <==> exists p :: p in ps && (uid, p.id) in grants && e == EntryOf(p, grants[(uid, p.id)])
  {
    if ps == [] then []
    else
      var p := ps[|ps| - 1];
      var rest := GrantedEntries(ps[..|ps| - 1], grants, uid);
      assert forall q :: q in ps <==> q in ps[..|ps| - 1] || q == p;
      if (uid, p.id) in grants then rest + [EntryOf(p, grants[(uid, p.id)])] else rest
  }

  /**
   * What `user_accessible_pages` answers to `u`. Both queries come back in
   * page-name order: `Page.Meta.ordering`, and for the permission rows
   * `ordering = ['user', 'page']` with the user fixed, which orders by the
   * page's own ordering.
   */
  function AccessiblePages(t: Tables, u: User): seq<PageEntry> {
    if u.role == SUPERADMIN_ROLE then AllEntries(SortByName(t.pages))
    else GrantedEntries(SortByName(t.pages), t.grants, u.id)
  }

  /** The entries listed by page name. */
  predicate EntriesByName(r: seq<PageEntry>) {
    forall i, j | 0 <= i < j < |r| :: LexLe(r[i].name, r[j].name)
  }

  lemma {:induction false} AllEntriesAppend(a: seq<Page>, b: seq<Page>)
    ensures AllEntries(a + b) == AllEntries(a) + AllEntries(b)
  {
    assert forall i | 0 <= i < |a + b| :: AllEntries(a + b)[i] == (AllEntries(a) + AllEntries(b))[i];
  }

  lemma {:induction false} GrantedEntriesAppend(a: seq<Page>, b: seq<Page>, grants: GrantTable, uid: UserId)
    ensures GrantedEntries(a + b, grants, uid) == GrantedEntries(a, grants, uid) + GrantedEntries(b, grants, uid)
  {
    if b == [] {
      assert a + b == a;
    } else {
      assert (a + b)[..|a + b| - 1] == a + b[..|b| - 1];
      GrantedEntriesAppend(a, b[..|b| - 1], grants, uid);
    }
  }

  /** `b` is `a` with its first page moved to position `k`. */
  /** Taking the middle part out of a sequence takes its elements out of the multiset. */
  lemma MultisetMiddle<T>(x: seq<T>, y: seq<T>, z: seq<T>)
    ensures multiset(x + y + z) == multiset(x + z) + multiset(y)
  {
    assert multiset(x + y + z) == multiset(x) + multiset(y) + multiset(z);
    assert multiset(x + z) == multiset(x) + multiset(z);
  }

  /** Adding the same element to two multisets keeps them apart or equal. */
  lemma MultisetCancel<T>(x: multiset<T>, y: multiset<T>, m: T)
    requires x + multiset{m} == y + multiset{m}
    ensures x == y
  {
    assert x == x + multiset{m} - multiset{m};
    assert y == y + multiset{m} - multiset{m};
  }

  /** Where the first element of `a` sits in its permutation `b`. */
  lemma MovedFirst<T>(a: seq<T>, b: seq<T>) returns (k: nat)
    requires a != [] && multiset(a) == multiset(b)
    ensures k < |b| && b[k] == a[0]
    ensures b == b[..k] + [a[0]] + b[k + 1..]
    ensures multiset(a[1..]) == multiset(b[..k] + b[k + 1..])
  {
    assert a == [] + [a[0]] + a[1..];
    assert a[0] in multiset(b);
    k :| 0 <= k < |b| && b[k] == a[0];
    assert b == b[..k] + [a[0]] + b[k + 1..];
    MultisetMiddle([], [a[0]], a[1..]);
    MultisetMiddle(b[..k], [a[0]], b[k + 1..]);
    MultisetCancel(multiset(a[1..]), multiset(b[..k] + b[k + 1..]), a[0]);
  }

  /** Listing a permutation of the pages gives a permutation of the entries. */
  lemma {:induction false} AllEntriesPermutation(a: seq<Page>, b: seq<Page>)
    requires multiset(a) == multiset(b)
    ensures multiset(AllEntries(a)) == multiset(AllEntries(b))
    decreases |a|
  {
    if a == [] {
      assert |multiset(b)| == 0;
    } else {
      var k := MovedFirst(a, b);
      AllEntriesPermutation(a[1..], b[..k] + b[k + 1..]);
      AllEntriesFirst(a);
      AllEntriesMiddle(b[..k], a[0], b[k + 1..]);
    }
  }

  lemma AllEntriesFirst(a: seq<Page>)
    requires a != []
    ensures multiset(AllEntries(a)) == multiset(AllEntries(a[1..])) + multiset{EntryOf(a[0], FULL_GRANT)}
  {
    var y, rest := [a[0]], a[1..];
    assert a == y + rest;
    AllEntriesAppend(y, rest);
    var ey, er := AllEntries(y), AllEntries(rest);
    assert ey == [EntryOf(a[0], FULL_GRANT)];
    assert multiset(ey + er) == multiset(ey) + multiset(er);
  }

  lemma AllEntriesMiddle(x: seq<Page>, m: Page, z: seq<Page>)
    ensures multiset(AllEntries(x + [m] + z)) == multiset(AllEntries(x + z)) + multiset{EntryOf(m, FULL_GRANT)}
  {
    AllEntriesAppend(x + [m], z);
    AllEntriesAppend(x, [m]);
    AllEntriesAppend(x, z);
    MultisetMiddle(AllEntries(x), AllEntries([m]), AllEntries(z));
    assert AllEntries([m]) == [EntryOf(m, FULL_GRANT)];
  }

  /** Listing a permutation of the pages gives a permutation of the granted entries. */
  lemma {:induction false} GrantedEntriesPermutation(a: seq<Page>, b: seq<Page>, grants: GrantTable, uid: UserId)
    requires multiset(a) == multiset(b)
    ensures multiset(GrantedEntries(a, grants, uid)) == multiset(GrantedEntries(b, grants, uid))
    decreases |a|
  {
    if a == [] {
      assert |multiset(b)| == 0;
    } else {
      var k := MovedFirst(a, b);
      var x, z := b[..k], b[k + 1..];
      GrantedEntriesPermutation(a[1..], x + z, grants, uid);
      assert a == [a[0]] + a[1..];
      GrantedEntriesAppend([a[0]], a[1..], grants, uid);
      GrantedEntriesAppend(x + [a[0]], z, grants, uid);
      GrantedEntriesAppend(x, [a[0]], grants, uid);
      GrantedEntriesAppend(x, z, grants, uid);
      MultisetMiddle(GrantedEntries(x, grants, uid), GrantedEntries([a[0]], grants, uid), GrantedEntries(z, grants, uid));
    }
  }

  /** Over pages in name order, the granted entries are in name order too. */
  lemma {:induction false} GrantedEntriesSorted(ps: seq<Page>, grants: GrantTable, uid: UserId)
    requires SortedByName(ps)
    ensures EntriesByName(GrantedEntries(ps, grants, uid))
  {
    if ps != [] {
      var init := ps[..|ps| - 1];
      var p := ps[|ps| - 1];
      assert SortedByName(init) by {
        forall i, j | 0 <= i < j < |init| ensures LexLe(init[i].name, init[j].name) {
          assert init[i] == ps[i] && init[j] == ps[j];
        }
      }
      GrantedEntriesSorted(init, grants, uid);
      var rest := GrantedEntries(init, grants, uid);
      forall e | e in rest ensures LexLe(e.name, p.name) {
        var q :| q in init && (uid, q.id) in grants && e == EntryOf(q, grants[(uid, q.id)]);
        var k :| 0 <= k < |init| && init[k] == q;
        assert ps[k] == q;
      }
      var r := GrantedEntries(ps, grants, uid);
      if (uid, p.id) in grants {
        forall i, j | 0 <= i < j < |r| ensures LexLe(r[i].name, r[j].name) {
          assert r[i] == rest[i] && rest[i] in rest;
          if j < |rest| {
            assert r[j] == rest[j];
          }
        }
      }
    }
  }

  /**
   * The accessible pages come in page-name order, and they are the entries
   * a walk over the table in storage order would give, each as often.
   */
  lemma AccessiblePagesByName(t: Tables, u: User)
    ensures EntriesByName(AccessiblePages(t, u))
    ensures multiset(AccessiblePages(t, u)) == multiset(
      if u.role == SUPERADMIN_ROLE then AllEntries(t.pages) else GrantedEntries(t.pages, t.grants, u.id))
  {
    SortByNameOrders(t.pages);
    if u.role == SUPERADMIN_ROLE {
      AllEntriesPermutation(SortByName(t.pages), t.pages);
    } else {
      GrantedEntriesSorted(SortByName(t.pages), t.grants, u.id);
      GrantedEntriesPermutation(SortByName(t.pages), t.pages, t.grants, u.id);
    }
  }

  /** `user_accessible_pages`: a read-only walk over the pages, building the list. */
  method UserAccessiblePages(db: Backend, u: User) returns (data: seq<PageEntry>)
    ensures data == AccessiblePages(db.Snapshot(), u)
  {
    var pages := SortByName(db.pages);
    data := [];
    var i := 0;
    if u.role == SUPERADMIN_ROLE {
      while i < |pages|
        invariant 0 <= i <= |pages|
        invariant data == AllEntries(pages[..i])
      {
        data := data + [EntryOf(pages[i], FULL_GRANT)];
        assert pages[..i + 1][..i] == pages[..i];
        i := i + 1;
      }
      assert pages[..i] == pages;
      return;
    }
    while i < |pages|
      invariant 0 <= i <= |pages|
      invariant data == GrantedEntries(pages[..i], db.grants, u.id)
    {
      var p := pages[i];
      if (u.id, p.id) in db.grants {
        data := data + [EntryOf(p, db.grants[(u.id, p.id)])];
      }
      assert pages[..i + 1][..i] == pages[..i];
      i := i + 1;
    }
    assert pages[..i] == pages;
  }

  ghost predicate DistinctEntryIds(r: seq<PageEntry>) {
    forall i, j | 0 <= i < j < |r| :: r[i].id != r[j].id
  }

  /** Over pages with distinct ids, no two granted entries share a page id. */
  lemma {:induction false} GrantedEntriesDistinct(ps: seq<Page>, grants: GrantTable, uid: UserId)
    requires DistinctPages(ps)
    ensures DistinctEntryIds(GrantedEntries(ps, grants, uid))
  {
    if ps != [] {
      var init := ps[..|ps| - 1];
      var p := ps[|ps| - 1];
      assert DistinctPages(init);
      GrantedEntriesDistinct(init, grants, uid);
      var rest := GrantedEntries(init, grants, uid);
      forall e | e in rest ensures e.id != p.id {
        var q :| q in init && (uid, q.id) in grants && e == EntryOf(q, grants[(uid, q.id)]);
        var k :| 0 <= k < |init| && init[k] == q;
        assert ps[k] == q;
      }
      var r := GrantedEntries(ps, grants, uid);
      if (uid, p.id) in grants {
        assert r == rest + [EntryOf(p, grants[(uid, p.id)])];
        forall i, j | 0 <= i < j < |r| ensures r[i].id != r[j].id {
          if j == |r| - 1 {
            assert r[i] == rest[i] && rest[i] in rest;
          } else {
            assert r[i] == rest[i] && r[j] == rest[j];
          }
        }
      } else {
        assert r == rest;
      }
    }
  }

  /**
   * For a user whose role is not superadmin, the accessible pages are
   * exactly one entry per permission row, with the row's flags; a
   * superadmin gets every page with every flag.
   */
  lemma AccessibleOnePerRow(t: Tables, u: User)
    requires Consistent(t)
    ensures u.role == SUPERADMIN_ROLE ==>
      (|AccessiblePages(t, u)| == |t.pages| && forall e | e in AccessiblePages(t, u) :: e.permissions == FULL_GRANT)
    ensures u.role != SUPERADMIN_ROLE ==>
      var r := AccessiblePages(t, u);
      (set e | e in r :: e.id) == (set k | k in t.grants && k.0 == u.id :: k.1)
      && DistinctEntryIds(r)
      && (forall e | e in r :: (u.id, e.id) in t.grants && e.permissions == t.grants[(u.id, e.id)])
  {
    if u.role != SUPERADMIN_ROLE {
      GrantedOnePerRow(t, u.id);
    } else {
      var sorted := SortByName(t.pages);
      SortByNameOrders(t.pages);
      assert |multiset(sorted)| == |sorted|;
    }
  }

  lemma GrantedOnePerRow(t: Tables, uid: UserId)
    requires Consistent(t)
    ensures var r := GrantedEntries(SortByName(t.pages), t.grants, uid);
      (set e | e in r :: e.id) == (set k | k in t.grants && k.0 == uid :: k.1)
      && DistinctEntryIds(r)
      && (forall e | e in r :: (uid, e.id) in t.grants && e.permissions == t.grants[(uid, e.id)])
  {
    var sorted := SortByName(t.pages);
    SortByNameOrders(t.pages);
    SortByNameDistinct(t.pages);
    GrantedEntriesDistinct(sorted, t.grants, uid);
    GrantedCoversRows(sorted, t.pages, t.grants, uid);
  }

  /** Every row of the user whose page is listed gives an entry. */
  lemma GrantedCoversRows(sorted: seq<Page>, pages: seq<Page>, grants: GrantTable, uid: UserId)
    requires multiset(sorted) == multiset(pages)
    requires forall k | k in grants :: k.1 in PageIds(pages)
    ensures var r := GrantedEntries(sorted, grants, uid);
      forall k | k in grants && k.0 == uid :: k.1 in (set e | e in r :: e.id)
  {
    var r := GrantedEntries(sorted, grants, uid);
    forall k | k in grants && k.0 == uid ensures k.1 in (set e | e in r :: e.id) {
      assert k.1 in PageIds(pages);
      var p :| p in pages && p.id == k.1;
      assert p in multiset(sorted);
      assert EntryOf(p, grants[(uid, p.id)]) in r;
    }
  }

  /** The rows of one user, keyed by page id. */
  function UserGrants(grants: GrantTable, uid: UserId): (m: map<PageId, Grant>)
    ensures forall p :: p in m <==> (uid, p) in grants
    ensures forall p | p in m :: m[p] == grants[(uid, p)]
  {
    map k | k in grants && k.0 == uid :: k.1 := grants[k]
  }

  /** The rows of one user whose page is among `ps`, keyed by page id. */
  function GrantsOnPages(ps: seq<Page>, grants: GrantTable, uid: UserId): (m: map<PageId, Grant>)
    ensures forall p :: p in m <==> (uid, p) in grants && p in PageIds(ps)
    ensures forall p | p in m :: m[p] == grants[(uid, p)]
  {
    if ps == [] then map[]
    else
      var p := ps[|ps| - 1];
      var rest := GrantsOnPages(ps[..|ps| - 1], grants, uid);
      assert PageIds(ps) == PageIds(ps[..|ps| - 1]) + {p.id} by {
        assert forall q :: q in ps <==> q in ps[..|ps| - 1] || q == p;
      }
      if (uid, p.id) in grants then rest[p.id := grants[(uid, p.id)]] else rest
  }

  /**
   * `get_user_permissions`: an unknown user is a 404; otherwise every row of
   * the user, keyed by page id, is returned.
   */
  method GetUserPermissions(db: Backend, uid: int) returns (r: Outcome<map<PageId, Grant>>)
    requires db.Valid()
    ensures (uid < 0 || uid !in db.users) ==> r == Err(USER_NOT_FOUND)
    ensures uid >= 0 && uid in db.users ==> r == Ok(UserGrants(db.grants, uid))
  {
    if uid < 0 || uid !in db.users {
      return Err(USER_NOT_FOUND);
    }
    var data := CollectGrants(db.pages, db.grants, uid);
    GrantsOnEveryPage(db.Snapshot(), uid);
    return Ok(data);
  }

  /** The loop of `get_user_permissions`: one row per page, keyed by page id. */
  method CollectGrants(pages: seq<Page>, grants: GrantTable, uid: UserId) returns (data: map<PageId, Grant>)
    ensures data == GrantsOnPages(pages, grants, uid)
  {
    data := map[];
    var i := 0;
    while i < |pages|
      invariant 0 <= i <= |pages|
      invariant data == GrantsOnPages(pages[..i], grants, uid)
    {
      var p := pages[i];
      if (uid, p.id) in grants {
        data := data[p.id := grants[(uid, p.id)]];
      }
      assert pages[..i + 1][..i] == pages[..i];
      i := i + 1;
    }
    assert pages[..i] == pages;
  }

  /** Every row points at an existing page, so the rows on all pages are all the user's rows. */
  lemma GrantsOnEveryPage(t: Tables, uid: UserId)
    requires Consistent(t)
    ensures GrantsOnPages(t.pages, t.grants, uid) == UserGrants(t.grants, uid)
  {
    var a := GrantsOnPages(t.pages, t.grants, uid);
    var b := UserGrants(t.grants, uid);
    assert forall p :: p in a <==> p in b;
  }

  // ---------------------------------------------------------------------
  // Comments

  /** A comment `get_object_or_404(Comment, id=..., is_deleted=False)` finds. */
  predicate LiveComment(comments: map<CommentId, Comment>, cid: int) {
    cid >= 0 && cid in comments && !comments[cid].isDeleted
  }

  /** The acting user is a row of the user table. */
  ghost predicate IsRequestUser(t: Tables, actor: User) {
    actor.id in t.users && t.users[actor.id] == actor
  }

  const EDIT_FORBIDDEN := Refusal(FORBIDDEN, "error", "You do not have permission to edit comments on this page")
  const DELETE_FORBIDDEN := Refusal(FORBIDDEN, "error", "You do not have permission to delete comments on this page")
  const COMMENT_DELETED := "Comment deleted successfully"

  /**
   * `comment_detail` PUT: a missing or deleted comment is a 404; without
   * the flat edit permission on the comment's page it is a 403; otherwise
   * the validated patch is saved with the actor as `modified_by`.
   */
  method CommentUpdate(db: Backend, actor: User, cid: int, input: CommentInput) returns (r: Outcome<Comment>)
    requires db.Valid() && IsRequestUser(db.Snapshot(), actor)
    modifies db
    ensures db.Valid()
    ensures !LiveComment(old(db.comments), cid) ==> r == Err(NOT_FOUND_DETAIL) && db.Snapshot() == old(db.Snapshot())
    ensures LiveComment(old(db.comments), cid) ==>
      var c := old(db.comments)[cid];
      if !UserHasPermission(actor, old(db.pages), old(db.grants), c.pageName, "edit") then
        r == Err(EDIT_FORBIDDEN) && db.Snapshot() == old(db.Snapshot())
      else match ApplyCommentPatch(c, input, actor.id)
        case Err(e) => r == Err(e) && db.Snapshot() == old(db.Snapshot())
        case Ok(c') => r == Ok(c') && db.Snapshot() == old(db.Snapshot()).(comments := old(db.comments)[cid := c'])
  {
    if !LiveComment(db.comments, cid) {
      return Err(NOT_FOUND_DETAIL);
    }
    var c := db.comments[cid];
    if !UserHasPermission(actor, db.pages, db.grants, c.pageName, "edit") {
      return Err(EDIT_FORBIDDEN);
    }
    var patched := ApplyCommentPatch(c, input, actor.id);
    if patched.Err? {
      return Err(patched.error);
    }
    db.SaveComment(patched.value);
    return Ok(patched.value);
  }

  /** The history row a soft delete of `c` by `actor` writes. */
  function DeleteEntry(c: Comment, actor: UserId): HistoryEntry {
    HistoryEntry(c.id, actor, Action.Delete, Some(c.content), None)
  }

  /**
   * `comment_detail` DELETE: a missing or deleted comment is a 404; without
   * the flat delete permission it is a 403; otherwise the comment is marked
   * deleted, its content kept, and one DELETE history row holding the old
   * content is appended.
   */
  method CommentDelete(db: Backend, actor: User, cid: int) returns (r: Outcome<string>)
    requires db.Valid() && IsRequestUser(db.Snapshot(), actor)
    modifies db
    ensures db.Valid()
    ensures !LiveComment(old(db.comments), cid) ==> r == Err(NOT_FOUND_DETAIL) && db.Snapshot() == old(db.Snapshot())
    ensures LiveComment(old(db.comments), cid) ==>
      var c := old(db.comments)[cid];
      if !UserHasPermission(actor, old(db.pages), old(db.grants), c.pageName, "delete") then
        r == Err(DELETE_FORBIDDEN) && db.Snapshot() == old(db.Snapshot())
      else
        r == Ok(COMMENT_DELETED)
        && db.Snapshot() == old(db.Snapshot()).(comments := old(db.comments)[cid := c.(isDeleted := true)],
                                                history := old(db.history) + [DeleteEntry(c, actor.id)])
        && !LiveComment(db.comments, cid)
  {
    if !LiveComment(db.comments, cid) {
      return Err(NOT_FOUND_DETAIL);
    }
    var c := db.comments[cid];
    if !UserHasPermission(actor, db.pages, db.grants, c.pageName, "delete") {
      return Err(DELETE_FORBIDDEN);
    }
    db.SaveComment(c.(isDeleted := true));
    db.AppendHistory(DeleteEntry(c, actor.id));
    return Ok(COMMENT_DELETED);
  }

  /** The history rows of one comment, newest first (`ordering = ['-timestamp']`). */
  function NewestFirst(hs: seq<HistoryEntry>, cid: CommentId): (r: seq<HistoryEntry>)
    ensures forall h :: h in r <==> h in hs && h.commentId == cid
  {
    if hs == [] then [] else NewestFirst(hs[1..], cid) + (if hs[0].commentId == cid then [hs[0]] else [])
  }

  /** A row appended for the comment becomes the first row of its history. */
  lemma {:induction false} NewestFirstAppend(hs: seq<HistoryEntry>, h: HistoryEntry)
    ensures NewestFirst(hs + [h], h.commentId) == [h] + NewestFirst(hs, h.commentId)
  {
    if hs == [] {
      assert [h][1..] == [];
    } else {
      assert (hs + [h])[1..] == hs[1..] + [h];
      NewestFirstAppend(hs[1..], h);
    }
  }

  /** A row appended for another comment leaves this comment's history as it was. */
  lemma {:induction false} NewestFirstAppendOther(hs: seq<HistoryEntry>, h: HistoryEntry, cid: CommentId)
    requires h.commentId != cid
    ensures NewestFirst(hs + [h], cid) == NewestFirst(hs, cid)
  {
    if hs == [] {
      assert [h][1..] == [];
    } else {
      assert (hs + [h])[1..] == hs[1..] + [h];
      NewestFirstAppendOther(hs[1..], h, cid);
    }
  }

  const HISTORY_FORBIDDEN := Refusal(FORBIDDEN, "error", "You do not have permission to view this comment's history")

  /**
   * `comment_history`: any comment, deleted or not, may be asked for; the
   * caller needs the flat view permission on its page or the superadmin
   * role.
   */
  function CommentHistory(t: Tables, actor: User, cid: int): (r: Outcome<seq<HistoryEntry>>)
    ensures (cid < 0 || cid !in t.comments) ==> r == Err(NOT_FOUND_DETAIL)
    ensures r.Err? && cid >= 0 && cid in t.comments ==> r == Err(HISTORY_FORBIDDEN)
    ensures r.Ok? <==> (cid >= 0 && cid in t.comments
      && (UserHasPermission(actor, t.pages, t.grants, t.comments[cid].pageName, "view") || IsSuperadmin(actor)))
    ensures r.Ok? ==> forall h :: h in r.value <==> h in t.history && h.commentId == cid
  {
    if cid < 0 || cid !in t.comments then Err(NOT_FOUND_DETAIL)
    else if !(UserHasPermission(actor, t.pages, t.grants, t.comments[cid].pageName, "view") || IsSuperadmin(actor)) then
      Err(HISTORY_FORBIDDEN)
    else Ok(NewestFirst(t.history, cid))
  }

  /**
   * After a soft delete, the comment's history (for a caller allowed to see
   * it) starts with the DELETE row holding the old content.
   */
  lemma DeleteShowsInHistory(t: Tables, c: Comment, actor: User, viewer: User)
    requires c.id in t.comments && t.comments[c.id] == c
    requires UserHasPermission(viewer, t.pages, t.grants, c.pageName, "view") || IsSuperadmin(viewer)
    ensures var t' := t.(comments := t.comments[c.id := c.(isDeleted := true)],
                         history := t.history + [DeleteEntry(c, actor.id)]);
      CommentHistory(t', viewer, c.id).Ok?
      && CommentHistory(t', viewer, c.id).value[0] == HistoryEntry(c.id, actor.id, Action.Delete, Some(c.content), None)
  {
    NewestFirstAppend(t.history, DeleteEntry(c, actor.id));
  }

  // ---------------------------------------------------------------------
  // Login endpoints

  datatype TokenPair = TokenPair(access: string, refresh: string)

  /** The body of a successful login. */
  datatype LoginData = LoginData(access: string, refresh: string, user: JsObject)

  /** `check_password`: a missing password or an unusable stored one never matches. */
  predicate CheckPassword(u: User, given: Option<string>) {
    u.password.Some? && given == u.password
  }

  const INVALID_CREDENTIALS := Refusal(BAD_REQUEST, "error", "Invalid credentials")
  const ACCESS_DENIED := Refusal(FORBIDDEN, "error", "Access denied")
  const USE_SUPERADMIN_LOGIN := Refusal(FORBIDDEN, "error", "Please use super admin login")

  /**
   * `login_superadmin`. `found` is the row `User.objects.get(email=...)`
   * returned; `tokens` the pair issued for it.
   */
  function LoginSuperadmin(found: Option<User>, password: Option<string>, tokens: TokenPair): (r: Outcome<LoginData>)
    ensures (found.None? || !CheckPassword(found.value, password)) ==> r == Err(INVALID_CREDENTIALS)
    ensures found.Some? && CheckPassword(found.value, password) && !IsSuperadmin(found.value) ==> r == Err(ACCESS_DENIED)
    ensures r.Ok? ==> r.value == LoginData(tokens.access, tokens.refresh, SerializeUser(found.value))
  {
    match found
    case None => Err(INVALID_CREDENTIALS)
    case Some(u) =>
      if !CheckPassword(u, password) then Err(INVALID_CREDENTIALS)
      else if u.role != SUPERADMIN_ROLE then Err(ACCESS_DENIED)
      else Ok(LoginData(tokens.access, tokens.refresh, SerializeUser(u)))
  }

  /** `login_user`: the mirror image for every role but superadmin. */
  function LoginUser(found: Option<User>, password: Option<string>, tokens: TokenPair): (r: Outcome<LoginData>)
    ensures (found.None? || !CheckPassword(found.value, password)) ==> r == Err(INVALID_CREDENTIALS)
    ensures found.Some? && CheckPassword(found.value, password) && IsSuperadmin(found.value) ==> r == Err(USE_SUPERADMIN_LOGIN)
    ensures r.Ok? ==> r.value == LoginData(tokens.access, tokens.refresh, SerializeUser(found.value))
  {
    match found
    case None => Err(INVALID_CREDENTIALS)
    case Some(u) =>
      if !CheckPassword(u, password) then Err(INVALID_CREDENTIALS)
      else if u.role == SUPERADMIN_ROLE then Err(USE_SUPERADMIN_LOGIN)
      else Ok(LoginData(tokens.access, tokens.refresh, SerializeUser(u)))
  }

  /**
   * With the right password exactly one endpoint issues tokens: the
   * superadmin one iff the role is superadmin. With a wrong password or an
   * unknown email both answer 400 "Invalid credentials".
   */
  lemma ExactlyOneEndpointIssues(found: Option<User>, password: Option<string>, t1: TokenPair, t2: TokenPair)
    ensures found.Some? && CheckPassword(found.value, password) ==>
      (LoginSuperadmin(found, password, t1).Ok? <==> IsSuperadmin(found.value))
      && (LoginUser(found, password, t2).Ok? <==> !IsSuperadmin(found.value))
      && (LoginSuperadmin(found, password, t1).Ok? != LoginUser(found, password, t2).Ok?)
    ensures !(found.Some? && CheckPassword(found.value, password)) ==>
      LoginSuperadmin(found, password, t1) == Err(INVALID_CREDENTIALS)
      && LoginUser(found, password, t2) == Err(INVALID_CREDENTIALS)
  {
  }

  // ---------------------------------------------------------------------
  // Password reset through the emailed code (`otp_code`)

  const OTP_TOO_LONG := Refusal(BAD_REQUEST, "otp", "Ensure this field has no more than 6 characters.")
  const INVALID_EMAIL := Refusal(BAD_REQUEST, "email", "Enter a valid email address.")
  /** `User.objects.get` raising outside any handler: the framework answers 500. */
  const UNHANDLED := Refusal(SERVER_ERROR, "", "")
  const NO_SUCH_EMAIL := Refusal(BAD_REQUEST, "email", "User with this email does not exist.")
  const OTP_REFUSED := Refusal(BAD_REQUEST, "error", "Invalid or expired OTP")
  const RESET_REFUSED := Refusal(BAD_REQUEST, "error", "Invalid OTP or OTP not verified")

  /**
   * The part of Django's `EmailValidator` the model keeps: no white space,
   * something before the last '@', and after it "localhost" or a name with
   * a '.' that is neither its first nor its last character.
   */
  predicate PlausibleEmail(s: string) {
    (forall i | 0 <= i < |s| :: !IsSpace(s[i]))
    && exists k | 0 < k < |s| :: s[k] == '@' && '@' !in s[k + 1..] && PlausibleDomain(s[k + 1..])
  }

  predicate PlausibleDomain(d: string) {
    d == "localhost" || exists j | 0 < j < |d| - 1 :: d[j] == '.'
  }

  /** An `EmailField`: trimmed, refused when blank, then refused when not shaped like an address. */
  function CleanEmail(s: string): (r: Outcome<string>)
    ensures r.Ok? <==> !IsBlank(s) && PlausibleEmail(Trim(s))
    ensures r.Ok? ==> r.value == Trim(s)
    ensures r.Err? ==> r.error == (if IsBlank(s) then Blank("email") else INVALID_EMAIL)
  {
    TrimEmptyIffBlank(s);
    if Trim(s) == "" then Err(Blank("email"))
    else if !PlausibleEmail(Trim(s)) then Err(INVALID_EMAIL)
    else Ok(Trim(s))
  }

  /** The `otp` field, a `CharField(max_length=6)`: trimmed, refused when blank, and the length checked after trimming. */
  function CleanOtp(s: string): (r: Outcome<string>)
    ensures r.Ok? <==> !IsBlank(s) && |Trim(s)| <= 6
    ensures r.Ok? ==> r.value == Trim(s)
    ensures r.Err? ==> r.error == (if IsBlank(s) then Blank("otp") else OTP_TOO_LONG)
  {
    TrimEmptyIffBlank(s);
    if Trim(s) == "" then Err(Blank("otp"))
    else if |Trim(s)| > 6 then Err(OTP_TOO_LONG)
    else Ok(Trim(s))
  }

  /** `new_password`: trimmed, and refused when blank. */
  function CleanPassword(s: string): (r: Outcome<string>)
    ensures r.Ok? <==> !IsBlank(s)
    ensures r.Ok? ==> r.value == Trim(s)
    ensures r.Err? ==> r.error == Blank("new_password")
  {
    TrimEmptyIffBlank(s);
    if Trim(s) == "" then Err(Blank("new_password")) else Ok(Trim(s))
  }

  /** A code with a trailing blank is trimmed before its length is checked. */
  lemma OtpTrimmedBeforeLength()
    ensures CleanOtp("123456 ") == Ok("123456")
  {
    assert TrimStart("123456 ") == "123456 ";
    assert TrimEnd("123456 ") == "123456";
    assert !IsBlank("123456 ") by {
      assert !IsSpace("123456 "[0]);
    }
  }

  /** The empty code is refused as blank, a seven-digit one as too long. */
  lemma OtpBlankOrLongRefused()
    ensures CleanOtp("") == Err(Blank("otp"))
    ensures CleanOtp("1234567") == Err(OTP_TOO_LONG)
  {
    assert Trim("1234567") == "1234567";
    assert !IsBlank("1234567") by {
      assert !IsSpace("1234567"[0]);
    }
  }

  /** A leading blank is cut from the email before the lookup. */
  lemma EmailTrimmed()
    ensures CleanEmail(" a@b.com") == Ok("a@b.com")
  {
    PaddedEmailTrims();
    SampleEmailPlausible();
  }

  lemma PaddedEmailTrims()
    ensures Trim(" a@b.com") == "a@b.com" && !IsBlank(" a@b.com")
  {
    var e := "a@b.com";
    assert TrimStart(" a@b.com") == e;
    assert TrimEnd(e) == e;
    assert !IsSpace(" a@b.com"[1]);
  }

  lemma SampleEmailPlausible()
    ensures PlausibleEmail("a@b.com")
  {
    var e := "a@b.com";
    assert e[1] == '@' && e[2..] == "b.com";
    assert '@' !in e[2..];
    assert PlausibleDomain("b.com") by {
      assert "b.com"[1] == '.';
    }
  }

  /** Text without an '@' is not an email address: the serializer answers 400. */
  lemma MalformedEmailRefused()
    ensures CleanEmail("not-an-email") == Err(INVALID_EMAIL)
  {
    var e := "not-an-email";
    assert Trim(e) == e;
    assert !IsBlank(e) by {
      assert !IsSpace(e[0]);
    }
    assert forall k | 0 <= k < |e| :: e[k] != '@';
  }

  /**
   * `password_reset_request_view`: the email is cleaned by the serializer,
   * and one no user has is refused; otherwise the user's code is
   * regenerated and echoed back.
   */
  method PasswordResetRequest(db: Backend, email: string, code: string, now: int) returns (r: Outcome<string>)
    requires db.Valid() && |code| == 6 && AllDigits(code)
    modifies db
    ensures db.Valid()
    ensures CleanEmail(email).Err? ==> r == Err(CleanEmail(email).error) && db.Snapshot() == old(db.Snapshot())
    ensures CleanEmail(email).Ok? && !HasEmail(old(db.Snapshot()), CleanEmail(email).value)
            ==> r == Err(NO_SUCH_EMAIL) && db.Snapshot() == old(db.Snapshot())
    ensures CleanEmail(email).Ok? && HasEmail(old(db.Snapshot()), CleanEmail(email).value) ==>
      var id := UserWithEmail(old(db.Snapshot()), CleanEmail(email).value);
      r == Ok(code)
      && db.Snapshot() == old(db.Snapshot()).(users := old(db.users)[id := old(db.users)[id].(
           otpCode := Some(code), otpCreatedAt := Some(now), otpVerified := false)])
  {
    var cleaned := CleanEmail(email);
    if cleaned.Err? {
      return Err(cleaned.error);
    }
    var found := db.FindUserByEmail(cleaned.value);
    if found.None? {
      return Err(NO_SUCH_EMAIL);
    }
    db.GenerateOtp(found.value, code, now);
    return Ok(code);
  }

  /**
   * `verify_otp_view`: the serializer cleans the email and the code (the
   * first field in error is reported), an unknown email raises, otherwise
   * `verify_otp` decides on the cleaned code.
   */
  method VerifyOtpView(db: Backend, email: string, otp: string, now: int) returns (r: Outcome<string>)
    requires db.Valid()
    modifies db
    ensures db.Valid()
    ensures CleanEmail(email).Err? ==> r == Err(CleanEmail(email).error) && db.Snapshot() == old(db.Snapshot())
    ensures CleanEmail(email).Ok? && CleanOtp(otp).Err? ==> r == Err(CleanOtp(otp).error) && db.Snapshot() == old(db.Snapshot())
    ensures CleanEmail(email).Ok? && CleanOtp(otp).Ok? && !HasEmail(old(db.Snapshot()), CleanEmail(email).value)
            ==> r == Err(UNHANDLED) && db.Snapshot() == old(db.Snapshot())
    ensures CleanEmail(email).Ok? && CleanOtp(otp).Ok? && HasEmail(old(db.Snapshot()), CleanEmail(email).value) ==>
      var id := UserWithEmail(old(db.Snapshot()), CleanEmail(email).value);
      if OtpAccepts(old(db.users)[id], CleanOtp(otp).value, now) then
        r == Ok("OTP verified successfully")
        && db.Snapshot() == old(db.Snapshot()).(users := old(db.users)[id := old(db.users)[id].(otpVerified := true)])
      else r == Err(OTP_REFUSED) && db.Snapshot() == old(db.Snapshot())
  {
    var cleanEmail := CleanEmail(email);
    if cleanEmail.Err? {
      return Err(cleanEmail.error);
    }
    var cleanOtp := CleanOtp(otp);
    if cleanOtp.Err? {
      return Err(cleanOtp.error);
    }
    var found := db.FindUserByEmail(cleanEmail.value);
    if found.None? {
      return Err(UNHANDLED);
    }
    var ok := db.VerifyOtp(found.value, cleanOtp.value, now);
    if ok {
      return Ok("OTP verified successfully");
    }
    return Err(OTP_REFUSED);
  }

  /**
   * `password_reset_confirm_view`: after the three fields are cleaned (the
   * first in error is reported), the password changes only for a user
   * already marked verified whose code is accepted again now; the code and
   * the verified mark are then cleared, so the same request cannot succeed
   * twice.
   */
  method PasswordResetConfirm(db: Backend, email: string, otp: string, newPassword: string, now: int) returns (r: Outcome<string>)
    requires db.Valid()
    modifies db
    ensures db.Valid()
    ensures CleanEmail(email).Err? ==> r == Err(CleanEmail(email).error) && db.Snapshot() == old(db.Snapshot())
    ensures CleanEmail(email).Ok? && CleanOtp(otp).Err? ==> r == Err(CleanOtp(otp).error) && db.Snapshot() == old(db.Snapshot())
    ensures CleanEmail(email).Ok? && CleanOtp(otp).Ok? && IsBlank(newPassword)
            ==> r == Err(Blank("new_password")) && db.Snapshot() == old(db.Snapshot())
    ensures CleanEmail(email).Ok? && CleanOtp(otp).Ok? && !IsBlank(newPassword) && !HasEmail(old(db.Snapshot()), CleanEmail(email).value)
            ==> r == Err(UNHANDLED) && db.Snapshot() == old(db.Snapshot())
    ensures CleanEmail(email).Ok? && CleanOtp(otp).Ok? && !IsBlank(newPassword) && HasEmail(old(db.Snapshot()), CleanEmail(email).value) ==>
      var id := UserWithEmail(old(db.Snapshot()), CleanEmail(email).value);
      var u := old(db.users)[id];
      if u.otpVerified && OtpAccepts(u, CleanOtp(otp).value, now) then
        r == Ok("Password reset successful")
        && db.Snapshot() == old(db.Snapshot()).(users := old(db.users)[id := u.(
             password := Some(Trim(newPassword)), otpCode := None, otpVerified := false)])
      else r == Err(RESET_REFUSED) && db.Snapshot() == old(db.Snapshot())
  {
    var cleanEmail := CleanEmail(email);
    if cleanEmail.Err? {
      return Err(cleanEmail.error);
    }
    var cleanOtp := CleanOtp(otp);
    if cleanOtp.Err? {
      return Err(cleanOtp.error);
    }
    var cleaned := CleanPassword(newPassword);
    if cleaned.Err? {
      return Err(cleaned.error);
    }
    var found := db.FindUserByEmail(cleanEmail.value);
    if found.None? {
      return Err(UNHANDLED);
    }
    var ok := ConfirmReset(db, found.value, cleanOtp.value, cleaned.value, now);
    if !ok {
      return Err(RESET_REFUSED);
    }
    return Ok("Password reset successful");
  }

  /**
   * The checks and the write of a confirmation for a user found by e-mail:
   * the user must already be verified and the code accepted again now; the
   * password is then set and the code and the verified mark cleared.
   */
  method ConfirmReset(db: Backend, id: UserId, otp: string, password: string, now: int) returns (ok: bool)
    requires db.Valid() && id in db.users
    modifies db
    ensures db.Valid()
    ensures ok <==> old(db.users)[id].otpVerified && OtpAccepts(old(db.users)[id], otp, now)
    ensures ok ==> db.Snapshot() == old(db.Snapshot()).(users := old(db.users)[id := old(db.users)[id].(
      password := Some(password), otpCode := None, otpVerified := false)])
    ensures !ok ==> db.Snapshot() == old(db.Snapshot())
  {
    var u := db.users[id];
    if !u.otpVerified {
      return false;
    }
    ok := db.VerifyOtp(id, otp, now);
    if ok {
      db.SaveUser(id, u.(password := Some(password), otpCode := None, otpVerified := false));
    }
  }

  /** Once a reset has gone through, the cleared code refuses every later confirmation. */
  lemma ResetCannotBeReplayed(u: User, password: string, otp: string, now: int)
    ensures !OtpAccepts(u.(password := Some(password), otpCode := None, otpVerified := false), otp, now)
  {
    OtpNeedsStoredCode(u.(password := Some(password), otpCode := None, otpVerified := false), otp, now);
  }

  // ---------------------------------------------------------------------
  // Password reset through the `otp` field

  /**
   * `request_password_reset`: an unknown email is a 404; otherwise the code
   * is stored in `otp` (sending the mail is not modelled).
   */
  method RequestPasswordReset(db: Backend, email: string, code: string) returns (r: Outcome<string>)
    requires db.Valid() && |code| == 6 && AllDigits(code)
    modifies db
    ensures db.Valid()
    ensures !HasEmail(old(db.Snapshot()), email) ==> r == Err(USER_NOT_FOUND) && db.Snapshot() == old(db.Snapshot())
    ensures HasEmail(old(db.Snapshot()), email) ==>
      var id := UserWithEmail(old(db.Snapshot()), email);
      r == Ok("OTP sent successfully")
      && db.Snapshot() == old(db.Snapshot()).(users := old(db.users)[id := old(db.users)[id].(otp := Some(code))])
  {
    var found := db.FindUserByEmail(email);
    if found.None? {
      return Err(USER_NOT_FOUND);
    }
    db.SaveUser(found.value, db.users[found.value].(otp := Some(code)));
    return Ok("OTP sent successfully");
  }

  /** `user.otp != otp` negated, as written: two absent values compare equal. */
  predicate LegacyOtpMatches(stored: Option<string>, given: Option<string>) {
    stored == given
  }

  /** `verify_otp` (the view over the `otp` field). */
  function LegacyVerifyOtp(found: Option<User>, otp: Option<string>): (r: Outcome<string>)
    ensures found.None? ==> r == Err(USER_NOT_FOUND)
    ensures found.Some? ==> (r.Ok? <==> found.value.otp == otp)
  {
    match found
    case None => Err(USER_NOT_FOUND)
    case Some(u) =>
      if !LegacyOtpMatches(u.otp, otp) then Err(Refusal(BAD_REQUEST, "error", "Invalid OTP"))
      else Ok("OTP verified successfully")
  }

  const INVALID_OTP := Refusal(BAD_REQUEST, "error", "Invalid OTP")

  /**
   * `reset_password`, as written: the password is set whenever the stored
   * `otp` equals the given one, including when neither is present.
   * `newPassword` absent makes the password unusable, as `set_password(None)`
   * does.
   */
  method ResetPasswordAsWritten(db: Backend, email: string, otp: Option<string>, newPassword: Option<string>)
    returns (r: Outcome<string>)
    requires db.Valid()
    modifies db
    ensures db.Valid()
    ensures !HasEmail(old(db.Snapshot()), email) ==> r == Err(USER_NOT_FOUND) && db.Snapshot() == old(db.Snapshot())
    ensures HasEmail(old(db.Snapshot()), email) ==>
      var id := UserWithEmail(old(db.Snapshot()), email);
      if LegacyOtpMatches(old(db.users)[id].otp, otp) then
        r == Ok("Password reset successfully")
        && db.Snapshot() == old(db.Snapshot()).(users := old(db.users)[id := old(db.users)[id].(password := newPassword, otp := None)])
      else r == Err(INVALID_OTP) && db.Snapshot() == old(db.Snapshot())
  {
    var found := db.FindUserByEmail(email);
    if found.None? {
      return Err(USER_NOT_FOUND);
    }
    var id := found.value;
    if !LegacyOtpMatches(db.users[id].otp, otp) {
      return Err(INVALID_OTP);
    }
    db.SaveUser(id, db.users[id].(password := newPassword, otp := None));
    return Ok("Password reset successfully");
  }

  /**
   * The flaw in the code as written: for any user with no pending code
   * (never requested, or already used), a request without an `otp` passes
   * the check.
   */
  lemma LegacyResetWithoutCode(u: User)
    requires u.otp.None?
    ensures LegacyOtpMatches(u.otp, None)
  {
  }

  /** The intended check: a code must be pending and the request must carry that same code. */
  predicate PendingOtpMatches(stored: Option<string>, given: Option<string>) {
    stored.Some? && given == stored
  }

  /** No request passes the intended check unless a code is pending. */
  lemma PendingOtpRequired(stored: Option<string>, given: Option<string>)
    ensures PendingOtpMatches(stored, given) ==> stored.Some? && LegacyOtpMatches(stored, given)
    ensures stored.None? ==> !PendingOtpMatches(stored, given)
  {
  }

  /**
   * `reset_password` with the intended check: only a pending code presented
   * back resets the password, and the code is consumed, so the same request
   * cannot be replayed.
   */
  method ResetPassword(db: Backend, email: string, otp: Option<string>, newPassword: Option<string>)
    returns (r: Outcome<string>)
    requires db.Valid()
    modifies db
    ensures db.Valid()
    ensures !HasEmail(old(db.Snapshot()), email) ==> r == Err(USER_NOT_FOUND) && db.Snapshot() == old(db.Snapshot())
    ensures HasEmail(old(db.Snapshot()), email) ==>
      var id := UserWithEmail(old(db.Snapshot()), email);
      if PendingOtpMatches(old(db.users)[id].otp, otp) then
        r == Ok("Password reset successfully")
        && db.Snapshot() == old(db.Snapshot()).(users := old(db.users)[id := old(db.users)[id].(password := newPassword, otp := None)])
        && !PendingOtpMatches(db.users[id].otp, otp)
      else r == Err(INVALID_OTP) && db.Snapshot() == old(db.Snapshot())
  {
    var found := db.FindUserByEmail(email);
    if found.None? {
      return Err(USER_NOT_FOUND);
    }
    var id := found.value;
    if !PendingOtpMatches(db.users[id].otp, otp) {
      return Err(INVALID_OTP);
    }
    db.SaveUser(id, db.users[id].(password := newPassword, otp := None));
    return Ok("Password reset successfully");
  }
}
