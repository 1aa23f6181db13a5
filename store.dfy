/**
 * The database of the accounts application as one object: the user, page,
 * permission, comment and comment-history tables, with the referential
 * integrity the foreign keys guarantee, the cascades a user deletion
 * triggers, and the object methods of `User` that save themselves.
 */
module Store {
  import opened Wrappers
  import opened Text
  import opened Models

  type GrantTable = map<(UserId, PageId), Grant>

  function PageIds(ps: seq<Page>): set<PageId> {
    set p | p in ps :: p.id
  }

  /** `Page.name` is unique, and so is the primary key. */
  ghost predicate DistinctPages(ps: seq<Page>) {
    forall i, j | 0 <= i < j < |ps| :: ps[i].id != ps[j].id && ps[i].name != ps[j].name
  }

  /** A page whose id and name differ from every page of a distinct list can go in front of it. */
  lemma ConsDistinct(p: Page, s: seq<Page>)
    requires DistinctPages(s)
    requires forall x | x in s :: x.id != p.id && x.name != p.name
    ensures DistinctPages([p] + s)
  {
    var r := [p] + s;
    forall i, j | 0 <= i < j < |r| ensures r[i].id != r[j].id && r[i].name != r[j].name {
      assert r[j] == s[j - 1];
      if i > 0 {
        assert r[i] == s[i - 1];
      }
    }
  }

  lemma TailDistinct(s: seq<Page>)
    requires DistinctPages(s) && s != []
    ensures DistinctPages(s[1..])
    ensures forall x | x in s[1..] :: x.id != s[0].id && x.name != s[0].name
  {
    forall i, j | 0 <= i < j < |s[1..]| ensures s[1..][i].id != s[1..][j].id && s[1..][i].name != s[1..][j].name {
      assert s[1..][i] == s[i + 1] && s[1..][j] == s[j + 1];
    }
    forall x | x in s[1..] ensures x.id != s[0].id && x.name != s[0].name {
      var k :| 0 <= k < |s[1..]| && s[1..][k] == x;
      assert s[k + 1] == x;
    }
  }

  lemma {:induction false} InsertByNameDistinct(p: Page, s: seq<Page>)
    requires DistinctPages(s)
    requires forall x | x in s :: x.id != p.id && x.name != p.name
    ensures DistinctPages(InsertByName(p, s))
  {
    if s == [] || LexLe(p.name, s[0].name) {
      ConsDistinct(p, s);
    } else {
      var tail := InsertByName(p, s[1..]);
      TailDistinct(s);
      InsertByNameDistinct(p, s[1..]);
      InsertByNameMultiset(p, s[1..]);
      forall x | x in tail ensures x.id != s[0].id && x.name != s[0].name {
        assert x in multiset(tail);
        if x != p {
          assert x in multiset(s[1..]);
        }
      }
      ConsDistinct(s[0], tail);
    }
  }

  /** Reading the page table in name order keeps ids and names unique. */
  lemma {:induction false} SortByNameDistinct(ps: seq<Page>)
    requires DistinctPages(ps)
    ensures DistinctPages(SortByName(ps))
  {
    if ps != [] {
      var rest := ps[1..];
      assert DistinctPages(rest) by {
        forall i, j | 0 <= i < j < |rest| ensures rest[i].id != rest[j].id && rest[i].name != rest[j].name {
          assert rest[i] == ps[i + 1] && rest[j] == ps[j + 1];
        }
      }
      SortByNameDistinct(rest);
      SortByNameOrders(rest);
      forall x | x in SortByName(rest) ensures x.id != ps[0].id && x.name != ps[0].name {
        assert x in multiset(SortByName(rest));
        var k :| 0 <= k < |rest| && rest[k] == x;
        assert ps[k + 1] == x;
      }
      InsertByNameDistinct(ps[0], SortByName(rest));
    }
  }

  /** `Page.objects.get(name=...)` */
  function FindPageByName(ps: seq<Page>, name: string): (r: Option<Page>)
    ensures r.Some? ==> r.value in ps && r.value.name == name
    ensures r.None? <==> forall p | p in ps :: p.name != name
  {
    if ps == [] then None
    else if ps[0].name == name then Some(ps[0])
    else FindPageByName(ps[1..], name)
  }

  /** `Page.objects.get(id=...)` */
  function FindPageById(ps: seq<Page>, id: PageId): (r: Option<Page>)
    ensures r.Some? ==> r.value in ps && r.value.id == id
    ensures r.None? <==> id !in PageIds(ps)
  {
    if ps == [] then None
    else if ps[0].id == id then Some(ps[0])
    else FindPageById(ps[1..], id)
  }

  /** Appending a page changes the lookup by name only for a name not found before. */
  lemma {:induction false} FindPageByNameAppend(ps: seq<Page>, p: Page, name: string)
    ensures FindPageByName(ps + [p], name) ==
      if FindPageByName(ps, name).Some? then FindPageByName(ps, name)
      else if p.name == name then Some(p) else None
  {
    if ps == [] {
      assert [p][1..] == [];
    } else {
      assert (ps + [p])[1..] == ps[1..] + [p];
      FindPageByNameAppend(ps[1..], p, name);
    }
  }

  /** With unique names, the page found by name is the only page with that name. */
  lemma {:induction false} FindPageByNameUnique(ps: seq<Page>, p: Page)
    requires DistinctPages(ps) && p in ps
    ensures FindPageByName(ps, p.name) == Some(p)
  {
    if ps[0] != p {
      assert ps[0].name != p.name by {
        var j :| 0 <= j < |ps| && ps[j] == p;
        assert j != 0;
      }
      assert p in ps[1..];
      FindPageByNameUnique(ps[1..], p);
    }
  }

  /** With unique ids, the page found by id is the only page with that id. */
  lemma {:induction false} FindPageByIdUnique(ps: seq<Page>, p: Page)
    requires DistinctPages(ps) && p in ps
    ensures FindPageById(ps, p.id) == Some(p)
  {
    if ps[0] != p {
      assert ps[0].id != p.id by {
        var j :| 0 <= j < |ps| && ps[j] == p;
        assert j != 0;
      }
      assert p in ps[1..];
      FindPageByIdUnique(ps[1..], p);
    }
  }

  /** The permission rows left once a user's rows are deleted. */
  function GrantsWithout(grants: GrantTable, uid: UserId): (r: GrantTable)
    ensures forall k | k in r :: k in grants && k.0 != uid && r[k] == grants[k]
    ensures forall k | k in grants && k.0 != uid :: k in r
  {
    map k | k in grants && k.0 != uid :: grants[k]
  }

  /**
   * The comments left once a user is deleted: the user's own comments go
   * (CASCADE on `Comment.user`) and `modified_by` pointing at the user is
   * cleared (SET_NULL on `Comment.modified_by`).
   */
  function CommentsWithout(comments: map<CommentId, Comment>, uid: UserId): (r: map<CommentId, Comment>)
    ensures r.Keys == set c | c in comments && comments[c].author != uid
    ensures forall c | c in r :: r[c].modifiedBy != Some(uid)
    ensures forall c | c in r ::
      r[c] == comments[c] || (comments[c].modifiedBy == Some(uid) && r[c] == comments[c].(modifiedBy := None))
  {
    map c | c in comments && comments[c].author != uid ::
      if comments[c].modifiedBy == Some(uid) then comments[c].(modifiedBy := None) else comments[c]
  }

  /**
   * The history rows left once a user is deleted: rows by the user go
   * (CASCADE on `CommentHistory.user`), and so do rows of comments that no
   * longer exist (CASCADE on `CommentHistory.comment`). Order is kept.
   */
  function HistoryWithout(hs: seq<HistoryEntry>, uid: UserId, kept: set<CommentId>): (r: seq<HistoryEntry>)
    ensures |r| <= |hs|
    ensures forall h :: h in r <==> h in hs && h.actor != uid && h.commentId in kept
  {
    if hs == [] then []
    else
      var rest := HistoryWithout(hs[1..], uid, kept);
      if hs[0].actor != uid && hs[0].commentId in kept then [hs[0]] + rest else rest
  }

  /** The contents of every table at one moment. */
  datatype Tables = Tables(
    users: map<UserId, User>,
    pages: seq<Page>,
    grants: GrantTable,
    comments: map<CommentId, Comment>,
    history: seq<HistoryEntry>,
    nextPageId: PageId,
    nextCommentId: CommentId)

  /** Primary keys, unique columns and foreign keys hold. */
  ghost predicate Consistent(t: Tables) {
    (forall id | id in t.users :: t.users[id].id == id)
    && (forall a, b | a in t.users && b in t.users && a != b :: t.users[a].email != t.users[b].email)
    && DistinctPages(t.pages)
    && (forall p | p in t.pages :: p.id < t.nextPageId)
    && (forall k | k in t.grants :: k.0 in t.users && k.1 in PageIds(t.pages))
    && (forall c | c in t.comments ::
          t.comments[c].id == c && c < t.nextCommentId && t.comments[c].author in t.users
          && (t.comments[c].modifiedBy.Some? ==> t.comments[c].modifiedBy.value in t.users))
    && (forall h | h in t.history :: h.commentId in t.comments && h.actor in t.users)
  }

  /** Emails are unique, so the user found by email is the only one with it. */
  lemma EmailIdentifies(t: Tables, id: UserId)
    requires Consistent(t) && id in t.users
    ensures forall other | other in t.users && t.users[other].email == t.users[id].email :: other == id
  {
  }

  ghost predicate HasEmail(t: Tables, email: string) {
    exists id | id in t.users :: t.users[id].email == email
  }

  /** The user `User.objects.get(email=...)` finds when one exists. */
  ghost function UserWithEmail(t: Tables, email: string): (id: UserId)
    requires HasEmail(t, email)
    ensures id in t.users && t.users[id].email == email
  {
    var id :| id in t.users && t.users[id].email == email; id
  }

  /**
   * The tables after `user.delete()` with the deletes that precede it:
   * the user's permission rows and comments go, history rows of the user or
   * of a removed comment go, and `modified_by` references are cleared.
   */
  function DeleteCascade(t: Tables, uid: UserId): (r: Tables)
    ensures r.users.Keys == t.users.Keys - {uid}
    ensures forall id | id in r.users :: r.users[id] == t.users[id]
    ensures r.pages == t.pages && r.nextPageId == t.nextPageId && r.nextCommentId == t.nextCommentId
    ensures forall k | k in t.grants && k.0 != uid :: k in r.grants && r.grants[k] == t.grants[k]
    ensures forall k | k in r.grants :: k in t.grants && k.0 != uid
  {
    var cs := CommentsWithout(t.comments, uid);
    t.(users := t.users - {uid},
       grants := GrantsWithout(t.grants, uid),
       comments := cs,
       history := HistoryWithout(t.history, uid, cs.Keys))
  }

  /** Deleting a user together with its cascade keeps every foreign key intact. */
  lemma CascadeConsistent(t: Tables, uid: UserId)
    requires Consistent(t)
    ensures Consistent(DeleteCascade(t, uid))
  {
    CommentsWithoutKeys(t.comments, t.users.Keys, uid, t.nextCommentId);
    CascadeKeepsHistoryKeys(t, uid);
  }

  /** The comments left by a deletion refer only to users that remain. */
  lemma CommentsWithoutKeys(comments: map<CommentId, Comment>, users: set<UserId>, uid: UserId, next: CommentId)
    requires forall c | c in comments ::
      comments[c].id == c && c < next && comments[c].author in users
      && (comments[c].modifiedBy.Some? ==> comments[c].modifiedBy.value in users)
    ensures var r := CommentsWithout(comments, uid);
      forall c | c in r ::
        r[c].id == c && c < next && r[c].author in users - {uid}
        && (r[c].modifiedBy.Some? ==> r[c].modifiedBy.value in users - {uid})
  {
    var r := CommentsWithout(comments, uid);
    forall c | c in r
      ensures r[c].id == c && r[c].author == comments[c].author && r[c].author != uid
    {
    }
  }

  lemma CascadeKeepsHistoryKeys(t: Tables, uid: UserId)
    requires Consistent(t)
    ensures var r := DeleteCascade(t, uid);
      forall h | h in r.history :: h.commentId in r.comments && h.actor in r.users
  {
  }

  class Backend {
    var users: map<UserId, User>
    var pages: seq<Page>
    var grants: GrantTable
    var comments: map<CommentId, Comment>
    var history: seq<HistoryEntry>
    var nextPageId: PageId
    var nextCommentId: CommentId

    function Snapshot(): Tables
      reads this
    {
      Tables(users, pages, grants, comments, history, nextPageId, nextCommentId)
    }

    ghost predicate Valid()
      reads this
    {
      Consistent(Snapshot())
    }

    constructor ()
      ensures Valid()
      ensures users == map[] && pages == [] && grants == map[] && comments == map[] && history == []
    {
      users, pages, grants, comments, history := map[], [], map[], map[], [];
      nextPageId, nextCommentId := 1, 1;
    }

    /** `User.objects.get(email=...)`: the id of the user with that email, if any. */
    method FindUserByEmail(email: string) returns (r: Option<UserId>)
      requires Valid()
      ensures r.Some? <==> HasEmail(Snapshot(), email)
      ensures r.Some? ==> r.value == UserWithEmail(Snapshot(), email)
    {
      var todo := users.Keys;
      while todo != {}
        invariant todo <= users.Keys
        invariant forall id | id in users && id !in todo :: users[id].email != email
        decreases todo
      {
        var id :| id in todo;
        if users[id].email == email {
          EmailIdentifies(Snapshot(), id);
          return Some(id);
        }
        todo := todo - {id};
      }
      return None;
    }

    /**
     * The cascade of deleting a user: permission rows, authored comments
     * and the history rows tied to either go, `modified_by` references are
     * cleared, and everything else is left as it was.
     */
    method DeleteUserCascade(uid: UserId)
      requires Valid() && uid in users
      modifies this
      ensures Valid()
      ensures Snapshot() == DeleteCascade(old(Snapshot()), uid)
    {
      CascadeConsistent(Snapshot(), uid);
      grants := GrantsWithout(grants, uid);
      comments := CommentsWithout(comments, uid);
      history := HistoryWithout(history, uid, comments.Keys);
      users := users - {uid};
    }

    /** `user.save()` after changing fields other than the id and the email. */
    method SaveUser(id: UserId, u: User)
      requires Valid() && id in users && u.id == id && u.email == users[id].email
      modifies this
      ensures Valid()
      ensures Snapshot() == old(Snapshot()).(users := old(users)[id := u])
    {
      users := users[id := u];
    }

    /** `Page.objects.create(...)` for a name no page has yet: the next id is used. */
    method CreatePage(name: string, description: string, url: string) returns (p: Page)
      requires Valid() && FindPageByName(pages, name).None?
      modifies this
      ensures Valid()
      ensures p == Page(old(nextPageId), name, description, url)
      ensures Snapshot() == old(Snapshot()).(pages := old(pages) + [p], nextPageId := old(nextPageId) + 1)
    {
      p := Page(nextPageId, name, description, url);
      forall i, j | 0 <= i < j < |pages + [p]|
        ensures (pages + [p])[i].id != (pages + [p])[j].id && (pages + [p])[i].name != (pages + [p])[j].name
      {
        if j == |pages| {
          assert (pages + [p])[i] in pages;
        }
      }
      assert PageIds(pages) <= PageIds(pages + [p]);
      pages := pages + [p];
      nextPageId := nextPageId + 1;
    }

    /** Saving a new comment of an existing author under the next id. */
    method InsertComment(c: Comment)
      requires Valid() && c.id == nextCommentId && c.author in users && c.modifiedBy.None?
      modifies this
      ensures Valid()
      ensures Snapshot() == old(Snapshot()).(comments := old(comments)[c.id := c], nextCommentId := old(nextCommentId) + 1)
    {
      comments := comments[c.id := c];
      nextCommentId := nextCommentId + 1;
    }

    /** `comment.save()` after changing fields other than its id and author. */
    method SaveComment(c: Comment)
      requires Valid() && c.id in comments && c.author == comments[c.id].author
      requires c.modifiedBy.Some? ==> c.modifiedBy.value in users
      modifies this
      ensures Valid()
      ensures Snapshot() == old(Snapshot()).(comments := old(comments)[c.id := c])
    {
      comments := comments[c.id := c];
    }

    /** `CommentHistory.objects.create(...)` for an existing comment and actor. */
    method AppendHistory(h: HistoryEntry)
      requires Valid() && h.commentId in comments && h.actor in users
      modifies this
      ensures Valid()
      ensures Snapshot() == old(Snapshot()).(history := old(history) + [h])
    {
      history := history + [h];
    }

    /** `User.generate_otp`: a fresh six-digit code, stamped now, not yet verified. */
    method GenerateOtp(uid: UserId, code: string, now: int)
      requires Valid() && uid in users
      requires |code| == 6 && AllDigits(code)
      modifies this
      ensures Valid()
      ensures Snapshot() == old(Snapshot()).(users := old(users)[uid := old(users)[uid].(
        otpCode := Some(code), otpCreatedAt := Some(now), otpVerified := false)])
    {
      users := users[uid := users[uid].(otpCode := Some(code), otpCreatedAt := Some(now), otpVerified := false)];
    }

    /**
     * `User.verify_otp`: answers `OtpAccepts`; an accepted code marks the
     * user verified, a refused one changes nothing.
     */
    method VerifyOtp(uid: UserId, given: string, now: int) returns (ok: bool)
      requires Valid() && uid in users
      modifies this
      ensures Valid()
      ensures ok == OtpAccepts(old(users)[uid], given, now)
      ensures Snapshot() == if ok then old(Snapshot()).(users := old(users)[uid := old(users)[uid].(otpVerified := true)])
                            else old(Snapshot())
    {
      var u := users[uid];
      if u.otpCode.None? || u.otpCode.value == "" || u.otpCreatedAt.None? {
        return false;
      }
      if now - u.otpCreatedAt.value > OTP_WINDOW {
        return false;
      }
      if u.otpCode.value == given {
        users := users[uid := u.(otpVerified := true)];
        return true;
      }
      return false;
    }
  }

  /** A code generated at time t is accepted with the same code until t + 600 and refused after. */
  lemma GeneratedCodeWindow(u: User, code: string, t: int, now: int, given: string)
    requires |code| == 6
    ensures OtpAccepts(u.(otpCode := Some(code), otpCreatedAt := Some(t), otpVerified := false), given, now)
        <==> given == code && now - t <= OTP_WINDOW
  {
  }
}
