/**
 * The `cleanup_invalid_roles` script: every user whose role is neither
 * "superadmin" nor "user" is deleted, one at a time, with the cascades a
 * deletion triggers, and the number of such users is reported.
 */
module CleanupRoles {
  import opened Wrappers
  import opened Models
  import opened Store

  /** `valid_roles` */
  const VALID_ROLES: set<string> := {"superadmin", "user"}

  /** The roles the script keeps are exactly the roles `User.role` declares. */
  lemma ValidRolesAreChoices()
    ensures VALID_ROLES == ROLE_CHOICES
  {
  }

  /** `User.objects.exclude(role__in=valid_roles)` */
  function InvalidUsers(users: map<UserId, User>): (r: set<UserId>)
    ensures forall id :: id in r <==> id in users && users[id].role !in VALID_ROLES
  {
    set id | id in users && users[id].role !in VALID_ROLES
  }

  /**
   * The comments left once every user in `gone` is deleted: their comments
   * go and `modified_by` pointing at any of them is cleared.
   */
  function CommentsAfter(comments: map<CommentId, Comment>, gone: set<UserId>): (r: map<CommentId, Comment>)
    ensures r.Keys == set c | c in comments && comments[c].author !in gone
    ensures forall c | c in r ::
      r[c].author !in gone && (r[c].modifiedBy.Some? ==> r[c].modifiedBy.value !in gone)
    ensures forall c | c in r ::
      r[c] == comments[c] || r[c] == comments[c].(modifiedBy := None)
  {
    map c | c in comments && comments[c].author !in gone ::
      if comments[c].modifiedBy.Some? && comments[c].modifiedBy.value in gone
      then comments[c].(modifiedBy := None) else comments[c]
  }

  /** The history rows left once every user in `gone` is deleted, in order. */
  function HistoryAfter(hs: seq<HistoryEntry>, gone: set<UserId>, kept: set<CommentId>): (r: seq<HistoryEntry>)
    ensures forall h :: h in r <==> h in hs && h.actor !in gone && h.commentId in kept
  {
    if hs == [] then []
    else
      var rest := HistoryAfter(hs[1..], gone, kept);
      if hs[0].actor !in gone && hs[0].commentId in kept then [hs[0]] + rest else rest
  }

  /**
   * The tables once every user in `gone` has been deleted with its
   * cascade, whatever the order of the deletions.
   */
  function CascadeAll(t: Tables, gone: set<UserId>): (r: Tables)
    ensures r.users.Keys == t.users.Keys - gone
    ensures forall id | id in r.users :: r.users[id] == t.users[id]
    ensures r.pages == t.pages && r.nextPageId == t.nextPageId && r.nextCommentId == t.nextCommentId
    ensures forall k :: k in r.grants <==> k in t.grants && k.0 !in gone
    ensures forall k | k in r.grants :: r.grants[k] == t.grants[k]
  {
    var cs := CommentsAfter(t.comments, gone);
    t.(users := map id | id in t.users && id !in gone :: t.users[id],
       grants := map k | k in t.grants && k.0 !in gone :: t.grants[k],
       comments := cs,
       history := HistoryAfter(t.history, gone, cs.Keys))
  }

  /** Deleting nobody changes nothing on consistent tables. */
  lemma CascadeNone(t: Tables)
    requires Consistent(t)
    ensures CascadeAll(t, {}) == t
  {
    CommentsNone(t.comments);
    HistoryNone(t.history, t.comments.Keys);
    UsersAfterNone(t.users);
    GrantsAfterNone(t.grants);
  }

  lemma CommentsNone(comments: map<CommentId, Comment>)
    ensures CommentsAfter(comments, {}) == comments
  {
  }

  lemma UsersAfterNone(users: map<UserId, User>)
    ensures (map id | id in users && id !in {} :: users[id]) == users
  {
  }

  lemma GrantsAfterNone(grants: GrantTable)
    ensures (map k | k in grants && k.0 !in {} :: grants[k]) == grants
  {
  }

  lemma {:induction false} HistoryNone(hs: seq<HistoryEntry>, kept: set<CommentId>)
    requires forall h | h in hs :: h.commentId in kept
    ensures HistoryAfter(hs, {}, kept) == hs
  {
    if hs != [] {
      HistoryNone(hs[1..], kept);
    }
  }

  /** One more history filter by a deleted user is the filter over the larger set. */
  lemma {:induction false} HistoryAfterStep(hs: seq<HistoryEntry>, gone: set<UserId>, k1: set<CommentId>,
                                            uid: UserId, k2: set<CommentId>)
    requires k2 <= k1
    ensures HistoryWithout(HistoryAfter(hs, gone, k1), uid, k2) == HistoryAfter(hs, gone + {uid}, k2)
  {
    if hs != [] {
      HistoryAfterStep(hs[1..], gone, k1, uid, k2);
      var rest := HistoryAfter(hs[1..], gone, k1);
      if hs[0].actor !in gone && hs[0].commentId in k1 {
        assert HistoryAfter(hs, gone, k1) == [hs[0]] + rest;
        assert ([hs[0]] + rest)[1..] == rest;
      }
    }
  }

  /** One more deleted comment author is the comment filter over the larger set. */
  lemma CommentsAfterStep(comments: map<CommentId, Comment>, gone: set<UserId>, uid: UserId)
    ensures CommentsWithout(CommentsAfter(comments, gone), uid) == CommentsAfter(comments, gone + {uid})
  {
    var lhs := CommentsWithout(CommentsAfter(comments, gone), uid);
    var rhs := CommentsAfter(comments, gone + {uid});
    assert lhs.Keys == rhs.Keys;
    forall c | c in lhs
      ensures lhs[c] == rhs[c]
    {
      var m := comments[c].modifiedBy;
      if m.Some? && m.value in gone + {uid} {
        assert rhs[c] == comments[c].(modifiedBy := None);
      } else {
        assert rhs[c] == comments[c];
      }
    }
  }

  lemma UsersAfterStep(users: map<UserId, User>, gone: set<UserId>, uid: UserId)
    ensures (map id | id in users && id !in gone :: users[id]) - {uid}
         == (map id | id in users && id !in gone + {uid} :: users[id])
  {
  }

  lemma GrantsAfterStep(grants: GrantTable, gone: set<UserId>, uid: UserId)
    ensures GrantsWithout(map k | k in grants && k.0 !in gone :: grants[k], uid)
         == (map k | k in grants && k.0 !in gone + {uid} :: grants[k])
  {
  }

  /** Deleting one more user with its cascade extends `CascadeAll` by that user. */
  lemma CascadeStep(t: Tables, gone: set<UserId>, uid: UserId)
    ensures DeleteCascade(CascadeAll(t, gone), uid) == CascadeAll(t, gone + {uid})
  {
    var cs := CommentsAfter(t.comments, gone);
    CommentsAfterStep(t.comments, gone, uid);
    HistoryAfterStep(t.history, gone, cs.Keys, uid, CommentsAfter(t.comments, gone + {uid}).Keys);
    UsersAfterStep(t.users, gone, uid);
    GrantsAfterStep(t.grants, gone, uid);
  }

  /**
   * Progress of the deletion loop from `t0` to `t`: the tables are the
   * cascade of exactly the invalid users already handled.
   */
  ghost predicate Progress(t0: Tables, t: Tables, invalid: set<UserId>, todo: set<UserId>) {
    todo <= invalid && t == CascadeAll(t0, invalid - todo)
  }

  lemma ProgressStep(t0: Tables, t: Tables, invalid: set<UserId>, todo: set<UserId>, id: UserId)
    requires Progress(t0, t, invalid, todo) && id in todo
    ensures Progress(t0, DeleteCascade(t, id), invalid, todo - {id})
  {
    CascadeStep(t0, invalid - todo, id);
    assert (invalid - todo) + {id} == invalid - (todo - {id});
  }

  method CleanupInvalidRoles(db: Backend) returns (count: nat)
    requires db.Valid()
    modifies db
    ensures db.Valid()
    ensures db.Snapshot() == CascadeAll(old(db.Snapshot()), InvalidUsers(old(db.users)))
    ensures count == |InvalidUsers(old(db.users))|
    ensures forall id | id in db.users :: db.users[id].role in VALID_ROLES
    ensures forall id | id in old(db.users) && old(db.users)[id].role in VALID_ROLES ::
      id in db.users && db.users[id] == old(db.users)[id]
    ensures db.users.Keys <= old(db.users).Keys
    ensures count == |old(db.users).Keys - db.users.Keys|
    ensures forall k | k in old(db.grants) && old(db.users)[k.0].role in VALID_ROLES ::
      k in db.grants && db.grants[k] == old(db.grants)[k]
    ensures db.pages == old(db.pages)
  {
    var invalid := InvalidUsers(db.users);
    count := |invalid|;
    var todo := invalid;
    CascadeNone(db.Snapshot());
    assert invalid - todo == {};
    while todo != {}
      invariant db.Valid()
      invariant Progress(old(db.Snapshot()), db.Snapshot(), invalid, todo)
      decreases todo
    {
      var id :| id in todo;
      ProgressStep(old(db.Snapshot()), db.Snapshot(), invalid, todo, id);
      db.DeleteUserCascade(id);
      todo := todo - {id};
    }
    assert invalid - todo == invalid;
    assert old(db.users).Keys - db.users.Keys == invalid;
  }
}
