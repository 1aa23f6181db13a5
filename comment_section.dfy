/**
 * The comment section (CommentSection): the same list updates, a per-comment
 * history cache, the author and role tests that decide which controls a
 * comment shows, and which of the four views renders.
 */
module CommentSection {
  import opened Wrappers
  import opened Text
  import opened Js
  import opened CommentLists

  /** The section's own permission flags. */
  datatype SectionPermissions = SectionPermissions(canView: bool, canEdit: bool, canCreate: bool, canDelete: bool)

  const NOTHING_ALLOWED := SectionPermissions(false, false, false, false)

  /** One history record as the section shows it. */
  datatype HistoryItem = HistoryItem(content: string, modifiedBy: string)

  /** What the tooltip shows for a comment. */
  datatype HistoryView = NoHistory | History(original: string, modifications: seq<HistoryItem>)

  /** What the section renders. */
  datatype View = Spinner | ErrorAlert(message: string) | NoViewWarning | Comments

  const ADD_FAILED := "Failed to add comment"
  const EDIT_FAILED := "Failed to edit comment"
  const DELETE_FAILED := "Failed to delete comment"

  /** `user.id === comment.user` */
  predicate IsAuthor(user: JsObject, c: ClientComment) {
    Field(user, "id") == Num(c.user)
  }

  predicate IsSuperuser(user: JsObject) {
    Truthy(Field(user, "is_superuser"))
  }

  /** The edit control: the edit flag, and only on the user's own comments. */
  predicate ShowsEdit(p: SectionPermissions, user: JsObject, c: ClientComment) {
    p.canEdit && IsAuthor(user, c)
  }

  /** The delete control: the delete flag, on the user's own comments or for a superuser. */
  predicate ShowsDelete(p: SectionPermissions, user: JsObject, c: ClientComment) {
    p.canDelete && (IsAuthor(user, c) || IsSuperuser(user))
  }

  /** The history control: superusers only. */
  predicate ShowsHistory(user: JsObject) {
    IsSuperuser(user)
  }

  /** Before the permissions arrive, no control shows except the superuser's history. */
  lemma NothingBeforePermissions(user: JsObject, c: ClientComment)
    ensures !ShowsEdit(NOTHING_ALLOWED, user, c) && !ShowsDelete(NOTHING_ALLOWED, user, c)
  {
  }

  /** A superuser may delete what they may not edit: someone else's comment. */
  lemma SuperuserDeletesOthers(p: SectionPermissions, user: JsObject, c: ClientComment)
    requires p.canEdit && p.canDelete && IsSuperuser(user) && !IsAuthor(user, c)
    ensures ShowsDelete(p, user, c) && !ShowsEdit(p, user, c)
  {
  }

  /** `renderModificationHistory`: the first record is the original, the rest follow in order. */
  function RenderHistory(history: seq<HistoryItem>): (v: HistoryView)
    ensures history == [] <==> v.NoHistory?
    ensures v.History? ==> [HistoryItem(v.original, history[0].modifiedBy)] + v.modifications == history
  {
    if history == [] then NoHistory else History(history[0].content, history[1..])
  }

  /** The render order: spinner, then error, then the no-view warning, then the comments. */
  function RenderView(loading: bool, error: Option<string>, p: SectionPermissions): (v: View)
    ensures loading <==> v == Spinner
    ensures !loading && error.Some? <==> v == ErrorAlert(if error.Some? then error.value else "")
    ensures v == Comments <==> !loading && error.None? && p.canView
  {
    if loading then Spinner
    else if error.Some? then ErrorAlert(error.value)
    else if !p.canView then NoViewWarning
    else Comments
  }

  class Section {
    var comments: seq<ClientComment>
    var newComment: string
    var editingComment: Option<int>
    var editText: string
    var loading: bool
    var error: Option<string>
    var commentHistory: map<int, seq<HistoryItem>>
    var permissions: SectionPermissions

    constructor()
      ensures comments == [] && newComment == "" && editingComment.None? && editText == ""
      ensures loading && error.None? && commentHistory == map[] && permissions == NOTHING_ALLOWED
    {
      comments := [];
      newComment := "";
      editingComment := None;
      editText := "";
      loading := true;
      error := None;
      commentHistory := map[];
      permissions := NOTHING_ALLOWED;
    }

    /** The history a comment's tooltip reads: `commentHistory[id] || []`. */
    function HistoryOf(id: int): seq<HistoryItem>
      reads this
    {
      if id in commentHistory then commentHistory[id] else []
    }

    /** `fetchCommentHistory(commentId)`: only that comment's entry changes; a failure changes nothing. */
    method FetchCommentHistory(commentId: int, reply: Reply<seq<HistoryItem>>)
      modifies this
      ensures reply.Success? ==> commentHistory == old(commentHistory)[commentId := reply.data]
      ensures reply.Failed? ==> commentHistory == old(commentHistory)
      ensures forall id | id != commentId :: HistoryOf(id) == old(HistoryOf(id))
      ensures comments == old(comments) && error == old(error) && editingComment == old(editingComment)
      ensures editText == old(editText) && newComment == old(newComment) && loading == old(loading)
      ensures permissions == old(permissions)
    {
      if reply.Success? {
        commentHistory := commentHistory[commentId := reply.data];
      }
    }

    /** `fetchComments()`: the list is replaced or the error set; either way loading ends. */
    method FetchComments(reply: Reply<seq<ClientComment>>)
      modifies this
      ensures reply.Success? ==> comments == reply.data && error == old(error)
      ensures reply.Failed? ==> comments == old(comments) && error == Some("Failed to load comments")
      ensures !loading
      ensures permissions == old(permissions) && commentHistory == old(commentHistory)
      ensures newComment == old(newComment) && editingComment == old(editingComment) && editText == old(editText)
    {
      match reply {
        case Success(cs) => comments := cs;
        case Failed(_, _) => error := Some("Failed to load comments");
      }
      loading := false;
    }

    /** `fetchPermissions()`: the four flags arrive together; a failure sets the error. */
    method FetchPermissions(reply: Reply<SectionPermissions>)
      modifies this
      ensures reply.Success? ==> permissions == reply.data && error == old(error)
      ensures reply.Failed? ==> permissions == old(permissions) && error == Some("Failed to load permissions")
      ensures comments == old(comments) && loading == old(loading) && commentHistory == old(commentHistory)
    {
      match reply {
        case Success(p) => permissions := p;
        case Failed(_, _) => error := Some("Failed to load permissions");
      }
    }

    /** `handleAddComment` */
    method HandleAddComment(reply: Reply<ClientComment>) returns (sent: bool)
      modifies this
      ensures sent <==> Trim(old(newComment)) != ""
      ensures !sent ==> comments == old(comments) && newComment == old(newComment) && error == old(error)
      ensures sent && reply.Success? ==>
        comments == Prepend(reply.data, old(comments)) && newComment == "" && error == old(error)
      ensures sent && reply.Failed? ==>
        comments == old(comments) && newComment == old(newComment) && error == Some(ADD_FAILED)
      ensures commentHistory == old(commentHistory) && permissions == old(permissions)
    {
      sent := Trim(newComment) != "";
      if !sent {
        return;
      }
      match reply {
        case Success(c) =>
          comments := Prepend(c, comments);
          newComment := "";
        case Failed(_, _) =>
          error := Some(ADD_FAILED);
      }
    }

    /** `handleEditComment(commentId)`: on success the comment's history is fetched again. */
    method HandleEditComment(commentId: int, reply: Reply<ClientComment>, history: Reply<seq<HistoryItem>>)
      returns (sent: bool)
      modifies this
      ensures sent <==> Trim(old(editText)) != ""
      ensures !sent ==>
        comments == old(comments) && editText == old(editText) && error == old(error)
        && commentHistory == old(commentHistory) && editingComment == old(editingComment)
      ensures sent && reply.Success? ==>
        comments == ReplaceById(old(comments), commentId, reply.data)
        && editingComment.None? && editText == "" && error == old(error)
        && commentHistory == (if history.Success? then old(commentHistory)[commentId := history.data]
                              else old(commentHistory))
      ensures sent && reply.Failed? ==>
        comments == old(comments) && error == Some(EDIT_FAILED) && commentHistory == old(commentHistory)
        && editingComment == old(editingComment) && editText == old(editText)
      ensures permissions == old(permissions)
    {
      sent := Trim(editText) != "";
      if !sent {
        return;
      }
      match reply {
        case Success(c) =>
          comments := ReplaceById(comments, commentId, c);
          editingComment := None;
          editText := "";
          FetchCommentHistory(commentId, history);
        case Failed(_, _) =>
          error := Some(EDIT_FAILED);
      }
    }

    /** `handleDeleteComment(commentId)`: no confirmation here. */
    method HandleDeleteComment(commentId: int, reply: Reply<()>)
      modifies this
      ensures reply.Success? ==> comments == FilterById(old(comments), commentId) && error == old(error)
      ensures reply.Failed? ==> comments == old(comments) && error == Some(DELETE_FAILED)
      ensures commentHistory == old(commentHistory) && permissions == old(permissions)
    {
      match reply {
        case Success(_) => comments := FilterById(comments, commentId);
        case Failed(_, _) => error := Some(DELETE_FAILED);
      }
    }
  }
}
