/**
 * The page comment panel (CommentSystem): adding, editing and deleting
 * comments against the page's list, the edit state, and which controls the
 * page's permission flags show.
 */
module CommentSystem {
  import opened Wrappers
  import opened Text
  import opened Js
  import opened Models
  import opened CommentLists

  const LOAD_FAILED := "Failed to load comments"
  const LOAD_ERROR := "Error loading comments"
  const ADD_FAILED := "Failed to add comment"
  const ADD_ERROR := "Error adding comment"
  const EDIT_FAILED := "Failed to edit comment"
  const EDIT_ERROR := "Error editing comment"
  const DELETE_FAILED := "Failed to delete comment"
  const DELETE_ERROR := "Error deleting comment"

  /**
   * The error a failed fetch leaves: a response that is not ok gives its
   * `error` or the fallback; no response at all (a thrown error) gives
   * `thrown`.
   */
  function FailureText<T>(reply: Reply<T>, fallback: string, thrown: string): (msg: string)
    requires reply.Failed?
    ensures reply.status.None? ==> msg == thrown
    ensures reply.status.Some? ==> msg == ErrorText(reply, fallback)
  {
    if reply.status.None? then thrown else ErrorText(reply, fallback)
  }

  /** The add form shows only with the create flag. */
  predicate ShowsAddForm(permissions: Grant) { permissions.canCreate }
  /** The Edit button shows only with the edit flag. */
  predicate ShowsEdit(permissions: Grant) { permissions.canEdit }
  /** The Delete button shows only with the delete flag. */
  predicate ShowsDelete(permissions: Grant) { permissions.canDelete }
  /** The History button shows only to a user whose `is_superuser` is set. */
  predicate ShowsHistory(user: Option<JsObject>) {
    user.Some? && Truthy(Field(user.value, "is_superuser"))
  }

  class CommentPanel {
    var comments: seq<ClientComment>
    var newComment: string
    var editingComment: Option<int>
    var editContent: string
    var loading: bool
    var error: string

    constructor()
      ensures comments == [] && newComment == "" && editingComment.None? && editContent == ""
      ensures loading && error == ""
    {
      comments := [];
      newComment := "";
      editingComment := None;
      editContent := "";
      loading := true;
      error := "";
    }

    /**
     * `fetchComments()`: an ok answer replaces the list; a non-ok answer or
     * a thrown error keeps it and sets the matching error; loading ends.
     */
    method FetchComments(reply: Reply<seq<ClientComment>>)
      modifies this
      ensures !loading
      ensures reply.Success? ==> comments == reply.data && error == old(error)
      ensures reply.Failed? && reply.status.Some? ==> comments == old(comments) && error == LOAD_FAILED
      ensures reply.Failed? && reply.status.None? ==> comments == old(comments) && error == LOAD_ERROR
      ensures newComment == old(newComment) && editingComment == old(editingComment)
      ensures editContent == old(editContent)
    {
      match reply {
        case Success(data) =>
          comments := data;
        case Failed(status, _) =>
          error := if status.Some? then LOAD_FAILED else LOAD_ERROR;
      }
      loading := false;
    }

    /** `handleAddComment`: `sent` tells whether a request was made. */
    method HandleAddComment(reply: Reply<ClientComment>) returns (sent: bool)
      modifies this
      ensures sent <==> Trim(old(newComment)) != ""
      ensures !sent ==>
        comments == old(comments) && newComment == old(newComment) && error == old(error)
      ensures sent && reply.Success? ==>
        comments == Prepend(reply.data, old(comments)) && newComment == "" && error == ""
      ensures sent && reply.Failed? ==>
        comments == old(comments) && newComment == old(newComment)
        && error == FailureText(reply, ADD_FAILED, ADD_ERROR)
      ensures editingComment == old(editingComment) && editContent == old(editContent)
      ensures loading == old(loading)
    {
      sent := Trim(newComment) != "";
      if !sent {
        return;
      }
      match reply {
        case Success(c) =>
          comments := Prepend(c, comments);
          newComment := "";
          error := "";
        case Failed(_, _) =>
          error := FailureText(reply, ADD_FAILED, ADD_ERROR);
      }
    }

    /** `handleEditComment(commentId)` */
    method HandleEditComment(commentId: int, reply: Reply<ClientComment>) returns (sent: bool)
      modifies this
      ensures sent <==> Trim(old(editContent)) != ""
      ensures !sent ==>
        comments == old(comments) && editingComment == old(editingComment)
        && editContent == old(editContent) && error == old(error)
      ensures sent && reply.Success? ==>
        comments == ReplaceById(old(comments), commentId, reply.data)
        && editingComment.None? && editContent == "" && error == ""
      ensures sent && reply.Failed? ==>
        comments == old(comments) && editingComment == old(editingComment)
        && editContent == old(editContent) && error == FailureText(reply, EDIT_FAILED, EDIT_ERROR)
      ensures newComment == old(newComment) && loading == old(loading)
    {
      sent := Trim(editContent) != "";
      if !sent {
        return;
      }
      match reply {
        case Success(c) =>
          comments := ReplaceById(comments, commentId, c);
          editingComment := None;
          editContent := "";
          error := "";
        case Failed(_, _) =>
          error := FailureText(reply, EDIT_FAILED, EDIT_ERROR);
      }
    }

    /** `handleDeleteComment(commentId)`; `confirmed` is the answer to the confirmation dialog. */
    method HandleDeleteComment(commentId: int, confirmed: bool, reply: Reply<()>) returns (sent: bool)
      modifies this
      ensures sent <==> confirmed
      ensures !sent ==> comments == old(comments) && error == old(error)
      ensures sent && reply.Success? ==> comments == FilterById(old(comments), commentId) && error == ""
      ensures sent && reply.Failed? ==>
        comments == old(comments) && error == FailureText(reply, DELETE_FAILED, DELETE_ERROR)
      ensures newComment == old(newComment) && editingComment == old(editingComment)
      ensures editContent == old(editContent) && loading == old(loading)
    {
      sent := confirmed;
      if !sent {
        return;
      }
      match reply {
        case Success(_) =>
          comments := FilterById(comments, commentId);
          error := "";
        case Failed(_, _) =>
          error := FailureText(reply, DELETE_FAILED, DELETE_ERROR);
      }
    }

    /** `startEditing(comment)` */
    method StartEditing(c: ClientComment)
      modifies this
      ensures editingComment == Some(c.id) && editContent == c.content
      ensures comments == old(comments) && newComment == old(newComment) && error == old(error)
      ensures loading == old(loading)
    {
      editingComment := Some(c.id);
      editContent := c.content;
    }

    /** `cancelEditing()` */
    method CancelEditing()
      modifies this
      ensures editingComment.None? && editContent == ""
      ensures comments == old(comments) && newComment == old(newComment) && error == old(error)
      ensures loading == old(loading)
    {
      editingComment := None;
      editContent := "";
    }
  }
}
