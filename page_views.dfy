/**
 * The views of the pages application: the fixed list of ten page names,
 * page details and the page list (both creating missing pages), and
 * comment creation, update and soft deletion under a page.
 */
module PageViews {
  import opened Wrappers
  import opened Text
  import opened Models
  import opened Store
  import opened Permissions
  import opened Http
  import opened Serializers

  /** `PAGE_NAMES` */
  const PAGE_NAMES: seq<string> := [
    "products_list", "marketing_list", "order_list", "media_plans", "offer_pricing_skus",
    "clients", "suppliers", "customer_support", "sales_reports", "finance_accounting"]

  /** The page list of the pages application and the comment page choices are the same ten names. */
  lemma PageNamesAreChoices()
    ensures PAGE_NAMES == PAGE_CHOICES
    ensures |PAGE_NAMES| == 10
    ensures forall i, j | 0 <= i < j < |PAGE_NAMES| :: PAGE_NAMES[i] != PAGE_NAMES[j]
  {
  }

  /** The url of an auto-created page: "/" and the name with every '_' turned into '-'. */
  function PageUrl(name: string): (url: string)
    ensures |url| == |name| + 1 && url[0] == '/'
    ensures '_' !in url
    ensures forall i | 0 <= i < |name| :: url[i + 1] == (if name[i] == '_' then '-' else name[i])
  {
    "/" + ReplaceAll(name, '_', '-')
  }

  /** Title casing keeps every non-letter in place. */
  lemma {:induction false} TitleKeepsNonLetters(s: string, afterLetter: bool)
    ensures forall i | 0 <= i < |s| && !IsLetter(s[i]) :: TitleAfter(s, afterLetter)[i] == s[i]
  {
    if s != [] {
      TitleKeepsNonLetters(s[1..], IsLetter(s[0]));
      var t := TitleAfter(s, afterLetter);
      assert t[1..] == TitleAfter(s[1..], IsLetter(s[0]));
    }
  }

  /** The description of an auto-created page: "Page for " and the title-cased name, underscores spaced. */
  function PageDescription(name: string): (d: string)
    ensures |d| == 9 + |name| && d[..9] == "Page for "
    ensures forall i | 0 <= i < |name| :: name[i] == '_' ==> d[9 + i] == ' '
  {
    TitleKeepsNonLetters(ReplaceAll(name, '_', ' '), false);
    "Page for " + Title(ReplaceAll(name, '_', ' '))
  }

  /**
   * Each character of the description after "Page for ": an underscore
   * becomes a space, a letter that follows a letter is lower-cased, and
   * every other character (a word's first letter) is upper-cased.
   */
  lemma PageDescriptionTitleCase(name: string)
    ensures forall i | 0 <= i < |name| ::
      PageDescription(name)[9 + i] ==
        if name[i] == '_' then ' '
        else if i > 0 && IsLetter(name[i - 1]) then ToLower(name[i])
        else ToUpper(name[i])
  {
    var spaced := ReplaceAll(name, '_', ' ');
    TitleAfterAt(spaced, false);
    var d := PageDescription(name);
    forall i | 0 <= i < |name|
      ensures d[9 + i] == if name[i] == '_' then ' '
        else if i > 0 && IsLetter(name[i - 1]) then ToLower(name[i])
        else ToUpper(name[i])
    {
      assert d[9 + i] == Title(spaced)[i];
      if i > 0 {
        assert IsLetter(spaced[i - 1]) == IsLetter(name[i - 1]);
      }
    }
  }

  /** The four flags `user_has_permission` reports for a page name. */
  function PermissionsFor(u: User, pages: seq<Page>, grants: GrantTable, name: string): (g: Grant)
    ensures g.canView == UserHasPermission(u, pages, grants, name, "view")
    ensures g.canEdit == UserHasPermission(u, pages, grants, name, "edit")
    ensures g.canCreate == UserHasPermission(u, pages, grants, name, "create")
    ensures g.canDelete == UserHasPermission(u, pages, grants, name, "delete")
  {
    Grant(UserHasPermission(u, pages, grants, name, "view"),
          UserHasPermission(u, pages, grants, name, "edit"),
          UserHasPermission(u, pages, grants, name, "create"),
          UserHasPermission(u, pages, grants, name, "delete"))
  }

  /** For a user who is not a superuser the reported flags are the page's row read flatly. */
  lemma PermissionsForRow(u: User, pages: seq<Page>, grants: GrantTable, p: Page)
    requires !u.isSuperuser && DistinctPages(pages) && p in pages
    ensures PermissionsFor(u, pages, grants, p.name) == if (u.id, p.id) in grants then grants[(u.id, p.id)] else NO_GRANT
  {
    FindPageByNameUnique(pages, p);
  }

  /** The flags depend on the page list only through the page found by name. */
  lemma PermissionsForSameLookup(u: User, ps1: seq<Page>, ps2: seq<Page>, grants: GrantTable, name: string)
    requires FindPageByName(ps1, name) == FindPageByName(ps2, name)
    ensures PermissionsFor(u, ps1, grants, name) == PermissionsFor(u, ps2, grants, name)
  {
  }

  const PAGE_NOT_FOUND := Refusal(NOT_FOUND, "error", "Page not found")
  const VIEW_FORBIDDEN := Refusal(FORBIDDEN, "error", "You do not have permission to view this page")
  const CREATE_FORBIDDEN := Refusal(FORBIDDEN, "error", "You do not have permission to create comments on this page")
  const EDIT_FORBIDDEN := Refusal(FORBIDDEN, "error", "You do not have permission to edit comments on this page")
  const DELETE_FORBIDDEN := Refusal(FORBIDDEN, "error", "You do not have permission to delete comments on this page")

  /**
   * `Page.objects.get(name=...)`, falling back to creating the page with
   * the derived description and url. Lookups that already succeeded keep
   * their answer.
   */
  method FindOrCreatePage(db: Backend, name: string) returns (page: Page)
    requires db.Valid()
    modifies db
    ensures db.Valid()
    ensures FindPageByName(db.pages, name) == Some(page)
    ensures forall n | FindPageByName(old(db.pages), n).Some? :: FindPageByName(db.pages, n) == FindPageByName(old(db.pages), n)
    ensures FindPageByName(old(db.pages), name).Some? ==> db.Snapshot() == old(db.Snapshot())
    ensures FindPageByName(old(db.pages), name).None? ==>
      page == Page(old(db.nextPageId), name, PageDescription(name), PageUrl(name))
      && db.Snapshot() == old(db.Snapshot()).(pages := old(db.pages) + [page], nextPageId := old(db.nextPageId) + 1)
  {
    var found := FindPageByName(db.pages, name);
    if found.Some? {
      return found.value;
    }
    page := db.CreatePage(name, PageDescription(name), PageUrl(name));
    forall n ensures FindPageByName(db.pages, n) == if FindPageByName(old(db.pages), n).Some? then FindPageByName(old(db.pages), n)
                                                     else if page.name == n then Some(page) else None {
      FindPageByNameAppend(old(db.pages), page, n);
    }
  }

  /** The body of `page_detail`. */
  datatype PageDetailData = PageDetailData(page: Page, comments: seq<Comment>, userPermissions: Grant)

  /**
   * The comments shown on a page, newest first as `Comment.Meta.ordering`
   * asks: the live comments on it with an id below `n`, by descending id
   * (ids are handed out in creation order).
   */
  function LiveCommentsOn(comments: map<CommentId, Comment>, name: string, n: nat): seq<Comment> {
    if n == 0 then []
    else if n - 1 in comments && comments[n - 1].pageName == name && !comments[n - 1].isDeleted
    then [comments[n - 1]] + LiveCommentsOn(comments, name, n - 1)
    else LiveCommentsOn(comments, name, n - 1)
  }

  /** The listed comments are exactly the live ones on the page below `n`, with descending ids. */
  lemma LiveCommentsNewestFirst(comments: map<CommentId, Comment>, name: string, n: nat)
    requires forall k | k in comments :: comments[k].id == k
    ensures DescendingIds(LiveCommentsOn(comments, name, n))
    ensures forall c :: c in LiveCommentsOn(comments, name, n) <==>
      c in comments.Values && c.id < n && c.pageName == name && !c.isDeleted
  {
    LiveCommentsMembers(comments, name, n);
    LiveCommentsDescending(comments, name, n);
  }

  lemma {:induction false} LiveCommentsMembers(comments: map<CommentId, Comment>, name: string, n: nat)
    requires forall k | k in comments :: comments[k].id == k
    ensures forall c :: c in LiveCommentsOn(comments, name, n) <==>
      c in comments.Values && c.id < n && c.pageName == name && !c.isDeleted
  {
    if n > 0 {
      LiveCommentsMembers(comments, name, n - 1);
      forall c | c in comments.Values && c.id == n - 1 ensures comments[n - 1] == c {
        var k :| k in comments && comments[k] == c;
      }
    }
  }

  lemma {:induction false} LiveCommentsBelow(comments: map<CommentId, Comment>, name: string, n: nat)
    requires forall k | k in comments :: comments[k].id == k
    ensures forall i | 0 <= i < |LiveCommentsOn(comments, name, n)| :: LiveCommentsOn(comments, name, n)[i].id < n
  {
    if n > 0 {
      LiveCommentsBelow(comments, name, n - 1);
      if n - 1 in comments && comments[n - 1].pageName == name && !comments[n - 1].isDeleted {
        var rest := LiveCommentsOn(comments, name, n - 1);
        var r := [comments[n - 1]] + rest;
        assert forall i | 1 <= i < |r| :: r[i] == rest[i - 1];
      }
    }
  }

  /** Comments listed newest first: strictly descending ids. */
  predicate DescendingIds(r: seq<Comment>) {
    forall i, j | 0 <= i < j < |r| :: r[i].id > r[j].id
  }

  lemma ConsDescending(c: Comment, rest: seq<Comment>)
    requires DescendingIds(rest) && forall i | 0 <= i < |rest| :: rest[i].id < c.id
    ensures DescendingIds([c] + rest)
  {
    var r := [c] + rest;
    forall i, j | 0 <= i < j < |r| ensures r[i].id > r[j].id {
      assert r[j] == rest[j - 1];
      if i > 0 {
        assert r[i] == rest[i - 1];
      }
    }
  }

  lemma {:induction false} LiveCommentsDescending(comments: map<CommentId, Comment>, name: string, n: nat)
    requires forall k | k in comments :: comments[k].id == k
    ensures DescendingIds(LiveCommentsOn(comments, name, n))
  {
    if n > 0 {
      LiveCommentsDescending(comments, name, n - 1);
      LiveCommentsBelow(comments, name, n - 1);
      if n - 1 in comments && comments[n - 1].pageName == name && !comments[n - 1].isDeleted {
        assert comments[n - 1].id == n - 1;
        ConsDescending(comments[n - 1], LiveCommentsOn(comments, name, n - 1));
      }
    }
  }

  /** Over consistent tables, `page_detail` lists every live comment on the page, newest first. */
  lemma ShownComments(t: Tables, name: string)
    requires Consistent(t)
    ensures DescendingIds(LiveCommentsOn(t.comments, name, t.nextCommentId))
    ensures forall c :: c in LiveCommentsOn(t.comments, name, t.nextCommentId) <==>
      c in t.comments.Values && c.pageName == name && !c.isDeleted
  {
    LiveCommentsNewestFirst(t.comments, name, t.nextCommentId);
  }

  /**
   * `page_detail`: an unknown name is a 404 before any permission check, a
   * caller without flat view permission gets a 403, and otherwise the page
   * (created first if missing) is returned with its live comments and the
   * caller's four flags.
   */
  method PageDetail(db: Backend, u: User, name: string) returns (r: Outcome<PageDetailData>)
    requires db.Valid()
    modifies db
    ensures db.Valid()
    ensures name !in PAGE_NAMES ==> r == Err(PAGE_NOT_FOUND) && db.Snapshot() == old(db.Snapshot())
    ensures name in PAGE_NAMES && !UserHasPermission(u, old(db.pages), old(db.grants), name, "view")
            ==> r == Err(VIEW_FORBIDDEN) && db.Snapshot() == old(db.Snapshot())
    ensures r.Ok? ==> (name in PAGE_NAMES && FindPageByName(db.pages, name) == Some(r.value.page)
      && r.value.comments == LiveCommentsOn(db.comments, name, db.nextCommentId)
      && r.value.userPermissions == PermissionsFor(u, db.pages, db.grants, name))
    ensures r.Ok? && FindPageByName(old(db.pages), name).Some? ==> db.Snapshot() == old(db.Snapshot())
    ensures r.Ok? && FindPageByName(old(db.pages), name).None? ==>
      (db.Snapshot() == old(db.Snapshot()).(pages := old(db.pages) + [r.value.page], nextPageId := old(db.nextPageId) + 1)
       && r.value.page == Page(old(db.nextPageId), name, PageDescription(name), PageUrl(name)))
  {
    if name !in PAGE_NAMES {
      return Err(PAGE_NOT_FOUND);
    }
    if !UserHasPermission(u, db.pages, db.grants, name, "view") {
      return Err(VIEW_FORBIDDEN);
    }
    var page := FindOrCreatePage(db, name);
    var flags := PermissionsFor(u, db.pages, db.grants, name);
    return Ok(PageDetailData(page, LiveCommentsOn(db.comments, name, db.nextCommentId), flags));
  }

  /** A page is created by a detail request only for a superuser: anyone else lacks view on a missing page. */
  lemma OnlySuperusersCreatePages(u: User, pages: seq<Page>, grants: GrantTable, name: string)
    requires FindPageByName(pages, name).None?
    ensures UserHasPermission(u, pages, grants, name, "view") ==> u.isSuperuser
  {
  }

  /** One element of the `pages_list` answer. */
  datatype PageListing = PageListing(page: Page, userPermissions: Grant)

  /**
   * Every page appended after `before` was missing from it and was created
   * with the derived description and url.
   */
  ghost predicate CreatedMissing(before: seq<Page>, after: seq<Page>) {
    |before| <= |after|
    && forall p | p in after[|before|..] :: IsDerived(p) && FindPageByName(before, p.name).None?
  }

  /** A page as the views create it: the description and url derived from its name. */
  ghost predicate IsDerived(p: Page) {
    p.description == PageDescription(p.name) && p.url == PageUrl(p.name)
  }

  /** Every page appended after `before` is named by `PAGE_NAMES`. */
  ghost predicate AddedAreListed(before: seq<Page>, after: seq<Page>) {
    |before| <= |after| && forall p | p in after[|before|..] :: p.name in PAGE_NAMES
  }

  /**
   * `pages_list`: one element per name of `PAGE_NAMES`, in that order, each
   * carrying the page (created if missing) and the caller's four flags.
   * Pages that already existed are left alone, and the only pages added
   * are missing ones of the ten, with the derived description and url.
   */
  method PagesList(db: Backend, u: User) returns (data: seq<PageListing>)
    requires db.Valid()
    modifies db
    ensures db.Valid()
    ensures |data| == |PAGE_NAMES|
    ensures ListingMatches(db.pages, db.grants, u, data)
    ensures old(db.pages) <= db.pages
    ensures CreatedMissing(old(db.pages), db.pages) && AddedAreListed(old(db.pages), db.pages)
    ensures forall n | FindPageByName(old(db.pages), n).Some? :: FindPageByName(db.pages, n) == FindPageByName(old(db.pages), n)
    ensures db.Snapshot() == old(db.Snapshot()).(pages := db.pages, nextPageId := db.nextPageId)
  {
    data := [];
    var i := 0;
    while i < |PAGE_NAMES|
      invariant 0 <= i <= |PAGE_NAMES| && |data| == i
      invariant db.Valid()
      invariant old(db.pages) <= db.pages
      invariant CreatedMissing(old(db.pages), db.pages) && AddedAreListed(old(db.pages), db.pages)
      invariant forall n | FindPageByName(old(db.pages), n).Some? :: FindPageByName(db.pages, n) == FindPageByName(old(db.pages), n)
      invariant db.Snapshot() == old(db.Snapshot()).(pages := db.pages, nextPageId := db.nextPageId)
      invariant ListingMatches(db.pages, db.grants, u, data)
    {
      var name := PAGE_NAMES[i];
      ghost var before := db.pages;
      var page := FindOrCreatePage(db, name);
      assert page.name == name;
      CreatedStep(old(db.pages), before, db.pages, name);
      var entry := PageListing(page, PermissionsFor(u, db.pages, db.grants, name));
      ListingStep(before, db.pages, db.grants, u, data, entry);
      data := data + [entry];
      i := i + 1;
    }
  }

  /**
   * Element k of a listing carries the page named `PAGE_NAMES[k]` and the
   * caller's flags on it.
   */
  ghost predicate ListingMatches(pages: seq<Page>, grants: GrantTable, u: User, data: seq<PageListing>) {
    |data| <= |PAGE_NAMES|
    && forall k | 0 <= k < |data| ::
      FindPageByName(pages, PAGE_NAMES[k]) == Some(data[k].page)
      && data[k].userPermissions == PermissionsFor(u, pages, grants, PAGE_NAMES[k])
  }

  lemma CreatedStep(start: seq<Page>, before: seq<Page>, after: seq<Page>, name: string)
    requires CreatedMissing(start, before) && AddedAreListed(start, before) && name in PAGE_NAMES
    requires forall n | FindPageByName(start, n).Some? :: FindPageByName(before, n) == FindPageByName(start, n)
    requires after == before || (FindPageByName(before, name).None? && |after| == |before| + 1
      && after[..|before|] == before && after[|before|].name == name && IsDerived(after[|before|]))
    ensures CreatedMissing(start, after) && AddedAreListed(start, after)
  {
    if after != before {
      assert FindPageByName(start, name).None?;
      CreatedAppend(start, before, after);
      ListedAppend(start, before, after);
    }
  }

  lemma CreatedAppend(start: seq<Page>, before: seq<Page>, after: seq<Page>)
    requires CreatedMissing(start, before)
    requires |after| == |before| + 1 && after[..|before|] == before
    requires IsDerived(after[|before|]) && FindPageByName(start, after[|before|].name).None?
    ensures CreatedMissing(start, after)
  {
    assert after[|start|..] == before[|start|..] + [after[|before|]];
  }

  lemma ListedAppend(start: seq<Page>, before: seq<Page>, after: seq<Page>)
    requires AddedAreListed(start, before)
    requires |after| == |before| + 1 && after[..|before|] == before && after[|before|].name in PAGE_NAMES
    ensures AddedAreListed(start, after)
  {
    assert after[|start|..] == before[|start|..] + [after[|before|]];
  }

  lemma ListingStep(before: seq<Page>, after: seq<Page>, grants: GrantTable, u: User, data: seq<PageListing>, entry: PageListing)
    requires ListingMatches(before, grants, u, data) && |data| < |PAGE_NAMES|
    requires forall n | FindPageByName(before, n).Some? :: FindPageByName(after, n) == FindPageByName(before, n)
    requires FindPageByName(after, PAGE_NAMES[|data|]) == Some(entry.page)
    requires entry.userPermissions == PermissionsFor(u, after, grants, PAGE_NAMES[|data|])
    ensures ListingMatches(after, grants, u, data + [entry])
  {
    var d := data + [entry];
    forall k | 0 <= k < |d|
      ensures FindPageByName(after, PAGE_NAMES[k]) == Some(d[k].page)
      ensures d[k].userPermissions == PermissionsFor(u, after, grants, PAGE_NAMES[k])
    {
      if k < |data| {
        PermissionsForSameLookup(u, before, after, grants, PAGE_NAMES[k]);
      }
    }
  }

  /**
   * `add_comment`: an unknown name is a 404, a caller without flat create
   * permission a 403; otherwise the body goes through the comment
   * serializer as written, which also demands a valid `page_name` in the
   * body (a 400 when it is missing), and the comment is stored under the
   * next id, with the caller as author and the URL's page name.
   */
  method AddComment(db: Backend, u: User, name: string, input: CommentInput) returns (r: Outcome<Comment>)
    requires db.Valid() && u.id in db.users && db.users[u.id] == u
    modifies db
    ensures db.Valid()
    ensures name !in PAGE_NAMES ==> r == Err(PAGE_NOT_FOUND) && db.Snapshot() == old(db.Snapshot())
    ensures name in PAGE_NAMES && !UserHasPermission(u, old(db.pages), old(db.grants), name, "create")
            ==> r == Err(CREATE_FORBIDDEN) && db.Snapshot() == old(db.Snapshot())
    ensures name in PAGE_NAMES && UserHasPermission(u, old(db.pages), old(db.grants), name, "create") && input.pageName.None?
            ==> r == Err(Required("page_name")) && r.error.status == BAD_REQUEST && db.Snapshot() == old(db.Snapshot())
    ensures name in PAGE_NAMES && UserHasPermission(u, old(db.pages), old(db.grants), name, "create") ==>
      match CommentCreateAsWritten(input, old(db.nextCommentId), u.id, name)
      case Err(e) => r == Err(e) && db.Snapshot() == old(db.Snapshot())
      case Ok(c) => (r == Ok(c) && c.author == u.id && c.pageName == name
        && db.Snapshot() == old(db.Snapshot()).(comments := old(db.comments)[c.id := c], nextCommentId := old(db.nextCommentId) + 1))
  {
    if name !in PAGE_NAMES {
      return Err(PAGE_NOT_FOUND);
    }
    if !UserHasPermission(u, db.pages, db.grants, name, "create") {
      return Err(CREATE_FORBIDDEN);
    }
    var created := CommentCreateAsWritten(input, db.nextCommentId, u.id, name);
    if created.Err? {
      return Err(created.error);
    }
    db.InsertComment(created.value);
    return Ok(created.value);
  }

  /**
   * `add_comment` as its `save(page_name=...)` intends: the same gates, and
   * a body that carries only non-blank content is enough.
   */
  method AddCommentIntended(db: Backend, u: User, name: string, input: CommentInput) returns (r: Outcome<Comment>)
    requires db.Valid() && u.id in db.users && db.users[u.id] == u
    modifies db
    ensures db.Valid()
    ensures name !in PAGE_NAMES ==> r == Err(PAGE_NOT_FOUND) && db.Snapshot() == old(db.Snapshot())
    ensures name in PAGE_NAMES && !UserHasPermission(u, old(db.pages), old(db.grants), name, "create")
            ==> r == Err(CREATE_FORBIDDEN) && db.Snapshot() == old(db.Snapshot())
    ensures name in PAGE_NAMES && UserHasPermission(u, old(db.pages), old(db.grants), name, "create") ==>
      match CommentCreate(input, old(db.nextCommentId), u.id, name)
      case Err(e) => r == Err(e) && db.Snapshot() == old(db.Snapshot())
      case Ok(c) => (r == Ok(c) && c.author == u.id && c.pageName == name
        && db.Snapshot() == old(db.Snapshot()).(comments := old(db.comments)[c.id := c], nextCommentId := old(db.nextCommentId) + 1))
  {
    if name !in PAGE_NAMES {
      return Err(PAGE_NOT_FOUND);
    }
    if !UserHasPermission(u, db.pages, db.grants, name, "create") {
      return Err(CREATE_FORBIDDEN);
    }
    var created := CommentCreate(input, db.nextCommentId, u.id, name);
    if created.Err? {
      return Err(created.error);
    }
    db.InsertComment(created.value);
    return Ok(created.value);
  }

  /** `get_object_or_404(Comment, id=..., page_name=..., is_deleted=False)` */
  predicate LiveCommentOn(comments: map<CommentId, Comment>, cid: int, name: string) {
    cid >= 0 && cid in comments && comments[cid].pageName == name && !comments[cid].isDeleted
  }

  /**
   * `comment_detail` PUT under a page: unknown name 404, a comment not live
   * on that page 404, no flat edit permission 403, otherwise the patch is
   * saved with the caller as `modified_by`.
   */
  method CommentDetailPut(db: Backend, u: User, name: string, cid: int, input: CommentInput) returns (r: Outcome<Comment>)
    requires db.Valid() && u.id in db.users && db.users[u.id] == u
    modifies db
    ensures db.Valid()
    ensures name !in PAGE_NAMES ==> r == Err(PAGE_NOT_FOUND) && db.Snapshot() == old(db.Snapshot())
    ensures name in PAGE_NAMES && !LiveCommentOn(old(db.comments), cid, name)
            ==> r == Err(NOT_FOUND_DETAIL) && db.Snapshot() == old(db.Snapshot())
    ensures name in PAGE_NAMES && LiveCommentOn(old(db.comments), cid, name) ==>
      if !UserHasPermission(u, old(db.pages), old(db.grants), name, "edit") then
        r == Err(EDIT_FORBIDDEN) && db.Snapshot() == old(db.Snapshot())
      else match ApplyCommentPatch(old(db.comments)[cid], input, u.id)
        case Err(e) => r == Err(e) && db.Snapshot() == old(db.Snapshot())
        case Ok(c) => r == Ok(c) && db.Snapshot() == old(db.Snapshot()).(comments := old(db.comments)[cid := c])
  {
    if name !in PAGE_NAMES {
      return Err(PAGE_NOT_FOUND);
    }
    if !LiveCommentOn(db.comments, cid, name) {
      return Err(NOT_FOUND_DETAIL);
    }
    if !UserHasPermission(u, db.pages, db.grants, name, "edit") {
      return Err(EDIT_FORBIDDEN);
    }
    var patched := ApplyCommentPatch(db.comments[cid], input, u.id);
    if patched.Err? {
      return Err(patched.error);
    }
    db.SaveComment(patched.value);
    return Ok(patched.value);
  }

  /**
   * `comment_detail` DELETE under a page: the same lookups, then the flat
   * delete permission; the comment is marked deleted, its content is kept
   * and no history row is written.
   */
  method CommentDetailDelete(db: Backend, u: User, name: string, cid: int) returns (r: Outcome<string>)
    requires db.Valid()
    modifies db
    ensures db.Valid()
    ensures name !in PAGE_NAMES ==> r == Err(PAGE_NOT_FOUND) && db.Snapshot() == old(db.Snapshot())
    ensures name in PAGE_NAMES && !LiveCommentOn(old(db.comments), cid, name)
            ==> r == Err(NOT_FOUND_DETAIL) && db.Snapshot() == old(db.Snapshot())
    ensures name in PAGE_NAMES && LiveCommentOn(old(db.comments), cid, name) ==>
      if !UserHasPermission(u, old(db.pages), old(db.grants), name, "delete") then
        r == Err(DELETE_FORBIDDEN) && db.Snapshot() == old(db.Snapshot())
      else
        r == Ok("Comment deleted successfully")
        && db.Snapshot() == old(db.Snapshot()).(comments := old(db.comments)[cid := old(db.comments)[cid].(isDeleted := true)])
        && db.history == old(db.history)
  {
    if name !in PAGE_NAMES {
      return Err(PAGE_NOT_FOUND);
    }
    if !LiveCommentOn(db.comments, cid, name) {
      return Err(NOT_FOUND_DETAIL);
    }
    if !UserHasPermission(u, db.pages, db.grants, name, "delete") {
      return Err(DELETE_FORBIDDEN);
    }
    db.SaveComment(db.comments[cid].(isDeleted := true));
    return Ok("Comment deleted successfully");
  }
}
