/**
 * The validation and field rules of the accounts serializers that the
 * modelled views depend on.
 */
module Serializers {
  import opened Wrappers
  import opened Text
  import opened Js
  import opened Models
  import opened Http

  /**
   * `UserLoginSerializer.validate`. `authenticated` is what `authenticate`
   * returned for the pair. Both fields must be truthy, authentication must
   * have found a user, and that user must be active.
   */
  function ValidateLogin(email: Option<string>, password: Option<string>, authenticated: Option<User>): (r: Result<User, string>)
    ensures r.Ok? <==> Present(email) && Present(password) && authenticated.Some? && authenticated.value.isActive
    ensures r.Ok? ==> r.value == authenticated.value
    ensures !(Present(email) && Present(password)) ==> r == Err("Email and password are required.")
    ensures Present(email) && Present(password) && authenticated.None? ==> r == Err("Invalid credentials.")
    ensures Present(email) && Present(password) && authenticated.Some? && !authenticated.value.isActive
            ==> r == Err("User account is disabled.")
  {
    if Present(email) && Present(password) then
      match authenticated
      case Some(u) => if u.isActive then Ok(u) else Err("User account is disabled.")
      case None => Err("Invalid credentials.")
    else Err("Email and password are required.")
  }

  /**
   * The fields a profile update may carry, the read-only ones included. A
   * nullable field is `Some(None)` when the body sends `null`; a date
   * arrives already parsed to a day number.
   */
  datatype ProfilePatch = ProfilePatch(
    id: Option<UserId>,
    email: Option<string>,
    role: Option<string>,
    username: Option<string>,
    firstName: Option<string>,
    lastName: Option<string>,
    phone: Option<Option<string>>,
    dateOfBirth: Option<Option<int>>)

  function Pick<T>(given: Option<T>, current: T): T {
    if given.Some? then given.value else current
  }

  /** The longest username, first or last name, and phone number the model fields accept. */
  const USERNAME_MAX := 150
  const NAME_MAX := 150
  const PHONE_MAX := 15

  /** The characters Django's username validator allows, restricted to ASCII. */
  predicate UsernameChar(c: char) {
    IsLetter(c) || IsDigit(c) || c == '@' || c == '.' || c == '+' || c == '-' || c == '_'
  }

  function TooLong(field: string, max: nat): Refusal {
    Refusal(BAD_REQUEST, field, "Ensure this field has no more than " + NatToString(max) + " characters.")
  }

  const BAD_USERNAME := Refusal(BAD_REQUEST, "username",
    "Enter a valid username. This value may contain only letters, numbers, and @/./+/-/_ characters.")
  const USERNAME_TAKEN := Refusal(BAD_REQUEST, "username", "A user with that username already exists.")

  /**
   * The `username` field: trimmed and not blank, at most 150 characters,
   * only username characters, and not the username of another user
   * (`taken`).
   */
  function CleanUsername(s: string, taken: set<string>): (r: Outcome<string>)
    ensures r.Ok? <==> !IsBlank(s) && |Trim(s)| <= USERNAME_MAX
                       && (forall i | 0 <= i < |Trim(s)| :: UsernameChar(Trim(s)[i])) && Trim(s) !in taken
    ensures r.Ok? ==> r.value == Trim(s)
    ensures r.Err? ==> r.error.status == BAD_REQUEST && r.error.key == "username"
  {
    TrimEmptyIffBlank(s);
    var t := Trim(s);
    if t == "" then Err(Blank("username"))
    else if |t| > USERNAME_MAX then Err(TooLong("username", USERNAME_MAX))
    else if exists i | 0 <= i < |t| :: !UsernameChar(t[i]) then Err(BAD_USERNAME)
    else if t in taken then Err(USERNAME_TAKEN)
    else Ok(t)
  }

  /** A text field that may be blank: trimmed, and at most `max` characters. */
  function CleanOptionalText(field: string, s: string, max: nat): (r: Outcome<string>)
    ensures r.Ok? <==> |Trim(s)| <= max
    ensures r.Ok? ==> r.value == Trim(s)
    ensures r.Err? ==> r.error.status == BAD_REQUEST && r.error.key == field
  {
    if |Trim(s)| > max then Err(TooLong(field, max)) else Ok(Trim(s))
  }

  /** What a present field is cleaned to, or the old value when the field is absent. */
  function CleanOr(given: Option<string>, current: string, field: string, max: nat): Outcome<string> {
    if given.Some? then CleanOptionalText(field, given.value, max) else Ok(current)
  }

  /** The phone field: absent keeps, `null` clears, text is cleaned. */
  function CleanPhone(given: Option<Option<string>>, current: Option<string>): (r: Outcome<Option<string>>)
    ensures r.Err? ==> r.error.status == BAD_REQUEST && r.error.key == "phone"
  {
    match given
    case None => Ok(current)
    case Some(None) => Ok(None)
    case Some(Some(s)) =>
      var c := CleanOptionalText("phone", s, PHONE_MAX);
      if c.Err? then Err(c.error) else Ok(Some(c.value))
  }

  /**
   * `UserProfileSerializer(user, data, partial=True)` followed by `save()`:
   * id, email and role are read-only and ignored; each writable field that
   * is present is validated and written, the others keep their value; the
   * first field in error (in declaration order) is reported. `taken` holds
   * the usernames of the other users.
   */
  function ApplyProfilePatch(u: User, p: ProfilePatch, taken: set<string>): (r: Outcome<User>)
    ensures r.Ok? <==>
      (p.username.Some? ==> CleanUsername(p.username.value, taken).Ok?)
      && (p.firstName.Some? ==> |Trim(p.firstName.value)| <= NAME_MAX)
      && (p.lastName.Some? ==> |Trim(p.lastName.value)| <= NAME_MAX)
      && (p.phone.Some? && p.phone.value.Some? ==> |Trim(p.phone.value.value)| <= PHONE_MAX)
    ensures r.Ok? ==> r.value == u.(
      username := if p.username.Some? then Trim(p.username.value) else u.username,
      firstName := if p.firstName.Some? then Trim(p.firstName.value) else u.firstName,
      lastName := if p.lastName.Some? then Trim(p.lastName.value) else u.lastName,
      phone := match p.phone case None => u.phone case Some(None) => None case Some(Some(s)) => Some(Trim(s)),
      dateOfBirth := Pick(p.dateOfBirth, u.dateOfBirth))
    ensures r.Err? ==> r.error.status == BAD_REQUEST
  {
    var username := if p.username.Some? then CleanUsername(p.username.value, taken) else Ok(u.username);
    var first := CleanOr(p.firstName, u.firstName, "first_name", NAME_MAX);
    var last := CleanOr(p.lastName, u.lastName, "last_name", NAME_MAX);
    var phone := CleanPhone(p.phone, u.phone);
    if username.Err? then Err(username.error)
    else if first.Err? then Err(first.error)
    else if last.Err? then Err(last.error)
    else if phone.Err? then Err(phone.error)
    else Ok(u.(username := username.value, firstName := first.value, lastName := last.value,
               phone := phone.value, dateOfBirth := Pick(p.dateOfBirth, u.dateOfBirth)))
  }

  /** Whatever the body says about id, email and role, a profile update keeps them. */
  lemma ProfileKeepsReadOnly(u: User, p: ProfilePatch, taken: set<string>, id: Option<UserId>, email: Option<string>, role: Option<string>)
    ensures ApplyProfilePatch(u, p, taken) == ApplyProfilePatch(u, p.(id := id, email := email, role := role), taken)
    ensures ApplyProfilePatch(u, p, taken).Ok? ==>
      var v := ApplyProfilePatch(u, p, taken).value;
      v.id == u.id && v.email == u.email && v.role == u.role && v.password == u.password
      && v.isActive == u.isActive && v.isSuperuser == u.isSuperuser
  {
  }

  /** A blank username, or one another user has, is refused and changes nothing. */
  lemma ProfileUsernameRefusals(u: User, p: ProfilePatch, taken: set<string>)
    requires p.username.Some? && (IsBlank(p.username.value) || Trim(p.username.value) in taken)
    ensures ApplyProfilePatch(u, p, taken).Err?
    ensures ApplyProfilePatch(u, p, taken).error.key == "username"
  {
  }

  /** A request to `update_user_permissions`, each field possibly absent. */
  datatype BulkRequest = BulkRequest(
    userId: Option<int>,
    pageId: Option<int>,
    canView: Option<bool>,
    canEdit: Option<bool>,
    canCreate: Option<bool>,
    canDelete: Option<bool>)

  datatype BulkData = BulkData(userId: UserId, pageId: PageId, grant: Grant)

  /** The four flags of a request, each absent flag read as false. */
  function RequestedGrant(req: BulkRequest): (g: Grant)
    ensures g.canView <==> req.canView == Some(true)
    ensures g.canEdit <==> req.canEdit == Some(true)
    ensures g.canCreate <==> req.canCreate == Some(true)
    ensures g.canDelete <==> req.canDelete == Some(true)
  {
    Grant(Pick(req.canView, false), Pick(req.canEdit, false), Pick(req.canCreate, false), Pick(req.canDelete, false))
  }

  /**
   * `BulkPermissionUpdateSerializer`: both ids are required and must name an
   * existing user and page; the flags default to false. The first failing
   * field is reported.
   */
  function ValidateBulkPermission(req: BulkRequest, users: set<UserId>, pages: set<PageId>): (r: Outcome<BulkData>)
    ensures r.Ok? <==> req.userId.Some? && req.userId.value in users && req.pageId.Some? && req.pageId.value in pages
    ensures r.Ok? ==> r.value == BulkData(req.userId.value, req.pageId.value, RequestedGrant(req))
    ensures req.userId.Some? && req.userId.value !in users ==> r == Err(Refusal(BAD_REQUEST, "user_id", "User does not exist."))
    ensures r.Err? ==> r.error.status == BAD_REQUEST
  {
    if req.userId.None? then Err(Required("user_id"))
    else if req.userId.value < 0 || req.userId.value !in users then Err(Refusal(BAD_REQUEST, "user_id", "User does not exist."))
    else if req.pageId.None? then Err(Required("page_id"))
    else if req.pageId.value < 0 || req.pageId.value !in pages then Err(Refusal(BAD_REQUEST, "page_id", "Page does not exist."))
    else Ok(BulkData(req.userId.value, req.pageId.value, RequestedGrant(req)))
  }

  /**
   * The body of a comment create or update: the writable fields, and the
   * read-only `user` and `modified_by` a client may also send.
   */
  datatype CommentInput = CommentInput(
    pageName: Option<string>,
    content: Option<string>,
    isDeleted: Option<bool>,
    user: Option<UserId>,
    modifiedBy: Option<UserId>)

  /**
   * A `CharField` built from a `TextField`: surrounding white space is
   * trimmed and a blank value is refused.
   */
  function CleanContent(s: string): (r: Outcome<string>)
    ensures r.Ok? <==> !IsBlank(s)
    ensures r.Ok? ==> r.value == Trim(s) && r.value != ""
  {
    TrimEmptyIffBlank(s);
    if Trim(s) == "" then Err(Blank("content")) else Ok(Trim(s))
  }

  /** A `page_name` must be one of `Comment.PAGE_CHOICES`. */
  function CleanPageName(s: string): (r: Outcome<string>)
    ensures r.Ok? <==> s in PAGE_CHOICES
    ensures r.Ok? ==> r.value == s
  {
    if s in PAGE_CHOICES then Ok(s)
    else Err(Refusal(BAD_REQUEST, "page_name", "\"" + s + "\" is not a valid choice."))
  }

  /**
   * `CommentSerializer(comment, data, partial=True)` followed by
   * `save(modified_by=actor)`: each writable field that is present is
   * validated and written; author and id are kept and `modified_by` becomes
   * the actor whatever the body says.
   */
  function ApplyCommentPatch(c: Comment, input: CommentInput, actor: UserId): (r: Outcome<Comment>)
    ensures r.Ok? <==> (input.content.Some? ==> !IsBlank(input.content.value))
                       && (input.pageName.Some? ==> input.pageName.value in PAGE_CHOICES)
    ensures r.Ok? ==> r.value.id == c.id && r.value.author == c.author && r.value.modifiedBy == Some(actor)
    ensures r.Ok? ==> r.value.content == (if input.content.Some? then Trim(input.content.value) else c.content)
    ensures r.Ok? ==> r.value.pageName == Pick(input.pageName, c.pageName)
    ensures r.Ok? ==> r.value.isDeleted == Pick(input.isDeleted, c.isDeleted)
  {
    var content := if input.content.Some? then CleanContent(input.content.value) else Ok(c.content);
    var pageName := if input.pageName.Some? then CleanPageName(input.pageName.value) else Ok(c.pageName);
    if content.Err? then Err(content.error)
    else if pageName.Err? then Err(pageName.error)
    else Ok(c.(content := content.value, pageName := pageName.value,
               isDeleted := Pick(input.isDeleted, c.isDeleted), modifiedBy := Some(actor)))
  }

  /** The read-only fields of a comment body have no effect on an update. */
  lemma PatchIgnoresReadOnly(c: Comment, input: CommentInput, actor: UserId, user: Option<UserId>, modifiedBy: Option<UserId>)
    ensures ApplyCommentPatch(c, input, actor) == ApplyCommentPatch(c, input.(user := user, modifiedBy := modifiedBy), actor)
  {
  }

  /**
   * `CommentSerializer(data=...)` followed by `save(user=author,
   * page_name=pageName)`, as written: the body must itself carry a valid
   * `page_name` (the field is required), which the URL's page name then
   * overrides.
   */
  function CommentCreateAsWritten(input: CommentInput, id: CommentId, author: UserId, pageName: string): (r: Outcome<Comment>)
    ensures r.Ok? <==> input.pageName.Some? && input.pageName.value in PAGE_CHOICES
                       && input.content.Some? && !IsBlank(input.content.value)
    ensures r.Ok? ==> r.value == Comment(id, author, pageName, Trim(input.content.value), Pick(input.isDeleted, false), None)
  {
    if input.pageName.None? then Err(Required("page_name"))
    else if CleanPageName(input.pageName.value).Err? then Err(CleanPageName(input.pageName.value).error)
    else if input.content.None? then Err(Required("content"))
    else match CleanContent(input.content.value)
      case Err(e) => Err(e)
      case Ok(text) => Ok(Comment(id, author, pageName, text, Pick(input.isDeleted, false), None))
  }

  /** A body carrying only the content, as the comment widgets send it, is refused as written. */
  lemma ContentOnlyBodyRefused(content: string, id: CommentId, author: UserId, pageName: string)
    ensures CommentCreateAsWritten(CommentInput(None, Some(content), None, None, None), id, author, pageName)
            == Err(Required("page_name"))
  {
  }

  /**
   * Comment creation with the page name taken from the URL, as the views'
   * `save(page_name=...)` intends: only the content is needed from the body.
   */
  function CommentCreate(input: CommentInput, id: CommentId, author: UserId, pageName: string): (r: Outcome<Comment>)
    ensures r.Ok? <==> input.content.Some? && !IsBlank(input.content.value)
    ensures r.Ok? ==> r.value == Comment(id, author, pageName, Trim(input.content.value), Pick(input.isDeleted, false), None)
  {
    if input.content.None? then Err(Required("content"))
    else match CleanContent(input.content.value)
      case Err(e) => Err(e)
      case Ok(text) => Ok(Comment(id, author, pageName, text, Pick(input.isDeleted, false), None))
  }

  /** The corrected creation accepts every non-blank content-only body and ignores any page name in it. */
  lemma CommentCreateUsesUrlPage(input: CommentInput, id: CommentId, author: UserId, pageName: string, other: Option<string>)
    requires input.content.Some? && !IsBlank(input.content.value)
    ensures CommentCreate(input, id, author, pageName).Ok?
    ensures CommentCreate(input, id, author, pageName) == CommentCreate(input.(pageName := other), id, author, pageName)
    ensures CommentCreate(input, id, author, pageName).value.pageName == pageName
  {
  }

  /** The fields `UserSerializer` emits, which is the user object of both login endpoints. */
  const USER_FIELDS: set<string> := {"id", "email", "username", "first_name", "last_name", "role", "is_active"}

  /** `UserSerializer(user).data` */
  function SerializeUser(u: User): (r: JsObject)
    ensures r.Keys == USER_FIELDS
    ensures "is_superuser" !in r
    ensures Field(r, "role") == Str(u.role) && Field(r, "id") == Num(u.id) && Field(r, "email") == Str(u.email)
  {
    map["id" := Num(u.id), "email" := Str(u.email), "username" := Str(u.username),
        "first_name" := Str(u.firstName), "last_name" := Str(u.lastName),
        "role" := Str(u.role), "is_active" := Bool(u.isActive)]
  }
}
