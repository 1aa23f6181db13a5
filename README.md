# Super-admin dashboard: page permissions and sessions, in Dafny

This project models the core of a Django + React "super-admin dashboard".
A superadmin manages users and grants each of them, page by page, four flags
(view, edit, create, delete) over ten fixed pages; regular users log in,
see the pages they were granted, and comment on them. The model covers both
halves of that system:

- the backend (Django REST framework): the user, page, permission-row,
  comment and comment-history tables (`Store.Backend`, a class whose maps
  and sequences the views update in place); the permission level getter and
  setter of the permission row; the three server-side permission checks; the
  serializers' validation rules; the account views (login endpoints, user
  deletion with its cascade, permission upsert, accessible pages, comment
  update/delete/history, the one-time-code password reset); the page views
  (page detail, page list, comment creation, update and soft delete); the
  role clean-up script and the `create_user` management command's password
  generator;
- the frontend (React): the browser's `localStorage` (`Storage.LocalStorage`),
  the axios interceptors, the idle-session manager, the permission and
  authentication contexts, the two login forms, the navigation bar, the
  password-recovery form, the admin dashboard, the two comment widgets and
  the route table. Each component's state is a class whose methods are its
  handlers; every network call is a parameter (`Js.Reply`) standing for the
  answer the server gives.

One module corresponds to one source file; `Wrappers`, `Text`, `Js`,
`Models` and `Store` hold the values and helpers the others share, and
`Consistency` relates the client to the server.

Things the proofs bring out about the code as written (all stated as
lemmas, listed in the table below):

- the flat check `user_has_permission` and the hierarchical
  `validate_permission_edge_cases` disagree (an edit-only row is viewable
  under one and not the other); they agree on rows the `permission_level`
  setter produces;
- neither login endpoint sends `is_superuser`, so the client's superuser
  bypass and the comment panel's History button never apply to a stored
  login user;
- the dashboard's badges read the short keys `view`/`edit`/... while the
  objects it stores carry `can_view`/`can_edit`/..., so a stored grant is
  labelled "No Access";
- the url the server gives a page it creates on demand replaces every `_`
  by `-`, the client's route table only the first, so such a page's
  `/offer-pricing-skus` has no client route (pages seeded by the initial
  data migration carry the urls written there, such as `/offers`, and
  that migration is not part of this model);
- the four logout paths do not clear the same keys: the session manager
  keeps `user`, the others keep `last_activity`;
- the 401 handler re-sends a request through the same interceptor with
  nothing marking it as a retry, so the number of refreshes for one request
  is unbounded rather than one;
- the permission context's refresh sends the `access_token` key, which
  nothing in the client writes (the model keeps the fetch as a parameter);
- the delete-user success message is overwritten at once by the refetch,
  which clears the error first.

## Model

| member | source | states |
|---|---|---|
| Models.FullName | backend/accounts/models.py:33-35 | the full name is the first name, one space, then the last name |
| Models.PermissionLevel | backend/accounts/models.py:110-120 | the level is the highest flag set, in the order delete, create, edit, view; "none" exactly when no flag is set |
| Models.LadderGrant | backend/accounts/models.py:122-127 | the setter produces a ladder (each flag implies the one below); view is set iff the level is one of the four; delete iff the level is "delete"; an unknown level clears every flag |
| Models.LevelRoundTrip | backend/accounts/models.py:110-127 | setting a known level and reading it back gives that level; any other level reads back as "none" |
| Models.LadderRoundTrip | backend/accounts/models.py:110-127 | reading the level of a ladder row and setting it again restores the same four flags |
| Models.PermissionRow.Level | backend/accounts/models.py:110-120 | the getter on the mutable row agrees with the level of its four flags |
| Models.PermissionRow.SetLevel | backend/accounts/models.py:122-127 | the setter rewrites the row's flags in place to the ladder of the level, and reading the level back gives it (or "none") |
| Models.FlagNames | backend/accounts/models.py:98-107 | a label is listed iff its flag is set, and the labels come in the order View, Edit, Create, Delete |
| Models.GrantDescription | backend/accounts/models.py:98-108 | the description is the email, " - ", the page name, then the names of the granted flags in the order view, edit, create, delete, comma-separated in parentheses |
| Models.OtpWindowEdge | backend/accounts/models.py:48-62 | a matching code is accepted exactly 600 seconds after it was made and refused one second later |
| Models.OtpNeedsStoredCode | backend/accounts/models.py:48-51 | a user with no stored code or no creation time is refused whatever code is given |
| Store.FindPageByName | backend/accounts/views.py:100-102 | the page found carries the requested name; nothing is found iff no page has that name |
| Store.FindPageById | backend/accounts/views.py:656-657 | the page found carries the requested id; nothing is found iff no page has that id |
| Store.FindPageByNameAppend | backend/pages/views.py:44-52 | creating a page changes the lookup by name only for a name that was not found before |
| Store.FindPageByNameUnique | backend/accounts/models.py:64-65 | with unique page names, looking up a page's name finds that page |
| Store.FindPageByIdUnique | backend/accounts/models.py:64-69 | with unique ids, looking up a page's id finds that page |
| Store.GrantsWithout | backend/accounts/views.py:475-476 | exactly the permission rows of other users remain, unchanged |
| Store.CommentsWithout | backend/accounts/models.py:143-148 | the user's own comments are removed, and a `modified_by` pointing at the user becomes null (SET_NULL) on the others |
| Store.HistoryWithout | backend/accounts/models.py:164-165 | a history row remains iff its actor is not the user and its comment is kept (both foreign keys cascade) |
| Store.EmailIdentifies | backend/accounts/models.py:14 | emails are unique, so at most one user has a given email |
| Store.UserWithEmail | backend/accounts/views.py:755 | the user `User.objects.get(email=...)` returns exists and carries that email |
| Store.DeleteCascade | backend/accounts/views.py:475-482 | deleting a user removes exactly that user and their permission rows; every other user, page and row is unchanged |
| Store.CascadeConsistent | backend/accounts/models.py:85-86 | after a cascading delete every foreign key of the remaining rows still points at an existing row |
| Store.Backend.FindUserByEmail | backend/accounts/views.py:755 | a user id is returned iff some user has the email, and it is the id of that user |
| Store.Backend.DeleteUserCascade | backend/accounts/views.py:475-482 | the tables become the cascade-delete of the user; the table invariants are kept |
| Store.Backend.SaveUser | backend/accounts/views.py:845-847 | only that user's row changes |
| Store.Backend.CreatePage | backend/pages/views.py:48-52 | the new page gets the next id and is appended; names and ids stay unique |
| Store.Backend.InsertComment | backend/accounts/views.py:149-151 | the comment is stored under the next id and nothing else changes |
| Store.Backend.SaveComment | backend/accounts/views.py:187-189 | only that comment's row changes |
| Store.Backend.AppendHistory | backend/accounts/views.py:192-197 | one history row is appended after the others and nothing else changes; the table invariants are kept |
| Store.Backend.GenerateOtp | backend/accounts/models.py:40-46 | the user's code is replaced, stamped now and marked not verified; nothing else changes |
| Store.Backend.VerifyOtp | backend/accounts/models.py:48-62 | the result is the ten-minute window check; on success only the verified mark is set |
| Store.GeneratedCodeWindow | backend/accounts/models.py:40-62 | a freshly generated code is accepted with that same code for 600 seconds and refused afterwards |
| Permissions.EdgeCasePermission | backend/accounts/views.py:61-90 | a superuser always passes; an inactive user or one without a row fails; a pass for a non-superuser needs one of the four actions |
| Permissions.UserHasPermission | backend/accounts/views.py:92-115 | a superuser always passes; an unknown page fails; a pass for a non-superuser needs one of the four actions |
| Permissions.CheckPagePermission | backend/accounts/views.py:651-663 | the superadmin role passes; anyone else passes iff the page exists and their row has all four flags |
| Permissions.HierarchyLadder | backend/accounts/views.py:80-88 | under the hierarchical reading delete implies edit, edit implies view, create implies view, and view holds iff some flag is set |
| Permissions.CreateDoesNotImplyEdit | backend/accounts/views.py:83-86 | a create-only row allows create and view but not edit |
| Permissions.UnknownActionRefused | backend/accounts/views.py:90 | an action other than the four is refused by both readings |
| Permissions.FlatImpliesHierarchical | backend/accounts/views.py:80-115 | whatever the flat check allows, the hierarchical one allows too |
| Permissions.HierarchicalNotFlat | backend/accounts/views.py:81-82 | an edit-only row is viewable hierarchically but not under the flat check |
| Permissions.ReadingsAgreeOnLadder | backend/accounts/views.py:80-115 | on rows the `permission_level` setter produces, the flat and hierarchical readings agree on every action |
| Permissions.InactiveSuperuserPasses | backend/accounts/views.py:63-69 | an inactive superuser passes the edge-case check for any page and action |
| Permissions.InactiveUserDiverges | backend/accounts/views.py:67-69 | the flat check ignores the active flag: an inactive user with a view row passes it while the edge-case check refuses |
| Permissions.FlatMatchesEdgeCaseOnLadder | backend/accounts/views.py:61-115 | for an active user whose row is a ladder, the flat check and the edge-case check give the same answer |
| Permissions.CheckIgnoresType | backend/accounts/views.py:651-663 | the page-permission check gives the same answer whatever permission type is asked for |
| Permissions.SuperuserAndSuperadminDiffer | backend/accounts/views.py:97-98 | a superuser whose role is "user" passes the flat check but fails the page-permission check |
| Permissions.ViewRowNotEnoughForCheck | backend/accounts/views.py:656-663 | a view-only row passes the flat view check but fails the page-permission check |
| Serializers.ValidateLogin | backend/accounts/serializers.py:28-44 | the login is accepted iff both fields are present, authentication found a user and the user is active; each failure carries its own message |
| Serializers.ApplyProfilePatch | backend/accounts/serializers.py:46-50 | the update is accepted iff the username (when given) is a valid, free, non-blank one and first name, last name and phone fit their lengths; then exactly the given writable fields take their trimmed values (phone may be cleared, date of birth replaced) and every other field is kept; a refusal is a 400 |
| Serializers.CleanUsername | backend/accounts/models.py:7 | a username is accepted iff, once trimmed, it is non-blank, at most 150 characters of letters, digits and @.+-_, and not another user's; the accepted value is the trimmed text |
| Serializers.ProfileKeepsReadOnly | backend/accounts/serializers.py:50 | id, email and role in the body change nothing, and an accepted update keeps the user's id, email, role, password and flags |
| Serializers.ProfileUsernameRefusals | backend/accounts/serializers.py:46-50 | a blank username or another user's username is refused on the username field |
| Serializers.RequestedGrant | backend/accounts/serializers.py:101-104 | each flag is set iff the request sends it as true; an absent flag defaults to false |
| Serializers.ValidateBulkPermission | backend/accounts/serializers.py:98-114 | the request is accepted iff both ids are given and name an existing user and page; an unknown user is reported as "User does not exist."; every refusal is a 400 |
| Serializers.CleanContent | backend/accounts/serializers.py:135-153 | comment content is accepted iff it is not blank, and is stored trimmed |
| Serializers.CleanPageName | backend/accounts/models.py:130-144 | a page name is accepted iff it is one of the ten page choices |
| Serializers.ApplyCommentPatch | backend/accounts/serializers.py:145-153 | a partial update keeps id and author, sets `modified_by` to the actor, and changes content, page and deleted flag only when they are sent |
| Serializers.PatchIgnoresReadOnly | backend/accounts/serializers.py:153 | `user` and `modified_by` sent in a body have no effect on an update |
| Serializers.CommentCreateAsWritten | backend/accounts/serializers.py:147-153 | as written, creation succeeds iff the body itself carries a valid page name and non-blank content; the URL's page name then overrides it |
| Serializers.ContentOnlyBodyRefused | backend/accounts/serializers.py:147-153 | a body with only `content`, as the comment widgets send it, is refused |
| Serializers.CommentCreate | backend/pages/views.py:127-131 | corrected creation succeeds iff the content is not blank, and the comment takes the URL's page name |
| Serializers.CommentCreateUsesUrlPage | backend/pages/views.py:127-131 | every non-blank content-only body is accepted, and a page name in the body changes nothing |
| Serializers.SerializeUser | backend/accounts/serializers.py:170-173 | the user object has exactly the seven listed fields, never `is_superuser`, and carries the user's id, email and role |
| AccountViews.UpdateUserPermissions | backend/accounts/views.py:503-552 | an invalid request or a superadmin target changes nothing; otherwise the row for (user, page) is created or overwritten with the requested flags and returned |
| AccountViews.UpsertTouchesOneRow | backend/accounts/views.py:519-535 | the upsert writes one row and leaves every other row as it was |
| AccountViews.DeleteUser | backend/accounts/views.py:461-500 | an unknown id is a 404, a superadmin is refused with 400 and nothing changes; anyone else is removed with their cascade |
| AccountViews.Destroy | backend/accounts/views.py:704-732 | the same rules, with the framework's 404 for an unknown id |
| AccountViews.DeleteSparesOthers | backend/accounts/views.py:475-482 | a deletion removes exactly the victim's rows and leaves every other user's rows untouched |
| AccountViews.AllEntries | backend/accounts/views.py:229-244 | a superadmin gets one entry per page, in the order given (the views give the pages sorted by name), each with all four flags |
| AccountViews.GrantedEntries | backend/accounts/views.py:246-263 | an entry is listed iff the user has a row for its page, and it carries that row's flags; in the order of the pages given, which the views sort by name |
| AccountViews.AccessiblePagesByName | backend/accounts/models.py:74-75 | both branches list their entries by page name (`Page.Meta.ordering`; the permission rows order by the page), and they are a permutation of the entries of a walk in storage order |
| AccountViews.AllEntriesPermutation | backend/accounts/views.py:229-244 | listing a permutation of the pages gives a permutation of the superadmin's entries |
| AccountViews.GrantedEntriesPermutation | backend/accounts/views.py:246-263 | listing a permutation of the pages gives a permutation of a user's entries |
| AccountViews.GrantedEntriesSorted | backend/accounts/models.py:96 | over pages in name order the granted entries are in name order |
| AccountViews.UserAccessiblePages | backend/accounts/views.py:222-263 | the loop over the pages read in name order returns exactly the accessible-pages list of the user |
| AccountViews.GrantedEntriesDistinct | backend/accounts/views.py:250-261 | no page appears twice in a regular user's list |
| AccountViews.AccessibleOnePerRow | backend/accounts/views.py:222-263 | a non-superadmin gets exactly one entry per permission row; a superadmin gets every page with every flag |
| AccountViews.UserGrants | backend/accounts/views.py:560-568 | the map holds a page id iff the user has a row for it, with that row's flags |
| AccountViews.GrantsOnPages | backend/accounts/views.py:560-568 | the rows of one user restricted to existing pages, keyed by page id |
| AccountViews.GetUserPermissions | backend/accounts/views.py:555-571 | an unknown user is a 404; otherwise every row of the user is returned keyed by page id |
| AccountViews.CollectGrants | backend/accounts/views.py:561-567 | the loop collects exactly the user's rows on the pages it walks, each under its page id |
| AccountViews.GrantsOnEveryPage | backend/accounts/views.py:560-567 | with consistent tables, the rows found page by page are all of the user's rows |
| AccountViews.CommentUpdate | backend/accounts/views.py:158-177 | a missing or deleted comment is a 404, no flat edit permission a 403, otherwise the validated patch is saved with the actor as `modified_by` |
| AccountViews.CommentDelete | backend/accounts/views.py:179-199 | a missing comment is a 404, no flat delete permission a 403, otherwise the comment is soft-deleted and one DELETE history row with the old content is appended |
| AccountViews.NewestFirst | backend/accounts/models.py:171-172 | a comment's history holds exactly the rows of that comment |
| AccountViews.NewestFirstAppend | backend/accounts/models.py:171-172 | a row just written for the comment comes first in its history |
| AccountViews.NewestFirstAppendOther | backend/accounts/models.py:171-172 | a row written for another comment leaves this comment's history unchanged |
| AccountViews.CommentHistory | backend/accounts/views.py:202-219 | an unknown comment is a 404; the history is shown iff the caller has the flat view permission or the superadmin role; it holds exactly the comment's rows |
| AccountViews.DeleteShowsInHistory | backend/accounts/views.py:187-219 | after a soft delete, the comment's history starts with the DELETE row holding the old content |
| AccountViews.LoginSuperadmin | backend/accounts/views.py:748-768 | an unknown email or a wrong password is a 400 "Invalid credentials", a non-superadmin a 403; success returns the tokens and the serialized user |
| AccountViews.LoginUser | backend/accounts/views.py:770-790 | the mirror image: a superadmin is sent to the other login with a 403 |
| AccountViews.ExactlyOneEndpointIssues | backend/accounts/views.py:748-790 | with the right password exactly one of the two endpoints issues tokens, the superadmin one iff the role is superadmin; otherwise both refuse alike |
| AccountViews.CleanEmail | backend/accounts/serializers.py:56-70 | an email field is trimmed, refused as blank, then refused unless shaped like an address |
| AccountViews.CleanOtp | backend/accounts/serializers.py:64-70 | the code is trimmed, refused as blank, and refused when the trimmed code is over six characters |
| AccountViews.OtpTrimmedBeforeLength | backend/accounts/serializers.py:66 | "123456 " is accepted as "123456" |
| AccountViews.OtpBlankOrLongRefused | backend/accounts/serializers.py:66 | "" is refused as blank and "1234567" as too long |
| AccountViews.EmailTrimmed | backend/accounts/serializers.py:57 | " a@b.com" is cleaned to "a@b.com" |
| AccountViews.MalformedEmailRefused | backend/accounts/serializers.py:57 | "not-an-email" is a 400 "Enter a valid email address." |
| AccountViews.PasswordResetRequest | backend/accounts/views.py:321-336 | a malformed or blank email is a 400 from the serializer; an unknown cleaned email is refused; nothing changes on either; otherwise the user's code is regenerated and echoed back |
| AccountViews.VerifyOtpView | backend/accounts/views.py:339-354 | the email and then the code are cleaned (first failing field reported, 400); an unknown email raises; otherwise the window check decides on the cleaned code |
| AccountViews.PasswordResetConfirm | backend/accounts/views.py:357-378 | after email, code and password are cleaned, the password changes only for a user already verified whose code is accepted again; code and verified mark are then cleared |
| AccountViews.ConfirmReset | backend/accounts/views.py:367-371 | the reset happens iff the user is verified and the code is accepted again; then only the password, code and mark change; otherwise nothing changes |
| AccountViews.CleanPassword | backend/accounts/serializers.py:68-71 | a new password is accepted iff it is not blank, and is trimmed |
| AccountViews.ResetCannotBeReplayed | backend/accounts/views.py:367-371 | once a reset went through, the cleared code refuses every later confirmation |
| AccountViews.RequestPasswordReset | backend/accounts/views.py:795-817 | an unknown email is a 404; otherwise the code is stored in the user's `otp` field |
| AccountViews.LegacyVerifyOtp | backend/accounts/views.py:819-831 | an unknown email is a 404; otherwise the answer is success iff the stored `otp` equals the given one |
| AccountViews.ResetPasswordAsWritten | backend/accounts/views.py:833-851 | as written, the password is set whenever the stored `otp` equals the given one, absent values included |
| AccountViews.LegacyResetWithoutCode | backend/accounts/views.py:842 | a user with no pending code passes the check with a request that carries no code |
| AccountViews.PendingOtpRequired | backend/accounts/views.py:842-846 | the intended check passes only when a code is pending, and then agrees with the written comparison |
| AccountViews.ResetPassword | backend/accounts/views.py:833-851 | corrected: only a pending code presented back resets the password, and the code is consumed |
| PageViews.PageNamesAreChoices | backend/pages/views.py:11-22 | the page list equals the comment page choices, has ten entries and no duplicates |
| PageViews.PageUrl | backend/pages/views.py:51 | the url is "/" followed by the name with every underscore turned into a dash, so it has no underscore |
| PageViews.TitleKeepsNonLetters | backend/pages/views.py:50 | title casing leaves every non-letter in place |
| PageViews.PageDescription | backend/pages/views.py:50 | the description starts with "Page for " and has a space wherever the name has an underscore |
| PageViews.PageDescriptionTitleCase | backend/pages/views.py:50 | `str.title()`: after "Page for ", each character of the name is upper-cased when it starts a word (no letter before it) and lower-cased otherwise; underscores become spaces |
| PageViews.PermissionsFor | backend/pages/views.py:66-71 | each reported flag is the flat permission for that action |
| PageViews.PermissionsForRow | backend/pages/views.py:66-71 | for a non-superuser the flags are the page's row, or none when there is no row |
| PageViews.PermissionsForSameLookup | backend/pages/views.py:66-71 | the flags depend on the page table only through the page found by name |
| PageViews.FindOrCreatePage | backend/pages/views.py:44-52 | the page is found by name afterwards; an existing page changes nothing; otherwise one page with the derived description and url is appended |
| PageViews.LiveCommentsNewestFirst | backend/accounts/models.py:146-152 | the listed comments are exactly the live ones on the page below the id bound, in strictly descending id (creation) order |
| PageViews.ShownComments | backend/pages/views.py:55 | over consistent tables every live comment on the page is listed, newest first |
| PageViews.PageDetail | backend/pages/views.py:24-72 | an unknown name is a 404 before the permission check; no flat view permission is a 403; otherwise the page, its live comments newest first and the four flags |
| PageViews.OnlySuperusersCreatePages | backend/pages/views.py:36-52 | a missing page can be created by a detail request only for a superuser |
| PageViews.PagesList | backend/pages/views.py:74-106 | one element per page name, in order, each with the page found by that name and the caller's flags; existing pages are left alone; the pages added are exactly missing ones of the ten names, each with the derived description and url |
| PageViews.ListingStep | backend/pages/views.py:82-104 | one more loop step keeps every earlier element matching |
| PageViews.AddComment | backend/pages/views.py:108-131 | an unknown name is a 404, no flat create permission a 403; a body without `page_name` is a 400 and nothing is stored; otherwise the serializer as written decides and the comment is stored with the caller as author and the URL's page name |
| PageViews.AddCommentIntended | backend/pages/views.py:108-131 | the same gates; with the page name taken from the URL, any non-blank content is stored with the caller as author |
| PageViews.CommentDetailPut | backend/pages/views.py:139-159 | an unknown name or a comment not live on that page is a 404, no flat edit permission a 403, otherwise the patch is saved |
| PageViews.CommentDetailDelete | backend/pages/views.py:139-173 | the same lookups, then the flat delete permission; the comment is soft-deleted and no history row is written |
| CleanupRoles.ValidRolesAreChoices | backend/cleanup_invalid_roles.py:16 | the roles the script keeps are exactly the declared role choices |
| CleanupRoles.InvalidUsers | backend/cleanup_invalid_roles.py:16-17 | exactly the users whose role is neither "superadmin" nor "user" |
| CleanupRoles.CommentsAfter | backend/accounts/models.py:143-148 | the comments left are exactly those whose author remains; none keeps a `modified_by` of a removed user, and each is otherwise unchanged |
| CleanupRoles.HistoryAfter | backend/accounts/models.py:164-165 | a history row stays, in order, iff its actor remains and its comment remains |
| CleanupRoles.CascadeAll | backend/cleanup_invalid_roles.py:19-21 | the users left are the others, unchanged; permission rows stay iff their user stays; pages and id counters are unchanged |
| CleanupRoles.CommentsAfterStep | backend/cleanup_invalid_roles.py:21 | the comment cascade of one more user composes with the cascade of the users already removed |
| CleanupRoles.HistoryAfterStep | backend/cleanup_invalid_roles.py:21 | the history cascade of one more user composes with the cascade of the users already removed |
| CleanupRoles.CascadeStep | backend/cleanup_invalid_roles.py:19-21 | deleting one more user with its cascade gives the cascade of the larger set of users, so the order of deletions does not matter |
| CleanupRoles.CascadeNone | backend/cleanup_invalid_roles.py:15-22 | with no invalid user the tables are unchanged |
| CleanupRoles.ProgressStep | backend/cleanup_invalid_roles.py:19-21 | one deletion keeps the loop's progress invariant |
| CleanupRoles.CleanupInvalidRoles | backend/cleanup_invalid_roles.py:15-22 | the final tables are exactly the cascade of deleting every user with an invalid role: their permission rows and comments go, their `modified_by` marks are cleared, history rows by them or of removed comments go; every user left has a valid role, every valid user and their rows are untouched; the count is the number of users removed |
| CreateUserCommand.GenerateStrongPassword | backend/accounts/management/commands/create_user.py:48-54 | twelve characters from the alphabet, starting with an upper-case letter, a lower-case letter, a digit and a special character |
| CreateUserCommand.PasswordHasEveryKind | backend/accounts/management/commands/create_user.py:52-53 | every generated password has a character of each of the four kinds |
| CreateUserCommand.RoleArgument | backend/accounts/management/commands/create_user.py:14 | an absent role is "user"; a given role is accepted iff it is "user" or "superadmin" |
| Text.ReplaceAll | backend/pages/views.py:50-51 | Python's replace changes every occurrence and nothing else |
| Text.TrimEmptyIffBlank | backend/accounts/serializers.py:135-153 | trimming gives the empty string iff the text is white space only |
| Text.ParseIntNatToString | frontend/src/services/sessionManager.js:21-26 | printing a time stamp and parsing it back gives the same number |
| Js.ErrorText | frontend/src/components/UserLogin.js:35 | the message is the response's non-empty `error`, or the fallback when there is none or it is empty |
| Storage.TextOf | frontend/src/services/api.js:14-15 | a key yields text iff it holds non-empty plain text, and then exactly that text |
| Storage.StoredUser | frontend/src/components/PermissionContext.js:19 | the parsed user is present iff an object is stored under `user`, and it is that object |
| Storage.LocalStorage.SetItem | frontend/src/services/api.js:37 | the key takes the new value; every other key is unchanged |
| Storage.LocalStorage.RemoveItem | frontend/src/services/api.js:43-45 | the key is gone (a no-op when absent); every other key is unchanged |
| Api.Bearer | frontend/src/services/api.js:16 | the header is "Bearer ", one space, then exactly the token |
| Api.AttachToken | frontend/src/services/api.js:12-23 | Authorization is set iff a non-empty token is stored (or was already present), to the bearer form of that token; every other header is kept and none is added |
| Api.OnResponseError | frontend/src/services/api.js:26-58 | only a 401 acts; the refresh endpoint is called iff a refresh token is stored; a successful refresh stores the new token and re-sends with it; otherwise token, refresh token and user are removed and the page goes to /login; any other status leaves storage alone |
| Api.RefreshCalls | frontend/src/services/api.js:39-40 | a request answered only by 401s causes one refresh per answer; `RefreshesMadeWhenAllSucceed` ties it to the interceptor loop |
| Api.SendRequest | frontend/src/services/api.js:26-58 | one request re-sent while the error handler answers with a re-send: the refresh calls are `RefreshesMade`, the page goes to /login iff the attempts end in the logout, which leaves storage without token, refresh token and user; otherwise storage is unchanged or holds the last refreshed token |
| Api.RefreshesMade | frontend/src/services/api.js:29-47 | at most one refresh per attempt, and none without a stored refresh token |
| Api.RefreshesMadeWhenAllSucceed | frontend/src/services/api.js:33-40 | with a refresh token stored and every refresh succeeding, the calls made are `RefreshCalls` and the request never logs out |
| Api.FailedRefreshStops | frontend/src/services/api.js:41-46 | a refresh that fails after j successful ones is call j+1, the last one, and the attempts end in the logout |
| Api.RetriesAreUnbounded | frontend/src/services/api.js:39-40 | k answers of 401 before a success cost k refreshes, for every k |
| Api.SendRequestRetriesUnbounded | frontend/src/services/api.js:39-40 | through the interceptor loop, k answers of 401 before a 200 with successful refreshes make k refresh calls and no logout, for every k |
| Api.RefreshedTokenIsAttached | frontend/src/services/api.js:37-40 | after a refresh, the next request's header is built from the new token |
| SessionManager.LastActivity | frontend/src/services/sessionManager.js:26 | a missing stamp reads as 0, a stored object as NaN, plain text as its integer prefix |
| SessionManager.Idle | frontend/src/services/sessionManager.js:26-29 | the idle time is the current time minus the stamp, undefined exactly when the stamp is NaN |
| SessionManager.UpdateLastActivity | frontend/src/services/sessionManager.js:21-23 | the activity stamp becomes the decimal text of the time; nothing else changes |
| SessionManager.Logout | frontend/src/services/sessionManager.js:54-58 | token, refresh token and stamp are removed, the stored user is kept |
| SessionManager.CheckSession | frontend/src/services/sessionManager.js:25-52 | over an hour idle: logout and the expired-session page; between half an hour and an hour with a refresh token: the refresh is called, storing the new token or logging out to /login; otherwise nothing changes |
| SessionManager.StampKeepsSessionForAnHour | frontend/src/services/sessionManager.js:60-64 | after stamping at t, the session is authenticated iff a token is stored and at most an hour has passed since t |
| SessionManager.NoStampMeansEpoch | frontend/src/services/sessionManager.js:60-64 | with no stamp the session counts from time 0 |
| PermissionContext.CheckPermission | frontend/src/components/PermissionContext.js:18-42 | a stored superuser may do anything; a page missing from the cache allows nothing; a cached row is read by the backend's hierarchical rule |
| PermissionContext.ClientLadder | frontend/src/components/PermissionContext.js:29-41 | delete allows edit, edit allows view, create allows view, for every user and cache |
| PermissionContext.PermissionProvider.constructor | frontend/src/components/PermissionContext.js:14-16 | the cache starts empty, loading, with no error |
| PermissionContext.PermissionProvider.RefreshPermissions | frontend/src/components/PermissionContext.js:44-63 | an ok answer replaces the cache and clears the error; a non-ok answer changes nothing; a thrown error sets the message; loading ends either way |
| AuthContext.SessionOf | frontend/src/contexts/AuthContext.js:55-57 | a login writes token, refresh token and the user object, and leaves every other key as it was |
| AuthContext.AuthState.constructor | frontend/src/contexts/AuthContext.js:16-18 | no user, loading, not authenticated |
| AuthContext.AuthState.CheckAuthStatus | frontend/src/contexts/AuthContext.js:24-47 | the profile is fetched iff a token is stored; success sets the user; only a 401 clears the three keys and the user; other failures change nothing; no token means no user |
| AuthContext.AuthState.Establish | frontend/src/contexts/AuthContext.js:55-60 | storage becomes the login session of the body and the user is set and authenticated |
| AuthContext.AuthState.Login | frontend/src/contexts/AuthContext.js:49-85 | the superadmin endpoint is tried first and the user endpoint only after it fails; the first success is stored; when both fail nothing changes and the second failure's message (or "Invalid credentials") is returned |
| AuthContext.AuthState.Logout | frontend/src/contexts/AuthContext.js:87-94 | the three auth keys are removed, the user is cleared and the page goes to /login |
| AuthContext.LoginLeavesActivity | frontend/src/contexts/AuthContext.js:55-57 | a context login neither writes nor removes the activity stamp |
| LoginForms.FormSession | frontend/src/components/SuperAdminLogin.js:29-31 | a form login writes token, refresh token and the stamp, and leaves every other key, `user` included, as it was |
| LoginForms.LoginForm.constructor | frontend/src/components/SuperAdminLogin.js:5-6 | no error, not loading |
| LoginForms.LoginForm.Store | frontend/src/components/SuperAdminLogin.js:29-31 | storage becomes the form session of the body at that time |
| LoginForms.LoginForm.SubmitSuperAdmin | frontend/src/components/SuperAdminLogin.js:13-39 | a non-superadmin answer is refused with its message and nothing stored; a superadmin one is stored and goes to /admin; a failure shows the server's error or the fallback |
| LoginForms.LoginForm.SubmitUser | frontend/src/components/UserLogin.js:13-39 | the mirror image: a superadmin is sent to the other page with nothing stored, anyone else is stored and goes to /dashboard |
| LoginForms.FormLoginKeepsUser | frontend/src/components/UserLogin.js:29-31 | a form login never writes or removes the stored user |
| Navbar.RoleLabel | frontend/src/components/Navbar.js:99 | the badge is "Super Admin" iff the role is superadmin, else "User" |
| Navbar.ActiveLinks | frontend/src/components/Navbar.js:84-88 | a link is highlighted iff the current path is its url |
| Navbar.NavbarState.constructor | frontend/src/components/Navbar.js:39-42 | no pages, loading, no error, no user |
| Navbar.NavbarState.LoadUser | frontend/src/components/Navbar.js:46-50 | a stored user becomes the bar's user; without one nothing changes |
| Navbar.NavbarState.FetchAccessiblePages | frontend/src/components/Navbar.js:61-73 | success replaces the links and shows them; failure keeps them hidden behind the error |
| Navbar.NavbarState.HandleLogout | frontend/src/components/Navbar.js:54-59 | the three auth keys are removed, the activity stamp kept, and the page goes to /login |
| ForgotPassword.ForgotPasswordForm.constructor | frontend/src/components/ForgotPassword.js:7-13 | empty fields, step 1, no error, not loading |
| ForgotPassword.ForgotPasswordForm.Edit | frontend/src/components/ForgotPassword.js:83-131 | typing sets the four fields and leaves the step alone |
| ForgotPassword.ForgotPasswordForm.HandleEmailSubmit | frontend/src/components/ForgotPassword.js:16-29 | success advances to step 2; failure stays at step 1 with the server's error or the fallback |
| ForgotPassword.ForgotPasswordForm.HandleOtpSubmit | frontend/src/components/ForgotPassword.js:31-44 | success advances to step 3; failure stays at step 2 with its message |
| ForgotPassword.ForgotPasswordForm.HandlePasswordSubmit | frontend/src/components/ForgotPassword.js:46-69 | mismatched passwords send nothing; otherwise the request carries e-mail, code and new password, and success goes to /login |
| AdminDashboard.PermissionLabel | frontend/src/components/AdminDashboard.js:157-165 | the label is one of six; "Full Access" iff the role is superadmin; no object means "No Access" |
| AdminDashboard.PermissionColor | frontend/src/components/AdminDashboard.js:167-175 | a superadmin gets the delete colour |
| AdminDashboard.ColorFollowsLabel | frontend/src/components/AdminDashboard.js:157-175 | the badge colour is always the colour of the badge label |
| AdminDashboard.LabelFollowsLevel | frontend/src/components/AdminDashboard.js:157-165 | on short-key objects the label is the backend's permission level of the same flags |
| AdminDashboard.StoredGrantLabelledNoAccess | frontend/src/components/AdminDashboard.js:228-238 | any stored `can_*` object is labelled "No Access" for a user who is not a superadmin |
| AdminDashboard.PayloadGrant | frontend/src/components/AdminDashboard.js:85-92 | each flag sent is the truthiness of the short key |
| AdminDashboard.PayloadOfShortKeys | frontend/src/components/AdminDashboard.js:85-92 | a grant written with short keys is sent unchanged |
| AdminDashboard.WithPermission | frontend/src/components/AdminDashboard.js:96-112 | only the matching user changes, and only in the one page's entry |
| AdminDashboard.WithDefaults | frontend/src/components/AdminDashboard.js:36-39 | every user is kept field for field, an absent permission map becoming empty |
| AdminDashboard.NewUserBody | frontend/src/components/AdminDashboard.js:57-64 | the username is the e-mail up to its first '@' (all of it when there is none) |
| AdminDashboard.CheckedFlags | frontend/src/components/AdminDashboard.js:344 | no entry shows every box unticked; an entry shows each box as the truthiness of its `can_*` key |
| AdminDashboard.CheckedFlagsReadCanKeys | frontend/src/components/AdminDashboard.js:344 | an entry stored with `can_*` keys shows its grant; one stored with the short keys shows every box unticked |
| AdminDashboard.SetFlag | frontend/src/components/AdminDashboard.js:346-349 | exactly the named flag takes the new value |
| AdminDashboard.ToggleClearsOtherFlags | frontend/src/components/AdminDashboard.js:344-350 | as written, a toggle sends only the ticked flag; the other three are sent as false whatever the row held |
| AdminDashboard.ToggleWithdrawsView | frontend/src/components/AdminDashboard.js:344-350 | ticking edit on a view-only row sends edit without view |
| AdminDashboard.IntendedToggle | frontend/src/components/AdminDashboard.js:344-350 | corrected: the payload is the ticked boxes with the one flag changed |
| AdminDashboard.IntendedToggleKeepsOthers | frontend/src/components/AdminDashboard.js:344-350 | corrected: the three untouched flags are sent as the boxes show them |
| AdminDashboard.Dashboard.constructor | frontend/src/components/AdminDashboard.js:7-20 | empty lists, panel closed, loading, the initial form |
| AdminDashboard.Dashboard.FetchData | frontend/src/components/AdminDashboard.js:26-49 | both lists must arrive; then users get defaults and a missing page list is empty; otherwise the lists stay and the error is set |
| AdminDashboard.Dashboard.HandleCreateUser | frontend/src/components/AdminDashboard.js:51-80 | the body is built from the form; success refetches, resets the form, closes the panel and shows the password; failure keeps the form with the message |
| AdminDashboard.Dashboard.HandleUpdatePermissions | frontend/src/components/AdminDashboard.js:82-119 | the payload carries the short-key flags; success updates the local copy then refetches; failure changes no list |
| AdminDashboard.Dashboard.HandleDeleteUser | frontend/src/components/AdminDashboard.js:121-139 | nothing happens unless confirmed; a success message triggers a refetch that replaces it; failure shows the message |
| AdminDashboard.Dashboard.OpenRightPanel | frontend/src/components/AdminDashboard.js:141-155 | the panel opens with the user's fields (role defaulting to "user", password empty) or the initial form |
| AdminDashboard.Dashboard.ToggleFlag | frontend/src/components/AdminDashboard.js:344-350 | corrected checkbox: the payload keeps every other flag as the boxes show it |
| CommentLists.Prepend | frontend/src/components/CommentSystem.js:60 | the new comment is first and the old list follows unchanged |
| CommentLists.ReplaceById | frontend/src/components/CommentSystem.js:88-90 | every comment with the id is replaced, every other kept, in place |
| CommentLists.FilterById | frontend/src/components/CommentSystem.js:116 | exactly the comments with another id remain |
| CommentLists.FilterKeepsOrder | frontend/src/components/CommentSystem.js:116 | filtering a concatenation filters each part, so order is kept |
| CommentLists.FilterAbsentId | frontend/src/components/CommentSystem.js:116 | deleting an id nobody has changes nothing |
| CommentLists.DeleteAfterEdit | frontend/src/components/CommentSystem.js:88-116 | deleting an edited comment gives the same list as deleting it unedited |
| CommentLists.AddThenDeleteOther | frontend/src/components/CommentSystem.js:60-116 | deleting another id after an add keeps the added comment first |
| CommentSystem.FailureText | frontend/src/components/CommentSystem.js:63-69 | a non-ok answer gives its error or the fallback; a thrown error gives the thrown message |
| CommentSystem.CommentPanel.constructor | frontend/src/components/CommentSystem.js:9-14 | empty list and fields, loading, no error |
| CommentSystem.CommentPanel.FetchComments | frontend/src/components/CommentSystem.js:21-41 | an ok answer replaces the list; a non-ok answer and a thrown error set their own messages; loading ends |
| CommentSystem.CommentPanel.HandleAddComment | frontend/src/components/CommentSystem.js:44-70 | a blank comment sends nothing; success puts the new comment first and clears the field; failure keeps both |
| CommentSystem.CommentPanel.HandleEditComment | frontend/src/components/CommentSystem.js:73-101 | blank text sends nothing; success replaces the comment and leaves edit mode; failure keeps the list |
| CommentSystem.CommentPanel.HandleDeleteComment | frontend/src/components/CommentSystem.js:104-125 | nothing is sent unless confirmed; success removes exactly that id |
| CommentSystem.CommentPanel.StartEditing | frontend/src/components/CommentSystem.js:128-131 | edit mode on that comment with its content |
| CommentSystem.CommentPanel.CancelEditing | frontend/src/components/CommentSystem.js:134-137 | edit mode off, text cleared, list unchanged |
| CommentSection.NothingBeforePermissions | frontend/src/components/Comments/CommentSection.js:17-22 | before the flags arrive no edit or delete control shows |
| CommentSection.SuperuserDeletesOthers | frontend/src/components/Comments/CommentSection.js:220-232 | a superuser sees delete but not edit on someone else's comment |
| CommentSection.RenderHistory | frontend/src/components/Comments/CommentSection.js:115-131 | no records means no history; otherwise the first is the original and the rest follow in order |
| CommentSection.RenderView | frontend/src/components/Comments/CommentSection.js:133-135 | spinner iff loading; the error next; the comments iff not loading, no error and view allowed |
| CommentSection.Section.constructor | frontend/src/components/Comments/CommentSection.js:10-22 | empty list, loading, no history, no flags |
| CommentSection.Section.FetchComments | frontend/src/components/Comments/CommentSection.js:25-35 | success replaces the list, failure sets the message; loading ends |
| CommentSection.Section.FetchPermissions | frontend/src/components/Comments/CommentSection.js:37-50 | success sets all four flags; failure sets the message |
| CommentSection.Section.FetchCommentHistory | frontend/src/components/Comments/CommentSection.js:57-67 | only that comment's cache entry changes; failure changes nothing |
| CommentSection.Section.HandleAddComment | frontend/src/components/Comments/CommentSection.js:69-83 | blank sends nothing; success prepends; failure keeps list and field |
| CommentSection.Section.HandleEditComment | frontend/src/components/Comments/CommentSection.js:85-103 | blank sends nothing and changes nothing; success replaces the comment, leaves edit mode and refetches its history; failure sets the error and stays in edit mode |
| CommentSection.Section.HandleDeleteComment | frontend/src/components/Comments/CommentSection.js:105-113 | success removes exactly that id; failure keeps the list |
| AppRoutes.RoutePath | frontend/src/App.js:56 | "/" then the name with only its first '_' turned into '-' |
| AppRoutes.ReplaceFirstSplit | frontend/src/App.js:56 | everything after the first underscore is kept as it is |
| AppRoutes.OfferPricingRoute | frontend/src/App.js:18-56 | offer_pricing_skus routes at /offer-pricing_skus |
| AppRoutes.RoutePathInjective | frontend/src/App.js:53-63 | names without '-' with the same route path are equal |
| AppRoutes.RoutePathsDistinct | frontend/src/App.js:13-63 | the ten pages get ten different routes |
| AppRoutes.RoutePaths | frontend/src/App.js:53-63 | one route path per page, in the pages' order, each that page's own |
| AppRoutes.FindPath | frontend/src/App.js:53-63 | the first position holding the path, none before it; -1 exactly when no route is the path |
| AppRoutes.Resolve | frontend/src/App.js:35-65 | "/" redirects to /admin; a page route's path is that page's route; any other path has no route |
| AppRoutes.FindPathFindsIt | frontend/src/App.js:53-63 | among distinct paths, the search finds each path at its own position |
| AppRoutes.FindsOwnRoute | frontend/src/App.js:53-63 | with distinct routes, a page's own route path finds that page |
| AppRoutes.EveryPageRoutes | frontend/src/App.js:53-63 | every dynamic page is reached at its own route |
| Consistency.ClientCheckMatchesServer | frontend/src/components/PermissionContext.js:28-41 | for an active non-superuser whose row is cached, the client and the server edge-case check agree on every action |
| Consistency.StoredLoginUserIsNeverSuperuser | frontend/src/components/PermissionContext.js:19-22 | after either login, the stored user never triggers the superuser bypass or the History button |
| Consistency.ServerSuperuserNotSeenByClient | frontend/src/components/PermissionContext.js:22 | a Django superuser gets nothing from the client check on an empty cache |
| Consistency.LogoutPathsDiffer | frontend/src/services/sessionManager.js:54-58 | the session manager's logout keeps `user`; the other logouts keep `last_activity` |
| Consistency.SessionLogoutKeepsStoredUser | frontend/src/services/sessionManager.js:54-58 | after that logout the stored user is unchanged while the session is over |
| Consistency.EveryLogoutEndsSession | frontend/src/services/sessionManager.js:60-64 | either kind of logout leaves the session unauthenticated |
| Consistency.UrlMatchesRouteWithOneUnderscore | frontend/src/App.js:56 | server url and client route agree for names with at most one underscore |
| Consistency.OfferPricingUrlHasNoRoute | frontend/src/App.js:56 | the url the server gives an offer_pricing_skus page it creates on demand, /offer-pricing-skus, has no client route |

## Left out

- HTTP transport, JSON encoding and the Django request/response machinery: each call is a parameter carrying the answer the server gives; page navigation is an output path.
- The timers and event listeners of `setupActivityListeners` (frontend/src/services/sessionManager.js:10-19): the clock is a parameter of each step, and nothing models the interleaving of the periodic check with user activity.
- Concurrency: two refreshes, or a refetch racing a handler, are not modelled; each handler runs to completion on the state it starts from.
- JWT issuing and verification, password hashing, `authenticate` and `send_mail`: tokens are opaque strings, a password is compared as stored, and sending the e-mail is left out.
- Randomness: the one-time code and the password generator's characters are inputs; `GenerateStrongPassword` takes the four required characters and the rest as arguments.
- The 300-second cache of `get_user_permissions_cached` and every other Django cache: lookups always read the tables.
- `my_permissions_view` and `users_table_view`, which refer to names that do not exist in their module and cannot run; `profile_view`, `profile_update`, `users_list`, `create_user`, `update_user` and the `UserViewSet`/`PageViewSet` list views beyond `destroy`: not part of this model.
- The URL routing tables and the data migration that seeds the pages; `backend/create_sample_users.py` is not part of this model.
- Presentation: markup, CSS classes other than the permission badge colour, tooltips, date formatting with `moment`, spinners and alerts beyond which one renders.
- PermissionContext.PermissionProvider.RefreshPermissions: the answer's decoding and the `access_token` header it sends are abstracted into the reply parameter; the model does not capture that the header is always "Bearer null".
- JavaScript `||` on non-boolean operands: flags are read through truthiness and the result is a boolean, where the source may keep the operand itself.
- The axios interceptor is also applied to the login and password-reset calls; the model applies it only where its effect is stated.
- The `handle` method of `create_user` (argument parsing, the database write and printing); only the role argument and the password generator are modelled.
- The `user` entry holds JSON text in the browser; the model stores the object itself, so `JSON.parse` of it gives back the object, and malformed JSON is not modelled.
- AdminDashboard.PermissionColor: only the superadmin case is stated on its own; the rest is stated through `ColorFollowsLabel`.
- Text.Trim and Text.IsSpace: only ASCII white space is trimmed, where Python's `str.strip` and Django REST framework's `trim_whitespace` also remove other Unicode spaces.
- Text.ParseInt: JavaScript `parseInt` without a radix reads a `0x` prefix as hexadecimal; the model reads only decimal digits, so "0x10" gives 0 where the browser gives 16. The stored activity time is always written in decimal, so this never arises on the modelled paths.
- Text.Trim and Text.IsSpace on the browser side: JavaScript white space also includes Unicode spaces and line terminators beyond ASCII; only ASCII white space is modelled.
- AppRoutes.Resolve: paths match exactly and case-sensitively; React Router's case-insensitive matching and its tolerance of a trailing slash are not modelled.
- Serializers.ValidateBulkPermission, Serializers.ApplyProfilePatch and the password-reset views report only the first field in error, where Django REST framework collects an error for every field.
- AccountViews.CleanEmail: Django's `EmailValidator` is approximated by `PlausibleEmail` (no space, one `@` with text before it, and a domain that is `localhost` or contains an inner dot); its full user-part and domain grammar and the internationalised-domain retry are not modelled.
- Serializers.CleanUsername: the characters Django's username validator accepts are restricted to ASCII letters and digits plus `@.+-_`, and its several messages (blank, too long, invalid, taken) keep their field but not all of their wording; `username` itself comes from Django's `AbstractUser`.
- Serializers.ApplyProfilePatch: `date_of_birth` is taken as an already parsed day number; the parsing of the date text and its error are not modelled.
- PageViews.LiveCommentsOn: `created_at` order is modelled by comment id, which grows with each comment created; comments created in the same instant are ordered by id, where the database leaves their order open.
- Models.SortByName: names are compared code point by code point, as PostgreSQL's "C" collation and SQLite do; a locale collation of the database is not modelled.
- CommentSystem.FailureText: the non-ok branch reads `errorData.error` from the response body; a body that is not JSON (which throws) is modelled as a non-ok answer without an error.

## Findings

| source | as written | input that shows it | evidently intended | confidence | as-written member | corrected member |
|---|---|---|---|---|---|---|
| backend/accounts/views.py:833-851 | the password is reset when the stored `otp` equals the given one, and `None == None` passes (this view is not routed in backend/accounts/urls.py) | a user with no pending code and a request without `otp` | a reset needs a pending code that the request presents | not executed | AccountViews.LegacyResetWithoutCode | AccountViews.PendingOtpRequired |
| frontend/src/components/AdminDashboard.js:344-350 | the checkbox spreads the stored entry (keys `can_*`, or nothing) and sets the short key, while the payload at lines 85-92 reads only the short keys | a user granted view on a page; the superadmin ticks edit | the other three flags are sent as the checkboxes show them | not executed | AdminDashboard.ToggleWithdrawsView | AdminDashboard.IntendedToggleKeepsOthers |
| backend/pages/views.py:127-131 | the comment serializer requires `page_name` in the body (backend/accounts/serializers.py:147-153), but the widgets send only `content` and the view passes the page name only to `save`; `PageViews.AddComment` models the view with this serializer and `PageViews.AddCommentIntended` with the corrected one | a POST of `{"content": "hello"}` to a page the user may create on | the page name comes from the URL and a content-only body is accepted | not executed | Serializers.ContentOnlyBodyRefused | Serializers.CommentCreateUsesUrlPage |
