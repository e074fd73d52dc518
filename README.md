# Community app domain model

A Dafny model of the domain logic of a community and social-network web
application. The backend is an Express server over MongoDB collections of
users, posts, comments, communities, moderation reports and activity logs.
The frontend is a React application whose client state lives in Redux slices.

The model keeps each handler's decisions: the checks it makes, the status it
answers and the documents it writes. The database is replaced by in-memory
stores.

- Each collection keyed by `_id` is a `map<Id, Record>` field of a class.
  The class's methods are the handlers and say exactly how the store changes.
- Where a handler depends on the order of a query result (`findOne`, `find`),
  the collection is also given as a sequence in natural order.
- Pure checks and computations are functions. Their properties are lemmas:
  - vote toggling;
  - pagination;
  - comment threading;
  - report visibility;
  - user-agent classification;
  - the e-mail pattern;
  - form validation.
- The Redux slices are classes whose fields are the slice's state and whose
  methods are the reducers. Each method states the whole new state as
  `View() == old(View()).(...)`.
- Network answers, the clock, the upload service, URL parsing, password
  hashing and token verification are parameters.

Modules, one per file:

| module | models |
|---|---|
| `Common` | JavaScript truthiness and `||` defaults; `pull`/`filter`, `addToSet`, `slice`; `trim`, `toLowerCase`, `includes` |
| `PostSchema` | the post schema: defaults, enums, required paths |
| `PostVotes` | toggling upvotes and downvotes |
| `PostController` | creating, editing and deleting posts, author-only |
| `Users` | the duplicate email/phone lookup shared by registration and the profile edits |
| `Accounts` | registration checks, code verification, password change, profile update with its social-link rules |
| `SocialGraph` | following with paired lists and counters, follower/following pages |
| `SetFollow` | the add-to-set/pull variant of following |
| `Communities` | creating, updating, joining, leaving, moderators |
| `CommunityRoutes` | the same handlers behind the bearer-token guard |
| `Comments` | adding, threading, editing and recursively deleting comments |
| `Reports` | filing, listing, opening and acting on moderation reports |
| `Admin` | the admin's role change and profile edit |
| `LogActivity` | user-agent classification and the record the logger appends |
| `ActivityLog` | the recent-50 window, the admin listing with filters, clearing a log |
| `Contact` | contact-form validation |
| `AdminSlice`, `AuthSlice`, `UserSlice`, `SearchSlice` | the four Redux slices |
| `CreatePostForm` | the create-post page's validation and request body |
| `ProtectedRoute` | the route guard's decision |

## Model

| member | source | states |
|---|---|---|
| PostSchema.Build | backend/models/post.model.js:3-78 | a draft is refused exactly when some path fails; a stored post has a non-empty title of at most 300 characters, a non-empty body when it is a text or link post, empty vote lists, zero comments, type `text`, status `active` and url `""` by default |
| PostSchema.BodyOptionalForMedia | backend/models/post.model.js:10-15 | an image or video post with a valid title and author is stored without a body |
| PostSchema.TextPostNeedsBody | backend/models/post.model.js:10-15 | a text or link post (including the default type) without a body is refused, with `body` among the failing paths |
| PostVotes.Upvote | backend/controllers/post.controller.js:110-117 | the user ends among the upvoters iff they were not; a withdrawn upvote leaves the downvotes alone; the user is never in both lists; every other user's occurrences are unchanged |
| PostVotes.Downvote | backend/controllers/post.controller.js:134-141 | the mirror image of an upvote |
| PostVotes.DownvoteMirrorsUpvote | backend/controllers/post.controller.js:110-141 | a downvote is an upvote with the two lists exchanged |
| PostVotes.UpvoteTwiceRestores | backend/controllers/post.controller.js:110-117 | for a user who had not voted, two upvotes restore both lists |
| PostVotes.DownvoteTwiceRestores | backend/controllers/post.controller.js:134-141 | likewise for two downvotes |
| PostVotes.UpvoteThenDownvote | backend/controllers/post.controller.js:110-141 | an upvote then a downvote leaves the user among the downvoters only |
| PostVotes.VotesKeepListsDuplicateFree | backend/controllers/post.controller.js:110-141 | votes keep duplicate-free voter lists duplicate-free |
| PostVotes.PostCollection.UpvotePost | backend/controllers/post.controller.js:103-124 | 404 and no change for an unknown post; otherwise 200 and the post's lists become those of `Upvote` |
| PostVotes.PostCollection.DownvotePost | backend/controllers/post.controller.js:127-148 | 404 and no change for an unknown post; otherwise 200 and the lists of `Downvote` |
| PostController.Media | backend/controllers/postController.js:68-80 | an uploaded file sets the URL and the type `image`; without a file the old media stay |
| PostController.PostStore.CreatePost | backend/controllers/postController.js:5-52 | a failed upload answers 500 and stores nothing; a missing or empty title or body fails validation inside the unawaited save, so nothing is stored and no answer is sent; otherwise 201 and a post by the caller with media `("", none)`, or the upload's URL and `image` |
| PostController.PostStore.UpdatePost | backend/controllers/postController.js:56-103 | 404 for an unknown post, 403 for a non-author, both without change; for the author an empty title or body keeps the stored one and the media come from `Media` |
| PostController.PostStore.DeletePost | backend/controllers/postController.js:107-124 | 404 for an unknown post, 403 and no change for a non-author; for the author exactly that post is removed |
| Users.FirstClash | backend/controllers/user.controller.js:126-128 | the position of the first document, in natural order, that holds the email or the phone (another user's, when a user is excluded) |
| Users.DuplicateField | backend/controllers/user.controller.js:131 | `email` when the emails agree ignoring case, otherwise `phone` |
| Users.DuplicateOf | backend/controllers/user.controller.js:523-536 | a duplicate is reported iff some document clashes |
| Users.DuplicateIffTaken | backend/controllers/user.controller.js:523-529 | the check refuses exactly a value another user holds |
| Accounts.RegisterCheck | backend/controllers/user.controller.js:120-133 | 400 iff a required field is missing or blank or the password is shorter than 8; otherwise a duplicate iff the lookup finds a user with the email or phone, naming the field it reports; accepted iff the fields pass and no user clashes |
| Accounts.BlankFieldRefused | backend/controllers/user.controller.js:123 | a white-space-only field is refused like a missing one |
| Accounts.RegisteredGender | backend/controllers/user.controller.js:141 | the given gender, or `not specified` |
| Accounts.Verified | backend/controllers/user.controller.js:320-323 | verified, no code, no expiry; the refresh token set only when one is given; nothing else changes |
| Accounts.CodeWorksOnce | backend/controllers/user.controller.js:309-323 | once used, no code matches again |
| Accounts.LinksAccepted | backend/controllers/user.controller.js:539-565 | all links pass iff each non-empty one parses as https with a host containing `<platform>.com` (any host for `website`) |
| Accounts.HttpLinkRefused | backend/controllers/user.controller.js:546-548 | a plain-http link is refused for every platform |
| Accounts.SubdomainAccepted | backend/controllers/user.controller.js:551-553 | an `https:` link passes for a platform whenever `<platform>.com` occurs anywhere in its host name, a subdomain or an embedding host alike |
| Accounts.ProfileCheck | backend/controllers/user.controller.js:517-565 | 400 iff username, email or phone is missing; then a duplicate iff another user clashes, naming the field the lookup reports; then 403 iff a link is refused; accepted iff all three fields are present, no other user clashes and every link is accepted |
| Accounts.ProfileApplied | backend/controllers/user.controller.js:570-574 | the stored user takes the form's username, email, phone and links, and its gender and bio when given (an absent one keeps the stored value); every other field, password, role and both follow lists included, stays |
| Accounts.OwnRecordIsNoDuplicate | backend/controllers/user.controller.js:523-526 | the user's own email and phone never count as a duplicate |
| Accounts.AccountStore.constructor | backend/controllers/user.controller.js:115 | the store starts with the given users |
| Accounts.AccountStore.FindByEmail | backend/controllers/user.controller.js:293-299 | the user with that email, or none when no user has it |
| Accounts.AccountStore.VerifyOtpForUser | backend/controllers/user.controller.js:291-325 | 400 without change for a missing email or code, an unknown user, a wrong code or an expired one; otherwise 200 and that user becomes `Verified` |
| Accounts.AccountStore.VerifyEmail | backend/controllers/user.controller.js:1034-1064 | 400 without a code, 404 for an unknown user, and 400 for an already verified user, a wrong code or an expired one, all without change; otherwise the user becomes `Verified` |
| Accounts.AccountStore.ChangeCurrentPassword | backend/controllers/user.controller.js:457-500 | 400 iff a field is missing or the new password is shorter than 8; 200 iff, in addition, the user exists, the old password checks and the confirmation matches; only then is exactly the password replaced, and otherwise nothing changes |
| Accounts.AccountStore.UpdateUserProfile | backend/controllers/user.controller.js:505-590 | the answer follows `ProfileCheck`; the user becomes `ProfileApplied` only on acceptance |
| SocialGraph.FollowKeepsConsistent | backend/controllers/user.controller.js:777-781 | following a user not yet followed keeps the lists duplicate-free, the edges paired and the counters equal to the list lengths |
| SocialGraph.UnfollowedShape | backend/controllers/user.controller.js:815-824 | unfollowing removes the target from the follower's list and the follower from the target's, decrementing both counters, and changes no one else |
| SocialGraph.UnfollowKeepsConsistent | backend/controllers/user.controller.js:815-824 | unfollowing a followed user keeps the graph consistent |
| SocialGraph.FollowThenUnfollowRestores | backend/controllers/user.controller.js:777-824 | a follow and then an unfollow restore every user exactly |
| SocialGraph.UserGraph.constructor | backend/controllers/user.controller.js:757 | the graph starts with the given users |
| SocialGraph.UserGraph.FollowUser | backend/controllers/user.controller.js:757-801 | 400 for a self-follow and 404 for an unknown target, both without change; 400 and no change when already following; otherwise the follow; consistency is kept |
| SocialGraph.UserGraph.UnfollowUser | backend/controllers/user.controller.js:804-844 | 404 for an unknown target, 400 without change when not following; otherwise the unfollow; consistency is kept |
| SocialGraph.Populated | backend/controllers/user.controller.js:849-853 | the listed ids that still name a user, in their listed order and each as often as it is listed; the others are dropped |
| SocialGraph.CeilDiv | backend/controllers/user.controller.js:864 | the least page count covering the list, 0 for an empty list, none for a zero page size |
| SocialGraph.PageContents | backend/controllers/user.controller.js:856-861 | page `p` of size `l` holds exactly the items at positions `(p-1)*l` up to `p*l` |
| SocialGraph.PagesBeyondTotalAreEmpty | backend/controllers/user.controller.js:856-865 | pages after `totalPages` are empty |
| SocialGraph.PagesCoverList | backend/controllers/user.controller.js:856-865 | reading pages 1 to `totalPages` gives back the whole list in order |
| SocialGraph.FirstPagesPrefix | backend/controllers/user.controller.js:856-861 | the first `k` pages are the list's first `k*l` items |
| SocialGraph.UserGraph.GetUserFollowers | backend/controllers/user.controller.js:847-868 | 404 iff the user is unknown; otherwise the requested page of the populated followers |
| SocialGraph.UserGraph.GetUserFollowing | backend/controllers/user.controller.js:871-892 | the same for the followed users |
| SetFollow.FollowedShape | backend/controllers/userController.js:75-81 | the target is added once to the follower's list and the follower once to the target's; nothing else changes |
| SetFollow.UnfollowedShape | backend/controllers/userController.js:95-101 | the two relations are removed; nothing else changes |
| SetFollow.FollowKeepsAgreement | backend/controllers/userController.js:75-81 | following keeps lists duplicate-free and both sides of each edge in agreement |
| SetFollow.UnfollowKeepsAgreement | backend/controllers/userController.js:95-101 | unfollowing does too |
| SetFollow.FollowTwiceIsOnce | backend/controllers/userController.js:75-81 | a second follow changes nothing |
| SetFollow.UnfollowAbsentIsNoop | backend/controllers/userController.js:95-101 | unfollowing someone not followed changes nothing |
| SetFollow.FollowThenUnfollowLeavesNoEdge | backend/controllers/userController.js:75-101 | after a follow and an unfollow neither relation is present |
| SetFollow.Directory.constructor | backend/controllers/userController.js:66 | the directory starts with the given users |
| SetFollow.Directory.FollowUser | backend/controllers/userController.js:66-87 | 400 and no change for a self-follow; otherwise 200 and both add-to-set updates |
| SetFollow.Directory.UnfollowUser | backend/controllers/userController.js:90-107 | 200 and both pulls |
| Communities.Founded | backend/controllers/community.controller.js:13-22 | creator as the only member and moderator, a count of 1, private only when asked |
| Communities.Joined | backend/controllers/community.controller.js:91-95 | the user appended, the count recomputed, nothing else changed |
| Communities.Left | backend/controllers/community.controller.js:109-110 | every occurrence of the user removed, the other members kept with their multiplicity, the count recomputed |
| Communities.Updated | backend/controllers/community.controller.js:68-75 | a truthy title or description replaces the stored one; given rules and a given `isPrivate` are applied, absent ones keep the stored value; name, creator and members stay |
| Communities.JoinThenLeaveRestores | backend/controllers/community.controller.js:91-110 | joining and then leaving restores a community the user was not in |
| Communities.ChangesKeepWellFormed | backend/controllers/community.controller.js:91-128 | join, leave, update and moderator assignment keep `membersCount == |members|` |
| Communities.CommunityStore.constructor | backend/controllers/community.controller.js:6 | an empty, valid store |
| Communities.CommunityStore.CreateCommunity | backend/controllers/community.controller.js:6-31 | 400 without change for a taken name, 500 when the schema refuses; otherwise 201 and `Founded` stored |
| Communities.CommunityStore.UpdateCommunity | backend/controllers/community.controller.js:64-84 | 404 for an unknown community, 403 for a non-moderator, both without change; otherwise `Updated` |
| Communities.CommunityStore.JoinCommunity | backend/controllers/community.controller.js:87-102 | 404, or 400 for a member, without change; otherwise `Joined` |
| Communities.CommunityStore.LeaveCommunity | backend/controllers/community.controller.js:105-117 | 404 for an unknown community; otherwise `Left`, a no-op for a non-member |
| Communities.CommunityStore.AssignModerator | backend/controllers/community.controller.js:120-135 | 404, or 403 for anyone but the creator, without change; otherwise the moderator is added once |
| CommunityRoutes.FirstOccurrence | backend/routes/communityRoutes.js:10 | the first position of the pattern at or after the start, or none |
| CommunityRoutes.RemoveFirst | backend/routes/communityRoutes.js:10 | a string without the pattern is unchanged; otherwise its first occurrence, and only that one, is cut out |
| CommunityRoutes.Token | backend/routes/communityRoutes.js:10-16 | no header gives no token; otherwise the token is the header with its first `Bearer ` cut out, and none when that leaves nothing |
| CommunityRoutes.RawHeaderIsToken | backend/routes/communityRoutes.js:10-16 | a non-empty header without `Bearer ` is the token itself |
| CommunityRoutes.Authenticate | backend/routes/communityRoutes.js:8-24 | a user passes iff there is a token and it verifies |
| CommunityRoutes.BearerHeaderYieldsToken | backend/routes/communityRoutes.js:10 | `Bearer <token>` yields the token |
| CommunityRoutes.BareSchemeRefused | backend/routes/communityRoutes.js:12-16 | the header `Bearer ` alone is refused |
| CommunityRoutes.CreateRoute | backend/routes/communityRoutes.js:27-51 | 401 and no change without a verified token; otherwise the creation rules |
| CommunityRoutes.UpdateRoute | backend/routes/communityRoutes.js:94-117 | 401 first; otherwise the moderator-only update |
| CommunityRoutes.JoinRoute | backend/routes/communityRoutes.js:120-138 | 401 first; otherwise the join rules |
| CommunityRoutes.LeaveRoute | backend/routes/communityRoutes.js:141-156 | 401 first; otherwise the pull with the count resynchronised |
| CommunityRoutes.ModsRoute | backend/routes/communityRoutes.js:159-179 | 401 first; otherwise creator-only add-to-set of moderators |
| Comments.RootIdsConcat | backend/controllers/comment.controller.js:54-60 | grouping the roots keeps input order over concatenation |
| Comments.ChildIdsConcat | backend/controllers/comment.controller.js:54-57 | the same for the replies of one comment |
| Comments.RootMembers | backend/controllers/comment.controller.js:58-59 | an id is a root iff some document with it has no parent |
| Comments.ChildMembers | backend/controllers/comment.controller.js:55-57 | an id is a reply of `p` iff some document with it names `p` as parent |
| Comments.RootListedOnce | backend/controllers/comment.controller.js:58-59 | with distinct ids each top-level comment is a root exactly once |
| Comments.OrphanHidden | backend/controllers/comment.controller.js:55-57 | a reply whose parent is not listed is neither a root nor anyone's reply |
| Comments.ThreadComments | backend/controllers/comment.controller.js:46-66 | the two loops give the roots in order, each listed comment's replies in order, and `count` equal to the number of roots |
| Comments.PruneSplit | backend/controllers/comment.controller.js:125-131 | a thread is its top comment plus the threads of its replies |
| Comments.LeafPrunedAlone | backend/controllers/comment.controller.js:125-131 | a comment without replies is deleted alone |
| Comments.PrunedKeepsOthers | backend/controllers/comment.controller.js:125-131 | exactly the comment and its descendants are removed; every other comment is unchanged |
| Comments.CommentStore.constructor | backend/controllers/comment.controller.js:5 | the store starts with the given comments |
| Comments.CommentStore.AddComment | backend/controllers/comment.controller.js:5-35 | 400 for empty text, 404 for an unknown post, both without change; otherwise 201 and a new comment by the caller with a null parent when none is given |
| Comments.CommentStore.UpdateComment | backend/controllers/comment.controller.js:76-108 | 400 for empty text, 404 for an unknown comment, 403 for a non-author, all without change; otherwise only the text changes |
| Comments.CommentStore.DeleteThread | backend/controllers/comment.controller.js:125-131 | the store loses exactly the thread under the comment |
| Comments.CommentStore.DeleteComment | backend/controllers/comment.controller.js:111-144 | 404 and no change unless the caller wrote the comment; otherwise 200 and the thread is gone |
| Reports.ReportLists | backend/controllers/report.controller.js:55-167 | an admin gets the three lists unfiltered; nobody gets more reports than were filed under a type |
| Reports.ListsAreSublists | backend/controllers/report.controller.js:119-158 | each filtered list is an order-preserving sublist of the unfiltered one |
| Reports.ListedIffVisible | backend/controllers/report.controller.js:119-158 | a non-admin sees a report iff it was filed under the type and the caller moderates the linked community |
| Reports.ReportByIdAsWritten | backend/controllers/report.controller.js:170-292 | 400 iff the lower-cased type is unknown, 404 iff the report is missing, and a non-admin gets a comment report whenever the comment links to a community |
| Reports.ReportById | backend/controllers/report.controller.js:170-292 | the same with the moderator check applied to every type: a non-admin gets a report iff they may access it |
| Reports.AsWrittenLeaksCommentReport | backend/controllers/report.controller.js:267-277 | on one concrete store, a caller who moderates nothing receives a comment report as written and is refused after correction |
| Reports.AsWrittenAgreesElsewhere | backend/controllers/report.controller.js:255-291 | the two versions agree outside that branch |
| Reports.ByIdAgreesWithLists | backend/controllers/report.controller.js:119-158 | a moderator can open a report by id exactly when it is in their listing |
| Reports.Handle | backend/controllers/report.controller.js:295-405 | no change unless 200; 403 iff a field is missing or the action is unknown; no document is created or dropped |
| Reports.UnflagLeavesReport | backend/controllers/report.controller.js:341-398 | `unflag` reactivates the post or comment and leaves the report alone |
| Reports.ActionsTakeEffect | backend/controllers/report.controller.js:341-398 | for every existing report with a non-empty id: remove-post and remove-comment set the target to `removed` and resolve the report, or answer 404 on a missing target; ban-user bans the user (directly, or as the post's or comment's author, also removing that content), answering 404 on a missing target and 500 on a missing author |
| Reports.ResolutionActs | backend/controllers/report.controller.js:341-398 | a report becomes resolved only through a remove or ban that set its target to `removed` |
| Reports.OnlyRelatedDocumentsChange | backend/controllers/report.controller.js:313-400 | an action changes only the report, its target and the target's author |
| Reports.ReportDesk.constructor | backend/controllers/report.controller.js:11 | the desk starts with the given documents |
| Reports.ReportDesk.CreateReport | backend/controllers/report.controller.js:11-52 | 404 without change for a missing field, or for a post or comment report whose target is not among the comments; otherwise 201, the found target flagged and a new `open` report by the caller; posts and users are untouched |
| Reports.ReportDesk.UpdateReportStatus | backend/controllers/report.controller.js:295-405 | the answer and the documents are those of `Handle` |
| Admin.RoleChange | backend/controllers/admin.controller.js:223-257 | 200 iff the role is `user` or `admin`, the user exists and holds another role; then exactly the role is set; otherwise nothing changes |
| Admin.RepeatedRoleChangeRefused | backend/controllers/admin.controller.js:236-238 | repeating a successful change is refused and changes nothing |
| Admin.AdminLinkRules | backend/controllers/admin.controller.js:91-118 | the admin edit refuses links exactly as the profile rules do |
| Admin.AdminDesk.constructor | backend/controllers/admin.controller.js:223 | the desk starts with the given users |
| Admin.AdminDesk.ChangeUserRole | backend/controllers/admin.controller.js:223-257 | the answer and the users are those of `RoleChange` |
| Admin.AdminDesk.UpdateUserProfile | backend/controllers/admin.controller.js:55-125 | username, email and phone are required; the duplicate check excludes the edited user; links are checked; a change happens only on acceptance |
| LogActivity.FirstMatchIsFirst | backend/utils/logActivity.utils.js:13-24 | a rule's result is the answer when it matches and no earlier rule does |
| LogActivity.FirstMatchFallback | backend/utils/logActivity.utils.js:17 | with no matching rule the answer is the fallback, `Unknown` |
| LogActivity.FirstMatchFrom | backend/utils/logActivity.utils.js:13-24 | the answer is the fallback or the result of a matching rule |
| LogActivity.BrowserRulesRead | backend/utils/logActivity.utils.js:13-16 | the four browser rules in order: chrome without edg, firefox, safari without chrome, edg |
| LogActivity.PlatformRulesRead | backend/utils/logActivity.utils.js:19-23 | the five platform rules in order: windows, mac, linux, android, iphone or ipad |
| LogActivity.Browser | backend/utils/logActivity.utils.js:13-17 | the `if`/`else if` chain equals the first match over the browser rule list |
| LogActivity.Platform | backend/utils/logActivity.utils.js:19-24 | the `if`/`else if` chain equals the first match over the platform rule list |
| LogActivity.ParseUserAgent | backend/utils/logActivity.utils.js:6-29 | empty fields without a user agent; otherwise browser and platform are the first matching rule of their lists on the lower-cased text, and `Mobile` iff it contains `mobile` |
| LogActivity.FirefoxBeforeSafariAndEdge | backend/utils/logActivity.utils.js:13-16 | an agent naming Firefox and not Chrome is Firefox, whatever else it names |
| LogActivity.ChromeAndEdgeSeparated | backend/utils/logActivity.utils.js:13-16 | an agent naming Chrome is Chrome without `edg`, Firefox when it names both `edg` and Firefox, else Edge |
| LogActivity.ClassificationIgnoresCase | backend/utils/logActivity.utils.js:8 | a user agent and its lower-case form are classified alike |
| LogActivity.AndroidReportsLinux | backend/utils/logActivity.utils.js:19-24 | an agent naming both Linux and Android reports `Linux` |
| LogActivity.IndexOf | backend/utils/logActivity.utils.js:33 | the first position of the character, or none |
| LogActivity.SecondField | backend/utils/logActivity.utils.js:33 | the second space-separated word exists iff the text has a space, holds no space, and is exactly the text between the first space and the next space or the end |
| LogActivity.SessionToken | backend/utils/logActivity.utils.js:33 | the header's second word when non-empty, else the cookie when non-empty, else the given session id |
| LogActivity.BearerHeaderGivesSession | backend/utils/logActivity.utils.js:33 | an `Authorization: Bearer <token>` header yields the token as the session, whatever the cookie or fallback |
| LogActivity.Props | backend/utils/logActivity.utils.js:42-49 | the computed fields plus the extra keys, the extra keys winning; without an extra `geo_location` it is the given one or `""` |
| LogActivity.ActivityStore.constructor | backend/utils/logActivity.utils.js:31 | the store starts with the given logs |
| LogActivity.ActivityStore.Log | backend/utils/logActivity.utils.js:31-62 | when the write succeeds, exactly one activity is appended to the user's log, which is created if absent; otherwise nothing changes and nothing is raised |
| ActivityLog.ToEntry | backend/controllers/activityLog.controller.js:19-28 | an entry carries the stored fields and the owner's id |
| ActivityLog.Entries | backend/controllers/activityLog.controller.js:19-28 | one entry per activity, in order |
| ActivityLog.RecentWindow | backend/controllers/activityLog.controller.js:16-18 | `min(50, n)` entries, entry `i` built from activity `n-1-i` |
| ActivityLog.NewestFirst | backend/controllers/activityLog.controller.js:16-18 | the newest activity heads the window |
| ActivityLog.Shown | backend/controllers/activityLog.controller.js:48-75 | each log in order with its kept activities as entries |
| ActivityLog.AllLogsFiltered | backend/controllers/activityLog.controller.js:39-75 | a user filter keeps only that user's log; an action filter keeps only activities of that type |
| ActivityLog.AllLogsUnfiltered | backend/controllers/activityLog.controller.js:62-75 | without filters every log comes back with all its activities |
| ActivityLog.ActionFilterExact | backend/controllers/activityLog.controller.js:51 | an activity is kept iff it has the action's type, and order is kept |
| ActivityLog.LogStore.constructor | backend/controllers/activityLog.controller.js:6 | the store starts with the given logs |
| ActivityLog.LogStore.GetMyActivityLogs | backend/controllers/activityLog.controller.js:6-34 | 404 without a log; otherwise the recent window |
| ActivityLog.LogStore.ClearUserLogs | backend/controllers/activityLog.controller.js:85-114 | 404 and no change without a log; otherwise 200 and the log is empty, and when the logger's write succeeds the clearing entry is appended to the admin's own log |
| Contact.PatternGivesShape | backend/controllers/contact.controller.js:15 | every string the e-mail pattern accepts has one `@`, no white space, and a dot in the domain that is neither first nor last |
| Contact.ShapeGivesPattern | backend/controllers/contact.controller.js:15 | every string of that shape is accepted |
| Contact.PatternIsShape | backend/controllers/contact.controller.js:15 | the pattern accepts exactly that shape |
| Contact.DottedAddressAccepted | backend/controllers/contact.controller.js:15 | a dotted local part and a second dot in the domain pass |
| Contact.SendContactMessage | backend/controllers/contact.controller.js:7-31 | the missing-field, bad-email and short-message refusals each hold iff the earlier checks pass and the check fails; a sent message has subject `Contact Form: <subject>`; a form passing every check is sent iff sending succeeds and fails with 500 otherwise |
| AdminSlice.ReplaceFirst | frontend/src/redux/slice/admin.slice.js:213-219 | same length; untouched when no user has the id; otherwise only the first user with the id is replaced |
| AdminSlice.ReplaceKeepsIds | frontend/src/redux/slice/admin.slice.js:213-219 | every position keeps its id |
| AdminSlice.ReplaceIdempotent | frontend/src/redux/slice/admin.slice.js:213-219 | applying the same update twice is applying it once |
| AdminSlice.DeletionDropsOnlyThatId | frontend/src/redux/slice/admin.slice.js:289 | no user with the id remains; every other user remains, in order |
| AdminSlice.AdminState.constructor | frontend/src/redux/slice/admin.slice.js:162-171 | the initial state |
| AdminSlice.AdminState.ClearError | frontend/src/redux/slice/admin.slice.js:174-175 | only the error is cleared |
| AdminSlice.AdminState.ClearSelectedUser | frontend/src/redux/slice/admin.slice.js:177-178 | only the selected user is cleared |
| AdminSlice.AdminState.Pending | frontend/src/redux/slice/admin.slice.js:183-185 | loading, no error |
| AdminSlice.AdminState.Rejected | frontend/src/redux/slice/admin.slice.js:191-194 | not loading, the payload as error |
| AdminSlice.AdminState.AllUsersLoaded | frontend/src/redux/slice/admin.slice.js:187-190 | the payload's users, or none |
| AdminSlice.AdminState.UserLoaded | frontend/src/redux/slice/admin.slice.js:200-203 | the payload's user becomes the selected one |
| AdminSlice.AdminState.FindUserIndex | frontend/src/redux/slice/admin.slice.js:216 | -1 iff no user has the id; otherwise the first position holding it |
| AdminSlice.AdminState.UserUpdated | frontend/src/redux/slice/admin.slice.js:213-222 | the list becomes `ReplaceFirst`; the selected user is replaced iff it has the same id |
| AdminSlice.AdminState.StatsLoaded | frontend/src/redux/slice/admin.slice.js:273-276 | the payload's statistics |
| AdminSlice.AdminState.UserDeleted | frontend/src/redux/slice/admin.slice.js:286-293 | the list becomes `Without`; the selected user is cleared iff it has the id |
| AdminSlice.AdminState.LogsLoaded | frontend/src/redux/slice/admin.slice.js:303-306 | the payload's logs, or none |
| AdminSlice.AdminState.LogsCleared | frontend/src/redux/slice/admin.slice.js:316-319 | only loading drops |
| AuthSlice.AuthState.constructor | frontend/src/redux/slice/auth.slice.js:71-76 | nobody signed in |
| AuthSlice.AuthState.ClearError | frontend/src/redux/slice/auth.slice.js:78-80 | only the error is cleared |
| AuthSlice.AuthState.SetUser | frontend/src/redux/slice/auth.slice.js:81-84 | the user is stored and the visitor is authenticated |
| AuthSlice.AuthState.UpdateSavedPosts | frontend/src/redux/slice/auth.slice.js:85-89 | the saved posts are replaced; nothing changes without a user |
| AuthSlice.AuthState.SignInPending | frontend/src/redux/slice/auth.slice.js:94-97 | loading, no error |
| AuthSlice.AuthState.SignedIn | frontend/src/redux/slice/auth.slice.js:98-102 | the user is stored and the visitor is authenticated |
| AuthSlice.AuthState.SignInRejected | frontend/src/redux/slice/auth.slice.js:103-107 | the error is recorded and the visitor is no longer authenticated |
| AuthSlice.AuthState.LogoutPending | frontend/src/redux/slice/auth.slice.js:124-126 | only loading is set |
| AuthSlice.AuthState.LoggedOut | frontend/src/redux/slice/auth.slice.js:127-138 | no user and not authenticated, whether the call succeeded or failed |
| AuthSlice.AuthState.SessionConfirmed | frontend/src/redux/slice/auth.slice.js:140-144 | the answer's user and authenticated |
| AuthSlice.AuthState.SessionRejected | frontend/src/redux/slice/auth.slice.js:145-149 | no user and not authenticated |
| UserSlice.FollowedCount | frontend/src/redux/slice/user.slice.js:126-131 | one more than the count, a missing count being 0 |
| UserSlice.UnfollowedCount | frontend/src/redux/slice/user.slice.js:147-152 | one less, never below 0 |
| UserSlice.FollowThenUnfollowRestores | frontend/src/redux/slice/user.slice.js:126-152 | a follow and an unfollow restore a non-negative count |
| UserSlice.FollowCounted | frontend/src/redux/slice/user.slice.js:126-131 | the signed-in user's count goes up by one; without a user nothing changes |
| UserSlice.UnfollowCounted | frontend/src/redux/slice/user.slice.js:147-152 | the signed-in user's count goes down by one and stays non-negative |
| UserSlice.Merged | frontend/src/redux/slice/user.slice.js:253-256 | the keys of both documents, a missing profile giving none |
| UserSlice.MergeKeepsOtherFields | frontend/src/redux/slice/user.slice.js:253-256 | the patch's fields win; the profile's others stay |
| UserSlice.PageOf | frontend/src/redux/slice/user.slice.js:357-365 | each given non-zero value; otherwise, field by field, page 1, one page and no entries |
| UserSlice.EmptyListShowsOnePage | frontend/src/redux/slice/user.slice.js:361-363 | for an empty list the server counts zero pages and the slice shows one |
| UserSlice.UserState.constructor | frontend/src/redux/slice/user.slice.js:187-206 | the initial state |
| UserSlice.UserState.ClearUserError | frontend/src/redux/slice/user.slice.js:208-210 | only the error is cleared |
| UserSlice.UserState.SetProfile | frontend/src/redux/slice/user.slice.js:211-213 | only the profile is set |
| UserSlice.UserState.Pending | frontend/src/redux/slice/user.slice.js:218-221 | loading, no error |
| UserSlice.UserState.Rejected | frontend/src/redux/slice/user.slice.js:226-229 | not loading, the payload as error |
| UserSlice.UserState.Done | frontend/src/redux/slice/user.slice.js:266-268 | only loading drops |
| UserSlice.UserState.ProfileLoaded | frontend/src/redux/slice/user.slice.js:222-225 | the answer's user, or the answer |
| UserSlice.UserState.ProfileUpdated | frontend/src/redux/slice/user.slice.js:235-242 | the profile is replaced only when the answer has a user |
| UserSlice.UserState.AvatarUpdated | frontend/src/redux/slice/user.slice.js:253-256 | the answer is merged into the profile |
| UserSlice.UserState.AccountDeleted | frontend/src/redux/slice/user.slice.js:278-284 | profile, posts, comments and statistics cleared; followers and following kept |
| UserSlice.UserState.PostsLoaded | frontend/src/redux/slice/user.slice.js:294-297 | the answer's posts, or the answer |
| UserSlice.UserState.CommentsLoaded | frontend/src/redux/slice/user.slice.js:307-310 | the answer's comments, or the answer |
| UserSlice.UserState.StatsLoaded | frontend/src/redux/slice/user.slice.js:320-323 | the answer's statistics, or the answer |
| UserSlice.UserState.FollowersLoaded | frontend/src/redux/slice/user.slice.js:357-365 | the followers and their pagination with defaults |
| UserSlice.UserState.FollowingLoaded | frontend/src/redux/slice/user.slice.js:375-383 | the following list and its pagination |
| SearchSlice.SearchState.constructor | frontend/src/redux/slice/search.slice.js:19-29 | no results, an empty query, kind `all` |
| SearchSlice.SearchState.ClearSearchResults | frontend/src/redux/slice/search.slice.js:31-39 | empty lists, empty query, no error; the kind stays |
| SearchSlice.SearchState.ClearSearchError | frontend/src/redux/slice/search.slice.js:40-42 | only the error is cleared |
| SearchSlice.SearchState.SetSearchQuery | frontend/src/redux/slice/search.slice.js:43-45 | only the query changes |
| SearchSlice.SearchState.SetSearchType | frontend/src/redux/slice/search.slice.js:46-48 | only the kind changes |
| SearchSlice.SearchState.SearchPending | frontend/src/redux/slice/search.slice.js:53-56 | loading, no error |
| SearchSlice.SearchState.SearchDone | frontend/src/redux/slice/search.slice.js:57-62 | results, query and kind from the answer; loading drops |
| SearchSlice.SearchState.SearchRejected | frontend/src/redux/slice/search.slice.js:63-66 | the previous results stay and the error is recorded |
| CreatePostForm.ValidateForm | frontend/src/pages/publicPages/CreatePostPage.jsx:70-101 | each error key is present iff its rule is broken, with that rule's message; the form is valid iff the map is empty iff the form is `Acceptable` |
| CreatePostForm.NamesConcat | frontend/src/pages/publicPages/CreatePostPage.jsx:122-136 | the field names of a concatenation concatenate |
| CreatePostForm.SubmittedFields | frontend/src/pages/publicPages/CreatePostPage.jsx:122-136 | the trimmed title first; `communityId` iff a community other than `none` is chosen; the type; exactly the one content field of the type, with its value |
| CreatePostForm.HandleSubmit | frontend/src/pages/publicPages/CreatePostPage.jsx:114-136 | something is sent iff the form is acceptable, and it is the body `Body` describes |
| ProtectedRoute.Guard | frontend/src/routes/ProtectedRoute.jsx:5-20 | to the login page iff not authenticated or no user; home iff a required role is given and differs; render otherwise |
| ProtectedRoute.NoRoleAdmitsEveryone | frontend/src/routes/ProtectedRoute.jsx:14 | without a required role every signed-in user is let in |
| ProtectedRoute.AdminRouteNeedsAdmin | frontend/src/routes/ProtectedRoute.jsx:14-19 | an admin route renders iff the user is an admin, and sends others home |
| ProtectedRoute.LoggedOutGoesToLogin | frontend/src/routes/ProtectedRoute.jsx:9-12 | after a logout every guarded route goes to the login page |
| ProtectedRoute.SessionWithoutUserGoesToLogin | frontend/src/routes/ProtectedRoute.jsx:9-12 | a session check answering without a user still leads to the login page |

## Left out

- Database behaviour: queries, `populate`, aggregates, counts and the statistics endpoints. Stores are in-memory maps, and `save` commits the record.
- Concurrency: requests run one at a time.
- Several handlers run a check and then write in separate round trips. Interleavings of such requests are not modelled.
- Cryptography: bcrypt, JWT signing and verification, OTP and reset-token generation. A password check and token verification are parameters.
- E-mail and SMS sending and the HTML templates. `SendContactMessage` takes the sending's outcome as a parameter. The e-mail body is not modelled, apart from the subject and the category default.
- Image uploads: the upload's outcome is a parameter. In `postController.js` the upload callback answers 500 on its own. That is modelled, but the timing of the response is not.
- `post.controller.js` calls `findById` and `find` without a receiver at 57, 155 and 173, so those paths always fail. Its create, get and delete handlers are left out; the twins in `postController.js` are modelled.
- PostVotes.PostCollection.UpvotePost and PostVotes.PostCollection.DownvotePost bind `Post` to the collection of `post.model.js`. `post.controller.js` imports only `cloudinary` at line 1. As written, `Post.findById` at lines 105 and 129 throws, and the handlers' `catch` (lines 121-123 and 145-147) answers 500 with nothing changed on every call. The model answers 404 or 200 and toggles the lists as the handlers' bodies describe.
- CommunityRoutes: `communityRoutes.js` imports its model from `../models/Community.js` at line 2, and that file is not part of this model. The routes are modelled over the schema of `models/community.model.js`, the one the community controller uses.
- `sendOtpToUser` uses `OTP` out of scope (`user.controller.js:273`), so it is left out.
- `getOneUser` reads the wrong request field (`admin.controller.js:37`), so it is left out.
- `report.controller.js` uses `Comment` at lines 19, 31 and 370 without importing it. As written each of those calls throws, and `asyncHandler` answers 500 with nothing changed. The model reads `Comment` as the comment collection in all three places.
- Reports.ReportDesk.CreateReport: as written, a `comment` or `post` report always ends in 500 at line 19 or 31. The model files it as described, and it stores the `flagged` status on the comment found. `comment.model.js` has no `status` path, so under that schema the write at lines 24-25 would not be stored.
- Reports.Handle and Reports.ReportDesk.UpdateReportStatus: as written, every `comment` request on an existing report throws at line 370 and answers 500 with nothing changed. The model answers 404, 200 or 304 and writes the comment, its author and the report. Its comment `status` writes (lines 372-396) have no path in `comment.model.js`.
- Reports.Handle, Reports.ReportLists and Reports.ReportByIdAsWritten read posts and comments under the controller's field names. These are `author_id` for a post's author, and `author_id` and `post_id` for a comment's author and post. `post.model.js` names the post's author `author`, and `comment.model.js` names the comment's fields `post` and `author`. Under those schemas the fields the controller reads are undefined, which the model expresses as `None`. Then `ban-user` on a post or comment report answers 500, and a comment report never passes a non-admin's checks (lines 133-135 and 267-269).
- `report.controller.js` looks posts up through `Comment` at line 31. The model keeps the lookup in the comment collection.
- `report.model.js` uses other field names than the controller. The model uses the controller's names.
- The comment controller imports a post model file that is not part of this model. Its lookup is assumed to resolve to the post collection.
- The activity logger writes under `user_id` and the controllers read `user`. The model treats the two keys as one, so logs are keyed by user.
- The `logActivity` calls inside the other handlers are not modelled. `Admin.AdminDesk.ChangeUserRole` and the profile handlers leave the log alone, except `ActivityLog.LogStore.ClearUserLogs`, whose own log entry is modelled.
- Lower-casing is modelled for ASCII letters only.
- JavaScript string length, in UTF-16 code units, is modelled as the number of characters.
- Inputs are strings or absent, except the pagination values below. Non-string request values, array bodies and Mongoose `CastError`s on malformed ids are left out.
- SocialGraph.List, SocialGraph.UserGraph.GetUserFollowers and SocialGraph.UserGraph.GetUserFollowing take `page` and `limit` as integers or absent. The query strings of `user.controller.js:848` and `:872` are modelled only when they hold an integer. JavaScript's coercion of other strings is not modelled: `page=abc` (an empty page, `currentPage` null), `page=1.5` (a shifted window, `currentPage` 1) and `page=` (the default is skipped).
- The error middleware: errors passed to `next` surface as the status they carry.
- `getAllPosts`, `getMyPosts` and the media fields of `post.model.js` are left out: no core rule depends on them.
- The frontend's network calls: each reducer receives its answer as parameters.
- `googleLogin`, the thunks without reducer cases, the console logging and every React component apart from the create-post form and the route guard are left out.
- `Comments.CommentStore.DeleteThread` and `Comments.CommentStore.DeleteComment` require a ranking of parent links, so the whole store must be free of cycles. The source needs less: it recurses without end only on a cycle reachable from the deleted comment, and a cycle elsewhere in the store does not affect it.
- `LogActivity.ActivityStore.Log`: the upsert's failure is a parameter. A failed write changes nothing and raises nothing, as the source's `catch` does.
- `SocialGraph.UserGraph.FollowUser` and `SocialGraph.UserGraph.UnfollowUser` answer 500 when the caller's own document is missing, where the source's property read throws. The error text is not modelled.

## Findings

| source | as written | input that shows it | evidently intended | confidence | as-written member | corrected member |
|---|---|---|---|---|---|---|
| backend/controllers/report.controller.js:267-277 | for a comment report opened by a non-admin, the handler answers with the report once the comment links to a community, without consulting the moderator check it has just computed | a comment report on a comment of a post in a community the caller does not moderate, opened by id by that caller | a non-admin receives a comment report only when they moderate the community of the comment's post, as for post and user reports and as in the listing | not executed | Reports.AsWrittenLeaksCommentReport | Reports.ReportById |
