/**
 * Moderation reports (`controllers/report.controller.js`): filing a report,
 * the per-moderator view of the report lists, fetching one report, and the
 * action a moderator takes on a report's target.
 *
 * The documents are those the controller reads after `populate`: a post
 * knows its author and community, a comment its author and post, a user the
 * communities it follows, and a community its moderators. A reference whose
 * document is missing populates to nothing.
 */
module Reports {
  import opened Common

  datatype Report = Report(reporterId: Id, targetType: string, targetId: Id, reason: string,
                           status: string, handledBy: Option<Id>)

  datatype PostDoc = PostDoc(authorId: Option<Id>, communityId: Option<Id>, status: string)
  datatype CommentDoc = CommentDoc(authorId: Option<Id>, postId: Option<Id>, status: string)
  datatype Account = Account(isBanned: bool, communitiesFollowed: seq<Id>)

  /** What `populate` can reach from a report: the stored posts, comments
      and users, and each community's moderator list. */
  datatype Links = Links(posts: map<Id, PostDoc>, comments: map<Id, CommentDoc>,
                         users: map<Id, Account>, moderators: map<Id, seq<Id>>)

  // ------------------------------------------------------------- visibility

  /** `caller` is among the moderators of the (populated) community. */
  predicate Moderates(l: Links, community: Option<Id>, caller: Id)
  {
    community.Some? && community.value in l.moderators && caller in l.moderators[community.value]
  }

  /** A post report is visible to the moderators of the post's community. */
  predicate PostAccess(l: Links, r: Report, caller: Id)
  {
    r.targetId in l.posts && Moderates(l, l.posts[r.targetId].communityId, caller)
  }

  /** The comment of a comment report reaches a community through its post. */
  predicate CommentLinked(l: Links, r: Report)
  {
    r.targetId in l.comments
    && var post := l.comments[r.targetId].postId;
    post.Some? && post.value in l.posts
    && var community := l.posts[post.value].communityId;
    community.Some? && community.value in l.moderators
  }

  /** A comment report is visible to the moderators of the community of the comment's post. */
  predicate CommentAccess(l: Links, r: Report, caller: Id)
  {
    CommentLinked(l, r) && caller in l.moderators[l.posts[l.comments[r.targetId].postId.value].communityId.value]
  }

  /** A user report is visible to the moderators of any community the reporter follows. */
  predicate UserAccess(l: Links, r: Report, caller: Id)
  {
    r.reporterId in l.users
    && exists c :: c in l.users[r.reporterId].communitiesFollowed && Moderates(l, Some(c), caller)
  }

  /** The check for each kind of report, by the lower-case type name. */
  predicate Access(l: Links, kind: string, r: Report, caller: Id)
  {
    if kind == "post" then PostAccess(l, r, caller)
    else if kind == "comment" then CommentAccess(l, r, caller)
    else kind == "user" && UserAccess(l, r, caller)
  }

  /** `Report.find({ target_type: t })` over the reports in natural order. */
  function OfType(docs: seq<(Id, Report)>, t: string): seq<(Id, Report)>
  {
    Filter(docs, (d: (Id, Report)) => d.1.targetType == t)
  }

  datatype Lists = Lists(userReports: seq<(Id, Report)>, postReports: seq<(Id, Report)>,
                         commentReports: seq<(Id, Report)>)

  /** `getAllReports`: the reports filed under `"User"`, `"Post"` and
      `"Comment"` (the queries use capitalised type names), unfiltered for an
      admin and otherwise only those the caller may see. */
  function ReportLists(docs: seq<(Id, Report)>, l: Links, caller: Id, isAdmin: bool): (r: Lists)
    ensures isAdmin ==> r == Lists(OfType(docs, "User"), OfType(docs, "Post"), OfType(docs, "Comment"))
    ensures |r.postReports| <= |OfType(docs, "Post")| && |r.commentReports| <= |OfType(docs, "Comment")|
            && |r.userReports| <= |OfType(docs, "User")|
  {
    var users := OfType(docs, "User");
    var posts := OfType(docs, "Post");
    var comments := OfType(docs, "Comment");
    if isAdmin then Lists(users, posts, comments)
    else Lists(Filter(users, (d: (Id, Report)) => UserAccess(l, d.1, caller)),
               Filter(posts, (d: (Id, Report)) => PostAccess(l, d.1, caller)),
               Filter(comments, (d: (Id, Report)) => CommentAccess(l, d.1, caller)))
  }

  /** Each list keeps the order of the reports it is filtered from. */
  lemma ListsAreSublists(docs: seq<(Id, Report)>, l: Links, caller: Id, isAdmin: bool)
    ensures var r := ReportLists(docs, l, caller, isAdmin);
      IsSubseq(r.userReports, OfType(docs, "User")) && IsSubseq(r.postReports, OfType(docs, "Post"))
      && IsSubseq(r.commentReports, OfType(docs, "Comment"))
  {
    var users := OfType(docs, "User");
    var posts := OfType(docs, "Post");
    var comments := OfType(docs, "Comment");
    if isAdmin {
      FilterAll(users, (d: (Id, Report)) => true);
      FilterIsSubseq(users, (d: (Id, Report)) => true);
      FilterAll(posts, (d: (Id, Report)) => true);
      FilterIsSubseq(posts, (d: (Id, Report)) => true);
      FilterAll(comments, (d: (Id, Report)) => true);
      FilterIsSubseq(comments, (d: (Id, Report)) => true);
    } else {
      FilterIsSubseq(users, (d: (Id, Report)) => UserAccess(l, d.1, caller));
      FilterIsSubseq(posts, (d: (Id, Report)) => PostAccess(l, d.1, caller));
      FilterIsSubseq(comments, (d: (Id, Report)) => CommentAccess(l, d.1, caller));
    }
  }

  /** A report is listed iff it was filed under the list's type and the
      caller is an admin or may see it; reports with a broken link are dropped. */
  lemma ListedIffVisible(docs: seq<(Id, Report)>, l: Links, caller: Id, isAdmin: bool, x: (Id, Report))
    ensures var r := ReportLists(docs, l, caller, isAdmin);
      (x in r.postReports <==> x in docs && x.1.targetType == "Post" && (isAdmin || PostAccess(l, x.1, caller)))
      && (x in r.commentReports <==> x in docs && x.1.targetType == "Comment" && (isAdmin || CommentAccess(l, x.1, caller)))
      && (x in r.userReports <==> x in docs && x.1.targetType == "User" && (isAdmin || UserAccess(l, x.1, caller)))
  {
    FilterMembers(docs, (d: (Id, Report)) => d.1.targetType == "Post", x);
    FilterMembers(docs, (d: (Id, Report)) => d.1.targetType == "Comment", x);
    FilterMembers(docs, (d: (Id, Report)) => d.1.targetType == "User", x);
    FilterMembers(OfType(docs, "Post"), (d: (Id, Report)) => PostAccess(l, d.1, caller), x);
    FilterMembers(OfType(docs, "Comment"), (d: (Id, Report)) => CommentAccess(l, d.1, caller), x);
    FilterMembers(OfType(docs, "User"), (d: (Id, Report)) => UserAccess(l, d.1, caller), x);
  }

  // --------------------------------------------------------- one report

  predicate KnownType(t: string)
  {
    t == "post" || t == "comment" || t == "user"
  }

  /** `getReportById` as written: once the comment of a comment report
      reaches a community, the report is sent whether or not the caller
      moderates it (the computed `hasAccess` is never consulted). */
  function ReportByIdAsWritten(reports: map<Id, Report>, l: Links, reportId: Id, rawType: string,
                               caller: Id, isAdmin: bool): (status: nat)
    ensures status == 400 <==> !KnownType(ToLower(rawType))
    ensures status == 404 <==> KnownType(ToLower(rawType)) && reportId !in reports
    ensures status == 200 && !isAdmin && ToLower(rawType) == "comment" <==>
              reportId in reports && !isAdmin && ToLower(rawType) == "comment" && CommentLinked(l, reports[reportId])
  {
    var t := ToLower(rawType);
    if !KnownType(t) then 400
    else if reportId !in reports then 404
    else if isAdmin then 200
    else
      var r := reports[reportId];
      if t == "post" && PostAccess(l, r, caller) then 200
      else if t == "comment" && CommentLinked(l, r) then 200
      else if t == "user" && UserAccess(l, r, caller) then 200
      else 403
  }

  /** `getReportById` with the moderator check applied to comment reports
      as it is to the other two kinds: 400 for an unknown type, 404 for an
      unknown report, 200 for an admin or a caller who may see it, else 403. */
  function ReportById(reports: map<Id, Report>, l: Links, reportId: Id, rawType: string,
                      caller: Id, isAdmin: bool): (status: nat)
    ensures status == 400 <==> !KnownType(ToLower(rawType))
    ensures status == 404 <==> KnownType(ToLower(rawType)) && reportId !in reports
    ensures status == 200 <==> KnownType(ToLower(rawType)) && reportId in reports
                               && (isAdmin || Access(l, ToLower(rawType), reports[reportId], caller))
    ensures status == 400 || status == 404 || status == 200 || status == 403
  {
    var t := ToLower(rawType);
    if !KnownType(t) then 400
    else if reportId !in reports then 404
    else if isAdmin then 200
    else
      var r := reports[reportId];
      if t == "post" && PostAccess(l, r, caller) then 200
      else if t == "comment" && CommentAccess(l, r, caller) then 200
      else if t == "user" && UserAccess(l, r, caller) then 200
      else 403
  }

  /** The comment report `r1` on comment `c1` of post `p1` in community `k1`,
      which only `mod` moderates. */
  function SampleReports(): map<Id, Report>
  {
    map["r1" := Report("reporter", "Comment", "c1", "spam", "open", None)]
  }

  function SampleLinks(): Links
  {
    Links(map["p1" := PostDoc(Some("author"), Some("k1"), "active")],
          map["c1" := CommentDoc(Some("author"), Some("p1"), "flagged")],
          map[], map["k1" := ["mod"]])
  }

  /** As written, a caller who moderates nothing receives that comment report. */
  lemma AsWrittenLeaksCommentReport()
    ensures !CommentAccess(SampleLinks(), SampleReports()["r1"], "stranger")
    ensures ReportByIdAsWritten(SampleReports(), SampleLinks(), "r1", "comment", "stranger", false) == 200
    ensures ReportById(SampleReports(), SampleLinks(), "r1", "comment", "stranger", false) == 403
  {
    assert ToLower("comment") == "comment";
    assert "stranger" !in ["mod"];
  }

  /** Outside that one branch the two agree. */
  lemma AsWrittenAgreesElsewhere(reports: map<Id, Report>, l: Links, reportId: Id, rawType: string,
                                 caller: Id, isAdmin: bool)
    requires isAdmin || ToLower(rawType) != "comment"
    ensures ReportByIdAsWritten(reports, l, reportId, rawType, caller, isAdmin)
            == ReportById(reports, l, reportId, rawType, caller, isAdmin)
  {
  }

  /** A moderator can open a report by id exactly when it is on the
      moderator's list of that kind of report. */
  lemma ByIdAgreesWithLists(docs: seq<(Id, Report)>, reports: map<Id, Report>, l: Links, caller: Id, id: Id)
    requires id in reports && (id, reports[id]) in docs
    ensures reports[id].targetType == "Post" ==>
              (ReportById(reports, l, id, "post", caller, false) == 200 <==>
               (id, reports[id]) in ReportLists(docs, l, caller, false).postReports)
    ensures reports[id].targetType == "Comment" ==>
              (ReportById(reports, l, id, "comment", caller, false) == 200 <==>
               (id, reports[id]) in ReportLists(docs, l, caller, false).commentReports)
    ensures reports[id].targetType == "User" ==>
              (ReportById(reports, l, id, "user", caller, false) == 200 <==>
               (id, reports[id]) in ReportLists(docs, l, caller, false).userReports)
  {
    assert ToLower("post") == "post";
    assert ToLower("comment") == "comment";
    assert ToLower("user") == "user";
    ListedIffVisible(docs, l, caller, false, (id, reports[id]));
  }

  // ------------------------------------------------------------- actions

  /** The documents an action can touch. */
  datatype Desk = Desk(reports: map<Id, Report>, posts: map<Id, PostDoc>,
                       comments: map<Id, CommentDoc>, users: map<Id, Account>)

  predicate KnownAction(a: string)
  {
    a == "ban-user" || a == "remove-post" || a == "remove-comment" || a == "unflag"
  }

  function Resolved(d: Desk, rid: Id): Desk
    requires rid in d.reports
  {
    d.(reports := d.reports[rid := d.reports[rid].(status := "resolved")])
  }

  function WithPostStatus(d: Desk, id: Id, s: string): Desk
    requires id in d.posts
  {
    d.(posts := d.posts[id := d.posts[id].(status := s)])
  }

  function WithCommentStatus(d: Desk, id: Id, s: string): Desk
    requires id in d.comments
  {
    d.(comments := d.comments[id := d.comments[id].(status := s)])
  }

  function Banned(d: Desk, u: Id): Desk
    requires u in d.users
  {
    d.(users := d.users[u := d.users[u].(isBanned := true)])
  }

  /** `updateReportStatus`. Missing fields and unknown actions are 403; an
      unknown report, target or user is 404 (passed on to the error
      handler). On a user report only `ban-user` acts. On a post report
      `remove-comment` is ignored; on a comment report `remove-post` is
      304. Removing or banning resolves the report; banning the author of
      a post or comment whose author cannot be loaded fails with 500 before
      anything is saved; `unflag` reactivates the target and leaves the
      report open. Any other target type only records who handled the report. */
  function Handle(d: Desk, caller: Id, action: Option<string>, targetType: Option<string>,
                  reportId: Option<Id>): (r: (nat, Desk))
    ensures r.0 != 200 ==> r.1 == d
    ensures r.0 == 403 <==> !Truthy(action) || !Truthy(targetType) || !Truthy(reportId) || !KnownAction(action.value)
    ensures r.1.reports.Keys == d.reports.Keys && r.1.posts.Keys == d.posts.Keys
            && r.1.comments.Keys == d.comments.Keys && r.1.users.Keys == d.users.Keys
  {
    if !Truthy(action) || !Truthy(targetType) || !Truthy(reportId) then (403, d)
    else
      var a, t, rid := action.value, targetType.value, reportId.value;
      if !KnownAction(a) then (403, d)
      else if rid !in d.reports then (404, d)
      else
        var target := d.reports[rid].targetId;
        if t == "user" then
          if a != "ban-user" then (200, d)
          else if target !in d.users then (404, d)
          else (200, Resolved(Banned(d, target), rid))
        else if t == "post" then
          if a == "remove-comment" then (200, d)
          else if target !in d.posts then (404, d)
          else if a == "remove-post" then (200, Resolved(WithPostStatus(d, target, "removed"), rid))
          else if a == "ban-user" then
            var author := d.posts[target].authorId;
            if author.None? || author.value !in d.users then (500, d)
            else (200, Resolved(WithPostStatus(Banned(d, author.value), target, "removed"), rid))
          else (200, WithPostStatus(d, target, "active"))
        else if t == "comment" then
          if target !in d.comments then (404, d)
          else if a == "remove-comment" then (200, Resolved(WithCommentStatus(d, target, "removed"), rid))
          else if a == "ban-user" then
            var author := d.comments[target].authorId;
            if author.None? || author.value !in d.users then (500, d)
            else (200, Resolved(WithCommentStatus(Banned(d, author.value), target, "removed"), rid))
          else if a == "unflag" then (200, WithCommentStatus(d, target, "active"))
          else (304, d)
        else (200, d.(reports := d.reports[rid := d.reports[rid].(handledBy := Some(caller))]))
  }

  /** `unflag` reactivates a post or comment target and never touches the report. */
  lemma UnflagLeavesReport(d: Desk, caller: Id, targetType: string, rid: Id)
    requires targetType == "post" || targetType == "comment"
    requires rid in d.reports
    ensures var r := Handle(d, caller, Some("unflag"), Some(targetType), Some(rid));
      r.1.reports == d.reports
      && (r.0 == 200 && targetType == "post" ==> r.1.posts[d.reports[rid].targetId].status == "active")
      && (r.0 == 200 && targetType == "comment" ==> r.1.comments[d.reports[rid].targetId].status == "active")
  {
  }

  /** A report becomes resolved only by a remove or ban that took effect:
      the target post or comment is then removed, and a banned user or
      author is marked banned. */
  lemma ResolutionActs(d: Desk, caller: Id, action: Option<string>, targetType: Option<string>, rid: Id)
    requires rid in d.reports && d.reports[rid].status != "resolved"
    ensures var r := Handle(d, caller, action, targetType, Some(rid));
      var target := d.reports[rid].targetId;
      r.1.reports[rid].status == "resolved" ==>
        r.0 == 200 && action.Some? && action.value != "unflag"
        && (targetType == Some("user") ==> r.1.users[target].isBanned)
        && (targetType == Some("post") ==> r.1.posts[target].status == "removed")
        && (targetType == Some("comment") ==> r.1.comments[target].status == "removed")
        && (action == Some("ban-user") && targetType == Some("post") ==> r.1.users[d.posts[target].authorId.value].isBanned)
        && (action == Some("ban-user") && targetType == Some("comment") ==> r.1.users[d.comments[target].authorId.value].isBanned)
  {
  }

  /** What each acting request does to a stored report: a remove of a
      stored target removes it and resolves the report; a ban of a stored
      user, or of the loadable author of a stored post or comment, bans
      that user, removes the post or comment and resolves the report; a
      missing target is 404 and an author that cannot be loaded is 500,
      both with nothing changed. (An empty report id is refused with 403
      before any lookup, as `Handle` states.) */
  lemma ActionsTakeEffect(d: Desk, caller: Id, rid: Id)
    requires rid in d.reports && rid != ""
    ensures var t := d.reports[rid].targetId;
      var r := Handle(d, caller, Some("remove-post"), Some("post"), Some(rid));
      (t in d.posts ==> r.0 == 200 && r.1.posts[t].status == "removed" && r.1.reports[rid].status == "resolved")
      && (t !in d.posts ==> r == (404, d))
    ensures var t := d.reports[rid].targetId;
      var r := Handle(d, caller, Some("remove-comment"), Some("comment"), Some(rid));
      (t in d.comments ==> r.0 == 200 && r.1.comments[t].status == "removed" && r.1.reports[rid].status == "resolved")
      && (t !in d.comments ==> r == (404, d))
    ensures var t := d.reports[rid].targetId;
      var r := Handle(d, caller, Some("ban-user"), Some("user"), Some(rid));
      (t in d.users ==> r.0 == 200 && r.1.users[t].isBanned && r.1.reports[rid].status == "resolved")
      && (t !in d.users ==> r == (404, d))
    ensures var t := d.reports[rid].targetId;
      var r := Handle(d, caller, Some("ban-user"), Some("post"), Some(rid));
      (t !in d.posts ==> r == (404, d))
      && (t in d.posts && (d.posts[t].authorId.None? || d.posts[t].authorId.value !in d.users) ==> r == (500, d))
      && (t in d.posts && d.posts[t].authorId.Some? && d.posts[t].authorId.value in d.users ==>
            r.0 == 200 && r.1.users[d.posts[t].authorId.value].isBanned
            && r.1.posts[t].status == "removed" && r.1.reports[rid].status == "resolved")
    ensures var t := d.reports[rid].targetId;
      var r := Handle(d, caller, Some("ban-user"), Some("comment"), Some(rid));
      (t !in d.comments ==> r == (404, d))
      && (t in d.comments && (d.comments[t].authorId.None? || d.comments[t].authorId.value !in d.users) ==> r == (500, d))
      && (t in d.comments && d.comments[t].authorId.Some? && d.comments[t].authorId.value in d.users ==>
            r.0 == 200 && r.1.users[d.comments[t].authorId.value].isBanned
            && r.1.comments[t].status == "removed" && r.1.reports[rid].status == "resolved")
  {
    assert "remove-post"[7] != "remove-comment"[7];
  }

  /** An action changes only the report itself, its target and the target's author. */
  lemma OnlyRelatedDocumentsChange(d: Desk, caller: Id, action: Option<string>, targetType: Option<string>, rid: Id)
    requires rid in d.reports
    ensures var r := Handle(d, caller, action, targetType, Some(rid));
      var target := d.reports[rid].targetId;
      (forall k :: k in d.reports && k != rid ==> r.1.reports[k] == d.reports[k])
      && (forall k :: k in d.posts && k != target ==> r.1.posts[k] == d.posts[k])
      && (forall k :: k in d.comments && k != target ==> r.1.comments[k] == d.comments[k])
      && (forall k :: (k in d.users && k != target
                        && !(target in d.posts && d.posts[target].authorId == Some(k))
                        && !(target in d.comments && d.comments[target].authorId == Some(k)))
                       ==> r.1.users[k] == d.users[k])
  {
  }

  class ReportDesk {
    var reports: map<Id, Report>
    var posts: map<Id, PostDoc>
    var comments: map<Id, CommentDoc>
    var users: map<Id, Account>

    constructor (d: Desk)
      ensures Snapshot() == d
    {
      reports, posts, comments, users := d.reports, d.posts, d.comments, d.users;
    }

    function Snapshot(): Desk
      reads this
    {
      Desk(reports, posts, comments, users)
    }

    /** `createReport`: 404 when a field is missing, or when the target of a
        comment report is not a stored comment; the target of a post report is
        looked up among the comments as well. A found target is flagged; the
        new report is filed as open under `newId`, with status 201. */
    method CreateReport(caller: Id, targetType: Option<string>, targetId: Option<Id>, reason: Option<string>,
                        newId: Id) returns (status: nat)
      requires newId !in reports
      modifies this
      ensures posts == old(posts) && users == old(users)
      ensures !Truthy(targetType) || !Truthy(targetId) || !Truthy(reason) ==>
                status == 404 && Snapshot() == old(Snapshot())
      ensures Truthy(targetType) && Truthy(targetId) && Truthy(reason) ==>
                var t := targetType.value;
                var flags := t == "comment" || t == "post";
                (flags && targetId.value !in old(comments) ==> status == 404 && Snapshot() == old(Snapshot()))
                && (!(flags && targetId.value !in old(comments)) ==>
                      status == 201
                      && reports == old(reports)[newId := Report(caller, t, targetId.value, reason.value, "open", None)]
                      && (flags ==> comments == old(comments)[targetId.value := old(comments)[targetId.value].(status := "flagged")])
                      && (!flags ==> comments == old(comments)))
    {
      if !Truthy(targetType) || !Truthy(targetId) || !Truthy(reason) {
        return 404;
      }
      var t, id := targetType.value, targetId.value;
      if t == "comment" {
        if id !in comments {
          return 404;
        }
        comments := comments[id := comments[id].(status := "flagged")];
      }
      if t == "post" {
        if id !in comments {
          return 404;
        }
        comments := comments[id := comments[id].(status := "flagged")];
      }
      reports := reports[newId := Report(caller, t, id, reason.value, "open", None)];
      return 201;
    }

    /** `updateReportStatus`, saving the documents `Handle` describes. */
    method UpdateReportStatus(caller: Id, action: Option<string>, targetType: Option<string>,
                              reportId: Option<Id>) returns (status: nat)
      modifies this
      ensures (status, Snapshot()) == Handle(old(Snapshot()), caller, action, targetType, reportId)
    {
      if !Truthy(action) || !Truthy(targetType) || !Truthy(reportId) {
        return 403;
      }
      var a, t, rid := action.value, targetType.value, reportId.value;
      if !KnownAction(a) {
        return 403;
      }
      if rid !in reports {
        return 404;
      }
      var target := reports[rid].targetId;
      if t == "user" {
        if a != "ban-user" {
          return 200;
        }
        if target !in users {
          return 404;
        }
        users := users[target := users[target].(isBanned := true)];
        reports := reports[rid := reports[rid].(status := "resolved")];
        return 200;
      }
      if t == "post" {
        if a == "remove-comment" {
          return 200;
        }
        if target !in posts {
          return 404;
        }
        if a == "remove-post" {
          posts := posts[target := posts[target].(status := "removed")];
          reports := reports[rid := reports[rid].(status := "resolved")];
          return 200;
        }
        if a == "ban-user" {
          var author := posts[target].authorId;
          if author.None? || author.value !in users {
            return 500;
          }
          users := users[author.value := users[author.value].(isBanned := true)];
          posts := posts[target := posts[target].(status := "removed")];
          reports := reports[rid := reports[rid].(status := "resolved")];
          return 200;
        }
        posts := posts[target := posts[target].(status := "active")];
        return 200;
      }
      if t == "comment" {
        if target !in comments {
          return 404;
        }
        if a == "remove-comment" {
          comments := comments[target := comments[target].(status := "removed")];
          reports := reports[rid := reports[rid].(status := "resolved")];
          return 200;
        }
        if a == "ban-user" {
          var author := comments[target].authorId;
          if author.None? || author.value !in users {
            return 500;
          }
          users := users[author.value := users[author.value].(isBanned := true)];
          comments := comments[target := comments[target].(status := "removed")];
          reports := reports[rid := reports[rid].(status := "resolved")];
          return 200;
        }
        if a == "unflag" {
          comments := comments[target := comments[target].(status := "active")];
          return 200;
        }
        return 304;
      }
      reports := reports[rid := reports[rid].(handledBy := Some(caller))];
      return 200;
    }
  }
}
