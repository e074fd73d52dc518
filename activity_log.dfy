/**
 * The activity-log endpoints of `controllers/activityLog.controller.js`: a
 * user's fifty most recent activities, newest first; every log, optionally
 * narrowed to one action; and an admin clearing a user's log (which itself
 * logs the clearing in the admin's own log first).
 */
module ActivityLog {
  import opened Common
  import opened LogActivity

  /** One activity as the endpoints return it. */
  datatype Entry = Entry(eventId: Id, eventType: string, userId: Id, sessionId: Option<string>,
                         entityType: Option<string>, entityId: Option<Id>,
                         props: map<string, string>, timestamp: int)

  function ToEntry(a: Activity, owner: Id): (e: Entry)
    ensures e.eventId == a.eventId && e.eventType == a.eventType && e.userId == owner
            && e.sessionId == a.sessionId && e.entityType == a.entityType && e.entityId == a.entityId
            && e.props == a.props && e.timestamp == a.createdAt
  {
    Entry(a.eventId, a.eventType, owner, a.sessionId, a.entityType, a.entityId, a.props, a.createdAt)
  }

  /** The `map` to entries, keeping order. */
  function Entries(acts: seq<Activity>, owner: Id): (r: seq<Entry>)
    ensures |r| == |acts| && forall i :: 0 <= i < |acts| ==> r[i] == ToEntry(acts[i], owner)
  {
    if acts == [] then [] else [ToEntry(acts[0], owner)] + Entries(acts[1..], owner)
  }

  /** `activities.slice(-50).reverse().map(...)`. */
  function Recent(acts: seq<Activity>, owner: Id): seq<Entry>
  {
    Entries(Reverse(Slice(acts, -50, |acts|)), owner)
  }

  /** The window holds the last fifty activities, newest first: entry `i` is
      the activity `i` places from the end. */
  lemma RecentWindow(acts: seq<Activity>, owner: Id)
    ensures var n := |acts|;
      |Recent(acts, owner)| == (if n < 50 then n else 50)
      && forall i :: 0 <= i < |Recent(acts, owner)| ==> Recent(acts, owner)[i] == ToEntry(acts[n - 1 - i], owner)
  {
    var n := |acts|;
    var from := if n < 50 then 0 else n - 50;
    assert Slice(acts, -50, n) == acts[from..n];
  }

  /** Appending an activity puts it at the head of the window. */
  lemma NewestFirst(acts: seq<Activity>, a: Activity, owner: Id)
    ensures Recent(acts + [a], owner)[0] == ToEntry(a, owner)
  {
    RecentWindow(acts + [a], owner);
  }

  /** The activities of one log that `getAllActivityLogs` keeps: those of
      type `action` when that is a non-empty string, else all of them. */
  function Kept(acts: seq<Activity>, action: Option<string>): seq<Activity>
  {
    if Truthy(action) then Filter(acts, (a: Activity) => a.eventType == action.value) else acts
  }

  /** Each log, in order, with its kept activities as entries. */
  function Shown(docs: seq<(Id, seq<Activity>)>, action: Option<string>): (r: seq<(Id, seq<Entry>)>)
    ensures |r| == |docs|
    ensures forall i :: 0 <= i < |docs| ==> r[i] == (docs[i].0, Entries(Kept(docs[i].1, action), docs[i].0))
  {
    if docs == [] then []
    else [(docs[0].0, Entries(Kept(docs[0].1, action), docs[0].0))] + Shown(docs[1..], action)
  }

  /** `getAllActivityLogs` over the logs in natural order (owner and
      activities): only the given user's log when `userId` is a non-empty
      string, each narrowed to `action` when that is given. */
  function AllLogs(docs: seq<(Id, seq<Activity>)>, userId: Option<string>, action: Option<string>)
    : seq<(Id, seq<Entry>)>
  {
    Shown(Filter(docs, (d: (Id, seq<Activity>)) => !Truthy(userId) || d.0 == userId.value), action)
  }

  /** With a user filter only that user's log comes back, and with an
      action filter every returned activity has that type. */
  lemma AllLogsFiltered(docs: seq<(Id, seq<Activity>)>, userId: Option<string>, action: Option<string>)
    ensures var r := AllLogs(docs, userId, action);
      (Truthy(userId) ==> forall i :: 0 <= i < |r| ==> r[i].0 == userId.value)
      && (Truthy(action) ==> forall i, k :: 0 <= i < |r| && 0 <= k < |r[i].1| ==> r[i].1[k].eventType == action.value)
  {
  }

  /** Without filters every log comes back, in order, with all its activities. */
  lemma AllLogsUnfiltered(docs: seq<(Id, seq<Activity>)>)
    ensures AllLogs(docs, None, None) == Shown(docs, None)
    ensures forall i :: 0 <= i < |docs| ==> AllLogs(docs, None, None)[i] == (docs[i].0, Entries(docs[i].1, docs[i].0))
  {
    FilterAll(docs, (d: (Id, seq<Activity>)) => !Truthy(None) || d.0 == "");
  }

  /** The action filter loses no activity of that type and keeps their order. */
  lemma ActionFilterExact(acts: seq<Activity>, action: string, a: Activity)
    requires action != ""
    ensures a in Kept(acts, Some(action)) <==> a in acts && a.eventType == action
    ensures IsSubseq(Kept(acts, Some(action)), acts)
  {
    FilterMembers(acts, (b: Activity) => b.eventType == action, a);
    FilterIsSubseq(acts, (b: Activity) => b.eventType == action);
  }

  class LogStore {
    var logs: map<Id, seq<Activity>>

    constructor (initial: map<Id, seq<Activity>>)
      ensures logs == initial
    {
      logs := initial;
    }

    /** `getMyActivityLogs`: 404 without a log, else 200 and the recent window. */
    method GetMyActivityLogs(user: Id) returns (status: nat, entries: seq<Entry>)
      ensures user !in logs ==> status == 404 && entries == []
      ensures user in logs ==> status == 200 && entries == Recent(logs[user], user)
    {
      if user !in logs {
        return 404, [];
      }
      return 200, Recent(logs[user], user);
    }

    /** `clearUserLogs`: 404 without a log for `id`. Otherwise the clearing
        is logged in the admin's log, through `logActivity`, and then `id`'s
        log, as loaded before that, is saved with no activities; when an
        admin clears its own log, the clearing entry goes with the rest. */
    method ClearUserLogs(admin: Id, id: Id, req: Request, description: string, eventId: Id, now: int,
                         writeOk: bool) returns (status: nat)
      modifies this
      ensures id !in old(logs) ==> status == 404 && logs == old(logs)
      ensures id in old(logs) ==> status == 200 && id in logs && logs[id] == []
      ensures id in old(logs) && writeOk && admin != id ==>
                logs == old(logs)[admin := ActivitiesOf(old(logs), admin)
                         + [NewActivity(eventId, "clear-logs", description, req, None, None, None, map[], now)]][id := []]
      ensures id in old(logs) && (!writeOk || admin == id) ==> logs == old(logs)[id := []]
    {
      if id !in logs {
        return 404;
      }
      var store := new ActivityStore(logs);
      store.Log(admin, "clear-logs", description, req, None, None, None, map[], eventId, now, writeOk);
      logs := store.logs[id := []];
      return 200;
    }
  }
}
