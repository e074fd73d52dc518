/**
 * The admin pages' client state, `redux/slice/admin.slice.js`: the user
 * list, the selected user, statistics and activity logs, with the
 * loading/error protocol every request follows. An update answered by the
 * server replaces the first listed user with the same id; a deletion drops
 * every listed user with that id.
 */
module AdminSlice {
  import opened Common

  /** A user as the admin pages hold it: its `_id` and the rest of the document. */
  datatype UserView = UserView(id: Id, fields: map<string, string>)

  /** Any other document the slice stores as it arrives (statistics, a log). */
  type Doc = map<string, string>

  /** The whole slice. */
  datatype AdminView = AdminView(users: seq<UserView>, selectedUser: Option<UserView>, stats: Option<Doc>,
                                 activityLogs: seq<Doc>, loading: bool, error: Option<string>)

  /** `k` is the first position of `users` holding a user with `id`. */
  predicate FirstWith(users: seq<UserView>, id: Id, k: int)
  {
    0 <= k < |users| && users[k].id == id && forall j :: 0 <= j < k ==> users[j].id != id
  }

  /** The list after `findIndex` and the overwrite: the first user with
      `u`'s id is replaced by `u`, and without one the list is as it was. */
  function ReplaceFirst(users: seq<UserView>, u: UserView): (r: seq<UserView>)
    ensures |r| == |users|
    ensures (forall k :: 0 <= k < |users| ==> users[k].id != u.id) ==> r == users
    ensures forall k :: FirstWith(users, u.id, k) ==> r == users[k := u]
  {
    if users == [] then []
    else if users[0].id == u.id then [u] + users[1..]
    else
      var rest := ReplaceFirst(users[1..], u);
      forall k | FirstWith(users, u.id, k) ensures [users[0]] + rest == users[k := u] {
        assert FirstWith(users[1..], u.id, k - 1);
      }
      [users[0]] + rest
  }

  /** Replacing keeps every position's id, so the list keeps its ids in order. */
  lemma {:induction false} ReplaceKeepsIds(users: seq<UserView>, u: UserView)
    ensures forall k :: 0 <= k < |users| ==> ReplaceFirst(users, u)[k].id == users[k].id
  {
    if users != [] && users[0].id != u.id {
      ReplaceKeepsIds(users[1..], u);
      assert ReplaceFirst(users, u) == [users[0]] + ReplaceFirst(users[1..], u);
    }
  }

  /** The same update applied twice leaves the list as one application did. */
  lemma {:induction false} ReplaceIdempotent(users: seq<UserView>, u: UserView)
    ensures ReplaceFirst(ReplaceFirst(users, u), u) == ReplaceFirst(users, u)
  {
    if users != [] && users[0].id != u.id {
      ReplaceIdempotent(users[1..], u);
      assert ReplaceFirst(users, u)[1..] == ReplaceFirst(users[1..], u);
    }
  }

  /** The list after a deletion: `users.filter(user => user._id !== id)`. */
  function Without(users: seq<UserView>, id: Id): seq<UserView>
  {
    Filter(users, (v: UserView) => v.id != id)
  }

  /** After a deletion no user with that id is listed, every other user
      still is, and the remaining users keep their order. */
  lemma DeletionDropsOnlyThatId(users: seq<UserView>, id: Id, v: UserView)
    ensures forall k :: 0 <= k < |Without(users, id)| ==> Without(users, id)[k].id != id
    ensures v in Without(users, id) <==> v in users && v.id != id
    ensures IsSubseq(Without(users, id), users)
  {
    FilterMembers(users, (w: UserView) => w.id != id, v);
    FilterIsSubseq(users, (w: UserView) => w.id != id);
  }

  class AdminState {
    var users: seq<UserView>
    var selectedUser: Option<UserView>
    var stats: Option<Doc>
    var activityLogs: seq<Doc>
    var loading: bool
    var error: Option<string>

    function View(): AdminView
      reads this
    {
      AdminView(users, selectedUser, stats, activityLogs, loading, error)
    }

    /** The initial state. */
    constructor ()
      ensures View() == AdminView([], None, None, [], false, None)
    {
      users, selectedUser, stats, activityLogs, loading, error := [], None, None, [], false, None;
    }

    /** `clearError`. */
    method ClearError()
      modifies this
      ensures View() == old(View()).(error := None)
    {
      error := None;
    }

    /** `clearSelectedUser`. */
    method ClearSelectedUser()
      modifies this
      ensures View() == old(View()).(selectedUser := None)
    {
      selectedUser := None;
    }

    /** The `pending` case of every request. */
    method Pending()
      modifies this
      ensures View() == old(View()).(loading := true, error := None)
    {
      loading, error := true, None;
    }

    /** The `rejected` case of every request; `message` is the payload. */
    method Rejected(message: string)
      modifies this
      ensures View() == old(View()).(loading := false, error := Some(message))
    {
      loading, error := false, Some(message);
    }

    /** `getAllUsers.fulfilled`: the payload's `allUsers`, or no users when it has none. */
    method AllUsersLoaded(allUsers: Option<seq<UserView>>)
      modifies this
      ensures View() == old(View()).(loading := false, users := if allUsers.Some? then allUsers.value else [])
    {
      loading := false;
      users := if allUsers.Some? then allUsers.value else [];
    }

    /** `getOneUser.fulfilled`: the payload's `user`, absent or not. */
    method UserLoaded(user: Option<UserView>)
      modifies this
      ensures View() == old(View()).(loading := false, selectedUser := user)
    {
      loading, selectedUser := false, user;
    }

    /** `findIndex`: the position of the first user with `id`, or -1. */
    method FindUserIndex(id: Id) returns (index: int)
      ensures index == -1 <==> forall k :: 0 <= k < |users| ==> users[k].id != id
      ensures index != -1 ==> FirstWith(users, id, index)
    {
      var i := 0;
      while i < |users|
        invariant 0 <= i <= |users|
        invariant forall j :: 0 <= j < i ==> users[j].id != id
      {
        if users[i].id == id {
          return i;
        }
        i := i + 1;
      }
      return -1;
    }

    /** The `fulfilled` case of a profile, avatar or role update with the
        payload's `user`: the first listed user with that id is replaced, and
        the selected user is replaced exactly when it has that id. */
    method UserUpdated(u: UserView)
      modifies this
      ensures View() == old(View()).(loading := false, users := ReplaceFirst(old(users), u),
                                     selectedUser := if old(selectedUser).Some? && old(selectedUser).value.id == u.id
                                                     then Some(u) else old(selectedUser))
    {
      loading := false;
      var index := FindUserIndex(u.id);
      if index != -1 {
        users := users[index := u];
      }
      if selectedUser.Some? && selectedUser.value.id == u.id {
        selectedUser := Some(u);
      }
    }

    /** `getAdminStats.fulfilled`: the payload's `stats`. */
    method StatsLoaded(newStats: Option<Doc>)
      modifies this
      ensures View() == old(View()).(loading := false, stats := newStats)
    {
      loading, stats := false, newStats;
    }

    /** `adminDeleteUser.fulfilled` for user `id`: every listed user with
        that id goes, and the selected user is cleared exactly when it has it. */
    method UserDeleted(id: Id)
      modifies this
      ensures View() == old(View()).(loading := false, users := Without(old(users), id),
                                     selectedUser := if old(selectedUser).Some? && old(selectedUser).value.id == id
                                                     then None else old(selectedUser))
    {
      loading := false;
      users := Without(users, id);
      if selectedUser.Some? && selectedUser.value.id == id {
        selectedUser := None;
      }
    }

    /** `getAllActivityLogs.fulfilled`: the payload's `logs`, or none. */
    method LogsLoaded(logs: Option<seq<Doc>>)
      modifies this
      ensures View() == old(View()).(loading := false, activityLogs := if logs.Some? then logs.value else [])
    {
      loading := false;
      activityLogs := if logs.Some? then logs.value else [];
    }

    /** `clearUserLogs.fulfilled`: only the loading flag drops. */
    method LogsCleared()
      modifies this
      ensures View() == old(View()).(loading := false)
    {
      loading := false;
    }
  }
}
