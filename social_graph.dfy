/**
 * Following between users as `controllers/user.controller.js` implements it
 * (`followUser`, `unfollowUser`, `getUserFollowers`, `getUserFollowing`):
 * each user keeps the list of users it follows, the list of its followers,
 * and a counter beside each list. Following records the edge on both sides
 * and bumps both counters; unfollowing removes it from both sides and
 * lowers both counters. Listing is paginated with JavaScript `slice`.
 */
module SocialGraph {
  import opened Common
  import opened Users

  /** No list repeats an id and each counter is its list's length. */
  ghost predicate Counted(users: map<Id, User>)
  {
    (forall u :: u in users ==> NoDup(users[u].following) && NoDup(users[u].followers))
    && (forall u :: u in users ==> users[u].numFollowing == |users[u].following| && users[u].numFollowers == |users[u].followers|)
  }

  /** The lists agree: the follows-list of `u` contains `t` exactly when
      `u` is among the followers of `t`. */
  ghost predicate Paired(users: map<Id, User>)
  {
    forall u, t :: u in users && t in users ==> (t in users[u].following <==> u in users[t].followers)
  }

  /** The invariant the two handlers keep. */
  ghost predicate Consistent(users: map<Id, User>)
  {
    Counted(users) && Paired(users)
  }

  /** The store after `user` starts following `target`: `user.save()` writes
      the follower's list and counter, then `targetUser.save()` writes the
      target's, each from the copy loaded before either save. */
  function Followed(users: map<Id, User>, user: Id, target: Id): map<Id, User>
    requires user in users && target in users
  {
    var a := users[user];
    var b := users[target];
    var step := users[user := a.(following := a.following + [target], numFollowing := a.numFollowing + 1)];
    step[target := step[target].(followers := b.followers + [user], numFollowers := b.numFollowers + 1)]
  }

  /** The store after `user` stops following `target`. */
  function Unfollowed(users: map<Id, User>, user: Id, target: Id): map<Id, User>
    requires user in users && target in users
  {
    var a := users[user];
    var b := users[target];
    var step := users[user := a.(following := Pull(a.following, target), numFollowing := a.numFollowing - 1)];
    step[target := step[target].(followers := Pull(b.followers, user), numFollowers := b.numFollowers - 1)]
  }

  /** Following a user one does not yet follow keeps the graph consistent. */
  lemma FollowKeepsConsistent(users: map<Id, User>, user: Id, target: Id)
    requires Consistent(users) && user in users && target in users
    requires user != target && target !in users[user].following
    ensures Consistent(Followed(users, user, target))
  {
    var after := Followed(users, user, target);
    assert user !in users[target].followers;
    AppendNoDup(users[user].following, target);
    AppendNoDup(users[target].followers, user);
    forall u, t | u in after && t in after
      ensures t in after[u].following <==> u in after[t].followers
    {
      if u == user && t == target {
      } else if u == user {
        assert after[t].followers == users[t].followers;
      } else if t == target {
        assert after[u].following == users[u].following;
      }
    }
  }

  /** Field by field, what `Unfollowed` changes. */
  lemma UnfollowedShape(users: map<Id, User>, user: Id, target: Id)
    requires user in users && target in users
    ensures var after := Unfollowed(users, user, target);
      after.Keys == users.Keys
      && after[user].following == Pull(users[user].following, target)
      && after[user].numFollowing == users[user].numFollowing - 1
      && after[target].followers == Pull(users[target].followers, user)
      && after[target].numFollowers == users[target].numFollowers - 1
      && (forall k :: k in users && k != user ==>
            after[k].following == users[k].following && after[k].numFollowing == users[k].numFollowing)
      && (forall k :: k in users && k != target ==>
            after[k].followers == users[k].followers && after[k].numFollowers == users[k].numFollowers)
  {
  }

  /** Unfollowing a user one follows keeps the graph consistent. */
  lemma UnfollowKeepsConsistent(users: map<Id, User>, user: Id, target: Id)
    requires Consistent(users) && user in users && target in users
    requires target in users[user].following
    ensures Consistent(Unfollowed(users, user, target))
  {
    assert user in users[target].followers;
    UnfollowKeepsCounted(users, user, target);
    UnfollowKeepsPaired(users, user, target);
  }

  lemma UnfollowKeepsCounted(users: map<Id, User>, user: Id, target: Id)
    requires Counted(users) && user in users && target in users
    requires target in users[user].following && user in users[target].followers
    ensures Counted(Unfollowed(users, user, target))
  {
    UnfollowedShape(users, user, target);
    PullNoDup(users[user].following, target);
    PullNoDup(users[target].followers, user);
  }

  lemma UnfollowKeepsPaired(users: map<Id, User>, user: Id, target: Id)
    requires Paired(users) && user in users && target in users
    ensures Paired(Unfollowed(users, user, target))
  {
    var after := Unfollowed(users, user, target);
    UnfollowedShape(users, user, target);
    forall u, t | u in after && t in after
      ensures t in after[u].following <==> u in after[t].followers
    {
      PullMembers(users[u].following, target, t);
      PullMembers(users[t].followers, user, u);
      assert t in users[u].following <==> u in users[t].followers;
    }
  }

  /** Unfollowing right after following restores every user exactly. */
  lemma FollowThenUnfollowRestores(users: map<Id, User>, user: Id, target: Id)
    requires Consistent(users) && user in users && target in users
    requires user != target && target !in users[user].following
    ensures Unfollowed(Followed(users, user, target), user, target) == users
  {
    assert user !in users[target].followers;
    RestoresWithoutEdge(users, user, target);
  }

  lemma RestoresWithoutEdge(users: map<Id, User>, user: Id, target: Id)
    requires user in users && target in users && user != target
    requires target !in users[user].following && user !in users[target].followers
    ensures Unfollowed(Followed(users, user, target), user, target) == users
  {
    var a, b := users[user], users[target];
    var a1, b1 := StartFollowing(a, target), GainFollower(b, user);
    FollowedAsUpdate(users, user, target);
    var f := users[user := a1][target := b1];
    UnfollowedAsUpdate(f, user, target);
    StopUndoesStart(a, target);
    LoseUndoesGain(b, user);
    UndoUpdates(users, user, target, a1, b1);
  }

  /** Writing back the old values of two keys undoes two updates. */
  lemma UndoUpdates<V>(m: map<Id, V>, x: Id, y: Id, vx: V, vy: V)
    requires x in m && y in m && x != y
    ensures m[x := vx][y := vy][x := m[x]][y := m[y]] == m
  {
  }

  /** One side of a follow edge, added or removed. */
  function StartFollowing(a: User, target: Id): User
  {
    a.(following := a.following + [target], numFollowing := a.numFollowing + 1)
  }

  function GainFollower(b: User, user: Id): User
  {
    b.(followers := b.followers + [user], numFollowers := b.numFollowers + 1)
  }

  function StopFollowing(a: User, target: Id): User
  {
    a.(following := Pull(a.following, target), numFollowing := a.numFollowing - 1)
  }

  function LoseFollower(b: User, user: Id): User
  {
    b.(followers := Pull(b.followers, user), numFollowers := b.numFollowers - 1)
  }

  lemma FollowedAsUpdate(users: map<Id, User>, user: Id, target: Id)
    requires user in users && target in users && user != target
    ensures Followed(users, user, target)
            == users[user := StartFollowing(users[user], target)][target := GainFollower(users[target], user)]
  {
  }

  lemma UnfollowedAsUpdate(users: map<Id, User>, user: Id, target: Id)
    requires user in users && target in users && user != target
    ensures Unfollowed(users, user, target)
            == users[user := StopFollowing(users[user], target)][target := LoseFollower(users[target], user)]
  {
  }

  lemma StopUndoesStart(a: User, target: Id)
    requires target !in a.following
    ensures StopFollowing(StartFollowing(a, target), target) == a
  {
    PullAppended(a.following, target);
  }

  lemma LoseUndoesGain(b: User, user: Id)
    requires user !in b.followers
    ensures LoseFollower(GainFollower(b, user), user) == b
  {
    PullAppended(b.followers, user);
  }

  class UserGraph {
    var users: map<Id, User>

    constructor (initial: map<Id, User>)
      ensures users == initial
    {
      users := initial;
    }

    /** `followUser`. Self-follow is refused (400), an unknown target is 404,
        an unknown follower makes `user.following` throw (500), and an
        existing edge is refused (400); otherwise the edge is recorded. */
    method FollowUser(user: Id, target: Id) returns (status: nat)
      modifies this
      ensures user == target ==> status == 400 && users == old(users)
      ensures user != target && target !in old(users) ==> status == 404 && users == old(users)
      ensures user != target && target in old(users) && user !in old(users) ==> status == 500 && users == old(users)
      ensures user != target && target in old(users) && user in old(users) && target in old(users)[user].following ==>
                status == 400 && users == old(users)
      ensures user != target && target in old(users) && user in old(users) && target !in old(users)[user].following ==>
                status == 200 && users == Followed(old(users), user, target)
      ensures Consistent(old(users)) ==> Consistent(users)
    {
      if user == target {
        return 400;
      }
      if target !in users {
        return 404;
      }
      if user !in users {
        return 500;
      }
      var u, t := users[user], users[target];
      if target in u.following {
        return 400;
      }
      ghost var before := users;
      u := u.(following := u.following + [target], numFollowing := u.numFollowing + 1);
      t := t.(followers := t.followers + [user], numFollowers := t.numFollowers + 1);
      users := users[user := u];
      users := users[target := users[target].(followers := t.followers, numFollowers := t.numFollowers)];
      if Consistent(before) {
        FollowKeepsConsistent(before, user, target);
      }
      return 200;
    }

    /** `unfollowUser`. There is no self check: an unknown target is 404, an
        unknown follower makes `user.following` throw (500), and a missing
        edge is refused (400); otherwise the edge is removed from both sides. */
    method UnfollowUser(user: Id, target: Id) returns (status: nat)
      modifies this
      ensures target !in old(users) ==> status == 404 && users == old(users)
      ensures target in old(users) && user !in old(users) ==> status == 500 && users == old(users)
      ensures target in old(users) && user in old(users) && target !in old(users)[user].following ==>
                status == 400 && users == old(users)
      ensures target in old(users) && user in old(users) && target in old(users)[user].following ==>
                status == 200 && users == Unfollowed(old(users), user, target)
      ensures Consistent(old(users)) ==> Consistent(users)
    {
      if target !in users {
        return 404;
      }
      if user !in users {
        return 500;
      }
      var u, t := users[user], users[target];
      if target !in u.following {
        return 400;
      }
      ghost var before := users;
      u := u.(following := Pull(u.following, target), numFollowing := u.numFollowing - 1);
      t := t.(followers := Pull(t.followers, user), numFollowers := t.numFollowers - 1);
      users := users[user := u];
      users := users[target := users[target].(followers := t.followers, numFollowers := t.numFollowers)];
      if Consistent(before) {
        UnfollowKeepsConsistent(before, user, target);
      }
      return 200;
    }

    /** `getUserFollowers`: 404 for an unknown user, otherwise one page of the
        populated followers and the totals. */
    method GetUserFollowers(userId: Id, page: Option<int>, limit: Option<int>)
      returns (status: nat, listing: Listing)
      ensures status == 404 <==> userId !in users
      ensures userId in users ==> status == 200 && listing == List(Populated(users[userId].followers, users), page, limit)
    {
      if userId !in users {
        return 404, Listing([], 0, None, 0);
      }
      return 200, List(Populated(users[userId].followers, users), page, limit);
    }

    /** `getUserFollowing`: the same over the followed users. */
    method GetUserFollowing(userId: Id, page: Option<int>, limit: Option<int>)
      returns (status: nat, listing: Listing)
      ensures status == 404 <==> userId !in users
      ensures userId in users ==> status == 200 && listing == List(Populated(users[userId].following, users), page, limit)
    {
      if userId !in users {
        return 404, Listing([], 0, None, 0);
      }
      return 200, List(Populated(users[userId].following, users), page, limit);
    }
  }

  // ------------------------------------------------------------ pagination

  /** `populate` drops the ids whose user no longer exists and keeps the
      others in order, each as often as it is listed. */
  function Populated(ids: seq<Id>, users: map<Id, User>): (r: seq<Id>)
    ensures |r| <= |ids|
    ensures forall x :: x in r <==> x in ids && x in users
    ensures IsSubseq(r, ids)
    ensures forall x :: multiset(r)[x] == if x in users then multiset(ids)[x] else 0
  {
    if ids == [] then []
    else
      var rest := Populated(ids[1..], users);
      assert ids == [ids[0]] + ids[1..];
      if ids[0] in users then
        assert ([ids[0]] + rest)[1..] == rest;
        [ids[0]] + rest
      else
        SkipHead(rest, ids);
        rest
  }

  /** One page of a listing, `currentPage`, `totalPages` (`None` where
      `Math.ceil` yields `Infinity` or `NaN`, which JSON sends as `null`) and the total. */
  datatype Listing = Listing(items: seq<Id>, currentPage: int, totalPages: Option<int>, total: nat)

  /** `Math.ceil(n / d)` for a count `n`: `None` for a zero divisor. */
  function CeilDiv(n: nat, d: int): (r: Option<int>)
    ensures d > 0 ==> r.Some? && (r.value - 1) * d < n <= r.value * d
    ensures d > 0 && n == 0 ==> r == Some(0)
    ensures d == 0 <==> r.None?
  {
    if d == 0 then None
    else if d > 0 then Some((n + d - 1) / d)
    else Some(-(n / -d))
  }

  /** The page `page` (default 1) of `limit` (default 10) items: `slice((page - 1) * limit, page * limit)`. */
  function List(xs: seq<Id>, page: Option<int>, limit: Option<int>): Listing
  {
    var p := if page.Some? then page.value else 1;
    var l := if limit.Some? then limit.value else 10;
    Listing(Slice(xs, (p - 1) * l, p * l), p, CeilDiv(|xs|, l), |xs|)
  }

  /** `slice(from, to)` for positions that are not negative. */
  lemma SliceWindow(xs: seq<Id>, from: int, to: int)
    requires 0 <= from <= to
    ensures var f := if from < |xs| then from else |xs|;
            var t := if to < |xs| then to else |xs|;
            Slice(xs, from, to) == xs[f..t]
  {
  }

  lemma MulStep(k: int, limit: int)
    ensures k * limit == (k - 1) * limit + limit
  {
  }

  lemma MulMonotone(a: int, b: int, limit: int)
    requires a >= b && limit >= 0
    ensures a * limit >= b * limit
  {
    assert a * limit - b * limit == (a - b) * limit;
  }

  /** For positive page numbers and sizes a page holds exactly the items at
      positions `(page - 1) * limit` up to `page * limit`, at most `limit` of them. */
  lemma PageContents(xs: seq<Id>, page: int, limit: int)
    requires page >= 1 && limit >= 1
    ensures (page - 1) * limit >= 0
    ensures var items := List(xs, Some(page), Some(limit)).items;
            var m := (page - 1) * limit;
            var from := if m < |xs| then m else |xs|;
            var to := if m + limit < |xs| then m + limit else |xs|;
            items == xs[from..to] && |items| <= limit
  {
    MulMonotone(page - 1, 0, limit);
    MulStep(page, limit);
    SliceWindow(xs, (page - 1) * limit, page * limit);
  }

  /** Pages past `totalPages` are empty. */
  lemma PagesBeyondTotalAreEmpty(xs: seq<Id>, page: int, limit: int)
    requires limit >= 1
    requires var tp := CeilDiv(|xs|, limit); page > tp.value
    ensures List(xs, Some(page), Some(limit)).items == []
  {
    var tp := CeilDiv(|xs|, limit).value;
    MulMonotone(page - 1, tp, limit);
    PageContents(xs, page, limit);
  }

  /** Pages 1 to `k`, one after the other. */
  function FirstPages(xs: seq<Id>, limit: int, k: nat): seq<Id>
  {
    if k == 0 then [] else FirstPages(xs, limit, k - 1) + List(xs, Some(k), Some(limit)).items
  }

  /** Reading pages 1 to `totalPages` in order yields every item exactly once, in order. */
  lemma PagesCoverList(xs: seq<Id>, limit: int)
    requires limit >= 1
    ensures FirstPages(xs, limit, CeilDiv(|xs|, limit).value as nat) == xs
  {
    var tp := CeilDiv(|xs|, limit).value;
    FirstPagesPrefix(xs, limit, tp);
  }

  /** The first `m + l` items are the first `m` followed by the next `l`,
      each bound cut at the list's end. */
  lemma PrefixExtend(xs: seq<Id>, m: int, l: int)
    requires m >= 0 && l >= 0
    ensures var to1 := if m < |xs| then m else |xs|;
            var to2 := if m + l < |xs| then m + l else |xs|;
            xs[..to2] == xs[..to1] + xs[to1..to2]
  {
  }

  lemma {:induction false} FirstPagesPrefix(xs: seq<Id>, limit: int, k: nat)
    requires limit >= 1
    ensures var to := if k * limit < |xs| then k * limit else |xs|;
            FirstPages(xs, limit, k) == xs[..to]
  {
    if k > 0 {
      var m := (k - 1) * limit;
      FirstPagesPrefix(xs, limit, k - 1);
      MulMonotone(k - 1, 0, limit);
      MulStep(k, limit);
      assert k * limit == m + limit;
      PageContents(xs, k, limit);
      PrefixExtend(xs, m, limit);
    }
  }
}
