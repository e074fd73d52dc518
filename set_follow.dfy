/**
 * The older following handlers of `controllers/userController.js` over the
 * documents of `models/User.js`. They use atomic set updates: following
 * adds the target to the follower's `following` and the follower to the
 * target's `followers` with `$addToSet`; unfollowing `$pull`s both. Neither
 * checks that the users exist (`findByIdAndUpdate` on a missing document
 * does nothing); only following oneself is refused.
 */
module SetFollow {
  import opened Common

  datatype Member = Member(following: seq<Id>, followers: seq<Id>)

  /** No list repeats an id, and the two sides of every edge between stored users agree. */
  ghost predicate Agrees(users: map<Id, Member>)
  {
    (forall u :: u in users ==> NoDup(users[u].following) && NoDup(users[u].followers))
    && (forall u, t :: u in users && t in users ==> (t in users[u].following <==> u in users[t].followers))
  }

  /** `$addToSet` on the follower, then on the target, each only if stored. */
  function Followed(users: map<Id, Member>, user: Id, target: Id): map<Id, Member>
  {
    var step := if user in users then users[user := users[user].(following := AddToSet(users[user].following, target))] else users;
    if target in step then step[target := step[target].(followers := AddToSet(step[target].followers, user))] else step
  }

  /** `$pull` on the follower, then on the target, each only if stored. */
  function Unfollowed(users: map<Id, Member>, user: Id, target: Id): map<Id, Member>
  {
    var step := if user in users then users[user := users[user].(following := Pull(users[user].following, target))] else users;
    if target in step then step[target := step[target].(followers := Pull(step[target].followers, user))] else step
  }

  lemma AddToSetNoDup(s: seq<Id>, x: Id)
    requires NoDup(s)
    ensures NoDup(AddToSet(s, x))
  {
    if x !in s { AppendNoDup(s, x); }
  }

  lemma AddToSetMembers(s: seq<Id>, x: Id, y: Id)
    ensures y in AddToSet(s, x) <==> y in s || y == x
  {
    assert multiset(AddToSet(s, x))[y] > 0 <==> multiset(s)[y] > 0 || y == x;
  }

  /** Field by field, what `Followed` changes. */
  lemma FollowedShape(users: map<Id, Member>, user: Id, target: Id)
    ensures var after := Followed(users, user, target);
      after.Keys == users.Keys
      && forall k :: k in users ==>
           after[k].following == (if k == user then AddToSet(users[k].following, target) else users[k].following)
           && after[k].followers == (if k == target then AddToSet(users[k].followers, user) else users[k].followers)
  {
  }

  /** Field by field, what `Unfollowed` changes. */
  lemma UnfollowedShape(users: map<Id, Member>, user: Id, target: Id)
    ensures var after := Unfollowed(users, user, target);
      after.Keys == users.Keys
      && forall k :: k in users ==>
           after[k].following == (if k == user then Pull(users[k].following, target) else users[k].following)
           && after[k].followers == (if k == target then Pull(users[k].followers, user) else users[k].followers)
  {
    var step := if user in users then users[user := users[user].(following := Pull(users[user].following, target))] else users;
    assert step.Keys == users.Keys;
    assert forall k :: k in users ==> step[k].followers == users[k].followers;
    assert forall k :: k in users ==>
      step[k].following == (if k == user then Pull(users[k].following, target) else users[k].following);
  }

  /** Following keeps the lists duplicate-free and the edges in agreement,
      whether or not both users exist. */
  lemma FollowKeepsAgreement(users: map<Id, Member>, user: Id, target: Id)
    requires Agrees(users) && user != target
    ensures Agrees(Followed(users, user, target))
  {
    var after := Followed(users, user, target);
    FollowedShape(users, user, target);
    forall u | u in after ensures NoDup(after[u].following) && NoDup(after[u].followers) {
      AddToSetNoDup(users[u].following, target);
      AddToSetNoDup(users[u].followers, user);
    }
    forall u, t | u in after && t in after
      ensures t in after[u].following <==> u in after[t].followers
    {
      AddToSetMembers(users[u].following, target, t);
      AddToSetMembers(users[t].followers, user, u);
      assert t in users[u].following <==> u in users[t].followers;
    }
  }

  /** Unfollowing keeps the lists duplicate-free and the edges in agreement. */
  lemma UnfollowKeepsAgreement(users: map<Id, Member>, user: Id, target: Id)
    requires Agrees(users)
    ensures Agrees(Unfollowed(users, user, target))
  {
    var after := Unfollowed(users, user, target);
    UnfollowedShape(users, user, target);
    forall u | u in after ensures NoDup(after[u].following) && NoDup(after[u].followers) {
      PullNoDup(users[u].following, target);
      PullNoDup(users[u].followers, user);
    }
    forall u, t | u in after && t in after
      ensures t in after[u].following <==> u in after[t].followers
    {
      PullMembers(users[u].following, target, t);
      PullMembers(users[t].followers, user, u);
      assert t in users[u].following <==> u in users[t].followers;
    }
  }

  /** Following twice is following once: the id is stored a single time. */
  lemma FollowTwiceIsOnce(users: map<Id, Member>, user: Id, target: Id)
    requires user != target
    ensures Followed(Followed(users, user, target), user, target) == Followed(users, user, target)
  {
    var once := Followed(users, user, target);
    var twice := Followed(once, user, target);
    FollowedShape(users, user, target);
    FollowedShape(once, user, target);
    forall k | k in once ensures twice[k] == once[k] {
      assert twice[k].following == once[k].following;
      assert twice[k].followers == once[k].followers;
    }
  }

  /** Unfollowing someone one does not follow changes nothing. */
  lemma UnfollowAbsentIsNoop(users: map<Id, Member>, user: Id, target: Id)
    requires Agrees(users) && user in users && target in users
    requires target !in users[user].following
    ensures Unfollowed(users, user, target) == users
  {
    PullAbsent(users[user].following, target);
    PullAbsent(users[target].followers, user);
    var after := Unfollowed(users, user, target);
    assert after[user] == users[user];
    assert after[target] == users[target];
    assert forall k :: k in after <==> k in users;
  }

  /** After a follow and an unfollow no edge is left on either side. */
  lemma FollowThenUnfollowLeavesNoEdge(users: map<Id, Member>, user: Id, target: Id)
    requires user != target && user in users && target in users
    ensures var after := Unfollowed(Followed(users, user, target), user, target);
            target !in after[user].following && user !in after[target].followers
  {
  }

  class Directory {
    var users: map<Id, Member>

    constructor (initial: map<Id, Member>)
      ensures users == initial
    {
      users := initial;
    }

    /** `followUser`: 400 for following oneself, otherwise 200 with both set updates applied. */
    method FollowUser(user: Id, target: Id) returns (status: nat)
      modifies this
      ensures user == target ==> status == 400 && users == old(users)
      ensures user != target ==> status == 200 && users == Followed(old(users), user, target)
      ensures Agrees(old(users)) ==> Agrees(users)
    {
      if target == user {
        return 400;
      }
      ghost var before := users;
      if user in users {
        users := users[user := users[user].(following := AddToSet(users[user].following, target))];
      }
      if target in users {
        users := users[target := users[target].(followers := AddToSet(users[target].followers, user))];
      }
      if Agrees(before) {
        FollowKeepsAgreement(before, user, target);
      }
      return 200;
    }

    /** `unfollowUser`: always 200, with both pulls applied. */
    method UnfollowUser(user: Id, target: Id) returns (status: nat)
      modifies this
      ensures status == 200 && users == Unfollowed(old(users), user, target)
      ensures Agrees(old(users)) ==> Agrees(users)
    {
      ghost var before := users;
      if user in users {
        users := users[user := users[user].(following := Pull(users[user].following, target))];
      }
      if target in users {
        users := users[target := users[target].(followers := Pull(users[target].followers, user))];
      }
      if Agrees(before) {
        UnfollowKeepsAgreement(before, user, target);
      }
      return 200;
    }
  }
}
