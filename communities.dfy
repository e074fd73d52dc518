/**
 * Communities (`controllers/community.controller.js` over
 * `models/community.model.js`): creation with a unique name, the creator as
 * first member and first moderator; updates by moderators only; joining and
 * leaving, after which `membersCount` is recomputed from the member list;
 * and moderator assignment by the creator only.
 */
module Communities {
  import opened Common

  datatype Rule = Rule(id: string, text: string)

  datatype Community = Community(
    name: string,
    title: string,
    description: Option<string>,
    creatorId: Id,
    moderators: seq<Id>,
    members: seq<Id>,
    membersCount: int,
    rules: seq<Rule>,
    isPrivate: bool)

  /** The fields a request body may carry; `None` is a field left out. */
  datatype CommunityForm = CommunityForm(
    name: Option<string>, title: Option<string>, description: Option<string>,
    rules: Option<seq<Rule>>, isPrivate: Option<bool>)

  /** What every stored community satisfies: the counter matches the
      members, the creator moderates, and the (trimmed) name is not empty. */
  predicate WellFormed(c: Community)
  {
    c.membersCount == |c.members| && c.creatorId in c.moderators && c.name != ""
  }

  /** A new community: the creator is its only member and moderator. */
  function Founded(form: CommunityForm, creator: Id): (c: Community)
    requires Truthy(form.name) && Trim(form.name.value) != "" && Truthy(form.title)
    ensures WellFormed(c)
    ensures c.members == [creator] && c.moderators == [creator] && c.creatorId == creator
    ensures c.isPrivate == (form.isPrivate == Some(true))
  {
    Community(Trim(form.name.value), form.title.value, form.description, creator,
              [creator], [creator], 1, [], if form.isPrivate.Some? then form.isPrivate.value else false)
  }

  /** A member joins: appended to the list, counter recomputed. */
  function Joined(c: Community, user: Id): (d: Community)
    ensures d.members == c.members + [user] && d.membersCount == |d.members|
    ensures d.(members := c.members, membersCount := c.membersCount) == c
  {
    c.(members := c.members + [user], membersCount := |c.members| + 1)
  }

  /** A member leaves: every occurrence removed, counter recomputed. */
  function Left(c: Community, user: Id): (d: Community)
    ensures user !in d.members && d.membersCount == |d.members|
    ensures multiset(d.members) == multiset(c.members)[user := 0]
    ensures d.(members := c.members, membersCount := c.membersCount) == c
  {
    var kept := Pull(c.members, user);
    c.(members := kept, membersCount := |kept|)
  }

  /** The fields a moderator's update sets: truthy strings, any given rule
      list (an array is truthy even when empty), and a defined `isPrivate`. */
  function Updated(c: Community, form: CommunityForm): (d: Community)
    ensures Truthy(form.title) ==> d.title == form.title.value
    ensures !Truthy(form.title) ==> d.title == c.title
    ensures Truthy(form.description) ==> d.description == form.description
    ensures !Truthy(form.description) ==> d.description == c.description
    ensures form.rules.Some? ==> d.rules == form.rules.value
    ensures form.rules.None? ==> d.rules == c.rules
    ensures form.isPrivate.Some? ==> d.isPrivate == form.isPrivate.value
    ensures form.isPrivate.None? ==> d.isPrivate == c.isPrivate
    ensures d.name == c.name && d.creatorId == c.creatorId && d.members == c.members
            && d.moderators == c.moderators && d.membersCount == c.membersCount
  {
    c.(title := if Truthy(form.title) then form.title.value else c.title,
       description := if Truthy(form.description) then form.description else c.description,
       rules := if form.rules.Some? then form.rules.value else c.rules,
       isPrivate := if form.isPrivate.Some? then form.isPrivate.value else c.isPrivate)
  }

  /** Joining and then leaving restores the community exactly. */
  lemma JoinThenLeaveRestores(c: Community, user: Id)
    requires WellFormed(c) && user !in c.members
    ensures Left(Joined(c, user), user) == c
  {
    PullAppended(c.members, user);
  }

  /** Each of the four changes keeps a community well formed. */
  lemma ChangesKeepWellFormed(c: Community, user: Id, form: CommunityForm)
    requires WellFormed(c)
    ensures WellFormed(Joined(c, user)) && WellFormed(Left(c, user)) && WellFormed(Updated(c, form))
    ensures WellFormed(c.(moderators := AddToSet(c.moderators, user)))
  {
    var m := AddToSet(c.moderators, user);
    assert c.creatorId in m[..|c.moderators|];
  }

  class CommunityStore {
    var communities: map<Id, Community>

    /** Every community is well formed and no two share a name (the unique index). */
    ghost predicate Valid()
      reads this
    {
      (forall id :: id in communities ==> WellFormed(communities[id]))
      && (forall a, b :: a in communities && b in communities && communities[a].name == communities[b].name ==> a == b)
    }

    constructor ()
      ensures Valid() && communities == map[]
    {
      communities := map[];
    }

    /** `Community.findOne({ name })`. The `trim` setter applies to the
        filter as well; an undefined name leaves the filter empty, so it
        matches any community. */
    predicate NameTaken(name: Option<string>)
      reads this
    {
      if name.None? then communities != map[]
      else exists id :: id in communities && communities[id].name == Trim(name.value)
    }

    /** `createCommunity`: 400 when the name is taken, 500 when validation
        rejects the document (no name or no title), else 201 and the new
        community under `newId` (the id Mongo assigns). */
    method CreateCommunity(form: CommunityForm, creator: Id, newId: Id) returns (status: nat)
      requires Valid() && newId !in communities
      modifies this
      ensures Valid()
      ensures old(NameTaken(form.name)) ==> status == 400 && communities == old(communities)
      ensures !old(NameTaken(form.name)) && !(Truthy(form.name) && Trim(form.name.value) != "" && Truthy(form.title)) ==>
                status == 500 && communities == old(communities)
      ensures !old(NameTaken(form.name)) && Truthy(form.name) && Trim(form.name.value) != "" && Truthy(form.title) ==>
                status == 201 && communities == old(communities)[newId := Founded(form, creator)]
    {
      if NameTaken(form.name) {
        return 400;
      }
      if !(Truthy(form.name) && Trim(form.name.value) != "" && Truthy(form.title)) {
        return 500;
      }
      communities := communities[newId := Founded(form, creator)];
      return 201;
    }

    /** `updateCommunity`: 404 for an unknown community, 403 for anyone who
        does not moderate it, else 200 and the update applied. */
    method UpdateCommunity(id: Id, user: Id, form: CommunityForm) returns (status: nat)
      requires Valid()
      modifies this
      ensures Valid()
      ensures id !in old(communities) ==> status == 404 && communities == old(communities)
      ensures id in old(communities) && user !in old(communities)[id].moderators ==>
                status == 403 && communities == old(communities)
      ensures id in old(communities) && user in old(communities)[id].moderators ==>
                status == 200 && communities == old(communities)[id := Updated(old(communities)[id], form)]
    {
      if id !in communities {
        return 404;
      }
      var c := communities[id];
      if user !in c.moderators {
        return 403;
      }
      ChangesKeepWellFormed(c, user, form);
      communities := communities[id := Updated(c, form)];
      return 200;
    }

    /** `joinCommunity`: 404 for an unknown community, 400 for a member,
        else 200 and the user appended. */
    method JoinCommunity(id: Id, user: Id) returns (status: nat)
      requires Valid()
      modifies this
      ensures Valid()
      ensures id !in old(communities) ==> status == 404 && communities == old(communities)
      ensures id in old(communities) && user in old(communities)[id].members ==>
                status == 400 && communities == old(communities)
      ensures id in old(communities) && user !in old(communities)[id].members ==>
                status == 200 && communities == old(communities)[id := Joined(old(communities)[id], user)]
    {
      if id !in communities {
        return 404;
      }
      var c := communities[id];
      if user in c.members {
        return 400;
      }
      ChangesKeepWellFormed(c, user, CommunityForm(None, None, None, None, None));
      communities := communities[id := Joined(c, user)];
      return 200;
    }

    /** `leaveCommunity`: 404 for an unknown community, else 200 and the
        user pulled, whether or not it was a member. */
    method LeaveCommunity(id: Id, user: Id) returns (status: nat)
      requires Valid()
      modifies this
      ensures Valid()
      ensures id !in old(communities) ==> status == 404 && communities == old(communities)
      ensures id in old(communities) ==>
                status == 200 && communities == old(communities)[id := Left(old(communities)[id], user)]
    {
      if id !in communities {
        return 404;
      }
      var c := communities[id];
      ChangesKeepWellFormed(c, user, CommunityForm(None, None, None, None, None));
      communities := communities[id := Left(c, user)];
      return 200;
    }

    /** `assignModerator`: 404 for an unknown community, 403 for anyone but
        its creator, else 200 and the user added to the moderators once. */
    method AssignModerator(id: Id, user: Id, newModerator: Id) returns (status: nat)
      requires Valid()
      modifies this
      ensures Valid()
      ensures id !in old(communities) ==> status == 404 && communities == old(communities)
      ensures id in old(communities) && old(communities)[id].creatorId != user ==>
                status == 403 && communities == old(communities)
      ensures id in old(communities) && old(communities)[id].creatorId == user ==>
                var c := old(communities)[id];
                status == 200 && communities == old(communities)[id := c.(moderators := AddToSet(c.moderators, newModerator))]
    {
      if id !in communities {
        return 404;
      }
      var c := communities[id];
      if c.creatorId != user {
        return 403;
      }
      ChangesKeepWellFormed(c, newModerator, CommunityForm(None, None, None, None, None));
      communities := communities[id := c.(moderators := AddToSet(c.moderators, newModerator))];
      return 200;
    }
  }
}
