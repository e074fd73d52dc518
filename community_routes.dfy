/**
 * The community endpoints of `routes/communityRoutes.js`. They repeat the
 * rules of the community controller behind their own `verifyJWT` guard: the
 * `Authorization` header with its first `"Bearer "` removed must be a
 * non-empty token that verifies, or the request ends with 401 and nothing
 * changes. The signature check is a parameter that yields the user id the
 * token carries, or nothing when `jwt.verify` throws.
 */
module CommunityRoutes {
  import opened Common
  import opened Communities

  /** The first position at or after `from` where `pat` occurs in `s`. */
  function FirstOccurrence(s: string, pat: string, from: nat): (r: Option<nat>)
    requires from <= |s|
    ensures r.Some? ==> from <= r.value && OccursAt(s, pat, r.value)
                        && forall j :: from <= j < r.value ==> !OccursAt(s, pat, j)
    ensures r.None? ==> forall j :: from <= j ==> !OccursAt(s, pat, j)
    decreases |s| - from
  {
    if from + |pat| > |s| then None
    else if s[from..from + |pat|] == pat then Some(from)
    else if from == |s| then None
    else FirstOccurrence(s, pat, from + 1)
  }

  /** `s.replace(pat, "")` with a string pattern: only the first occurrence goes. */
  function RemoveFirst(s: string, pat: string): (r: string)
    ensures !Contains(s, pat) ==> r == s
    ensures Contains(s, pat) ==>
              exists k :: OccursAt(s, pat, k) && (forall j :: 0 <= j < k ==> !OccursAt(s, pat, j))
                          && r == s[..k] + s[k + |pat|..]
  {
    var k := FirstOccurrence(s, pat, 0);
    if k.None? then s else s[..k.value] + s[k.value + |pat|..]
  }

  /** The token `verifyJWT` hands to `jwt.verify`, or `None` when it answers 401 at once. */
  function Token(header: Option<string>): (t: Option<string>)
    ensures t.Some? ==> t.value != ""
    ensures header.None? ==> t.None?
    ensures header.Some? ==> t == (if RemoveFirst(header.value, "Bearer ") == "" then None
                                   else Some(RemoveFirst(header.value, "Bearer ")))
  {
    if header.None? then None
    else
      var token := RemoveFirst(header.value, "Bearer ");
      if token == "" then None else Some(token)
  }

  /** The user `verifyJWT` lets through. */
  function Authenticate(header: Option<string>, verify: string -> Option<Id>): (u: Option<Id>)
    ensures u.Some? <==> Token(header).Some? && verify(Token(header).value).Some?
  {
    var t := Token(header);
    if t.None? then None else verify(t.value)
  }

  /** `Bearer <token>` yields the token. */
  lemma BearerHeaderYieldsToken(token: string)
    requires token != ""
    ensures Token(Some("Bearer " + token)) == Some(token)
  {
    var h := "Bearer " + token;
    assert h[0..|"Bearer "|] == "Bearer ";
    assert FirstOccurrence(h, "Bearer ", 0) == Some(0);
    assert h[..0] + h[7..] == token;
  }

  /** A header without the scheme is passed on whole: the guard does not
      insist on `Bearer`. */
  lemma RawHeaderIsToken(header: string)
    requires header != "" && !Contains(header, "Bearer ")
    ensures Token(Some(header)) == Some(header)
  {
  }

  /** A header holding only the scheme, `"Bearer "`, is refused. */
  lemma BareSchemeRefused(verify: string -> Option<Id>)
    ensures Authenticate(Some("Bearer "), verify).None?
  {
    assert OccursAt("Bearer ", "Bearer ", 0);
  }

  /** `POST /`: creation behind the guard. */
  method CreateRoute(store: CommunityStore, header: Option<string>, verify: string -> Option<Id>,
                     form: CommunityForm, newId: Id) returns (status: nat)
    requires store.Valid() && newId !in store.communities
    modifies store
    ensures store.Valid()
    ensures Authenticate(header, verify).None? ==> status == 401 && store.communities == old(store.communities)
    ensures Authenticate(header, verify).Some? ==>
              status != 401
              && (old(store.NameTaken(form.name)) ==> status == 400 && store.communities == old(store.communities))
              && (!old(store.NameTaken(form.name)) && !(Truthy(form.name) && Trim(form.name.value) != "" && Truthy(form.title)) ==>
                    status == 500 && store.communities == old(store.communities))
              && (!old(store.NameTaken(form.name)) && Truthy(form.name) && Trim(form.name.value) != "" && Truthy(form.title) ==>
                    status == 201 && store.communities == old(store.communities)[newId := Founded(form, Authenticate(header, verify).value)])
  {
    var user := Authenticate(header, verify);
    if user.None? {
      return 401;
    }
    status := store.CreateCommunity(form, user.value, newId);
  }

  /** `PUT /:id`: a moderator's update behind the guard. */
  method UpdateRoute(store: CommunityStore, header: Option<string>, verify: string -> Option<Id>,
                     id: Id, form: CommunityForm) returns (status: nat)
    requires store.Valid()
    modifies store
    ensures store.Valid()
    ensures Authenticate(header, verify).None? ==> status == 401 && store.communities == old(store.communities)
    ensures Authenticate(header, verify).Some? ==>
              var user := Authenticate(header, verify).value;
              (id !in old(store.communities) ==> status == 404 && store.communities == old(store.communities))
              && (id in old(store.communities) && user !in old(store.communities)[id].moderators ==>
                    status == 403 && store.communities == old(store.communities))
              && (id in old(store.communities) && user in old(store.communities)[id].moderators ==>
                    status == 200 && store.communities == old(store.communities)[id := Updated(old(store.communities)[id], form)])
  {
    var user := Authenticate(header, verify);
    if user.None? {
      return 401;
    }
    status := store.UpdateCommunity(id, user.value, form);
  }

  /** `POST /:id/join` behind the guard. */
  method JoinRoute(store: CommunityStore, header: Option<string>, verify: string -> Option<Id>, id: Id)
    returns (status: nat)
    requires store.Valid()
    modifies store
    ensures store.Valid()
    ensures Authenticate(header, verify).None? ==> status == 401 && store.communities == old(store.communities)
    ensures Authenticate(header, verify).Some? ==>
              var user := Authenticate(header, verify).value;
              (id !in old(store.communities) ==> status == 404 && store.communities == old(store.communities))
              && (id in old(store.communities) && user in old(store.communities)[id].members ==>
                    status == 400 && store.communities == old(store.communities))
              && (id in old(store.communities) && user !in old(store.communities)[id].members ==>
                    status == 200 && store.communities == old(store.communities)[id := Joined(old(store.communities)[id], user)])
  {
    var user := Authenticate(header, verify);
    if user.None? {
      return 401;
    }
    status := store.JoinCommunity(id, user.value);
  }

  /** `POST /:id/leave` behind the guard. */
  method LeaveRoute(store: CommunityStore, header: Option<string>, verify: string -> Option<Id>, id: Id)
    returns (status: nat)
    requires store.Valid()
    modifies store
    ensures store.Valid()
    ensures Authenticate(header, verify).None? ==> status == 401 && store.communities == old(store.communities)
    ensures Authenticate(header, verify).Some? ==>
              var user := Authenticate(header, verify).value;
              (id !in old(store.communities) ==> status == 404 && store.communities == old(store.communities))
              && (id in old(store.communities) ==>
                    status == 200 && store.communities == old(store.communities)[id := Left(old(store.communities)[id], user)])
  {
    var user := Authenticate(header, verify);
    if user.None? {
      return 401;
    }
    status := store.LeaveCommunity(id, user.value);
  }

  /** `POST /:id/mods`: the creator names a moderator, behind the guard. */
  method ModsRoute(store: CommunityStore, header: Option<string>, verify: string -> Option<Id>,
                   id: Id, newModerator: Id) returns (status: nat)
    requires store.Valid()
    modifies store
    ensures store.Valid()
    ensures Authenticate(header, verify).None? ==> status == 401 && store.communities == old(store.communities)
    ensures Authenticate(header, verify).Some? ==>
              var user := Authenticate(header, verify).value;
              (id !in old(store.communities) ==> status == 404 && store.communities == old(store.communities))
              && (id in old(store.communities) && old(store.communities)[id].creatorId != user ==>
                    status == 403 && store.communities == old(store.communities))
              && (id in old(store.communities) && old(store.communities)[id].creatorId == user ==>
                    var c := old(store.communities)[id];
                    status == 200 && store.communities == old(store.communities)[id := c.(moderators := AddToSet(c.moderators, newModerator))])
  {
    var user := Authenticate(header, verify);
    if user.None? {
      return 401;
    }
    status := store.AssignModerator(id, user.value, newModerator);
  }
}
