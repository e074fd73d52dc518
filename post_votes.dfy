/**
 * Voting on posts (`upvotePost` and `downvotePost` in
 * `controllers/post.controller.js`). An upvote by a user already among the
 * upvoters withdraws it; otherwise it withdraws any downvote by that user and
 * records the upvote. Downvotes mirror this. The module file never imports
 * `Post`; the model binds that name to the collection of
 * `models/post.model.js`, whose documents carry the two voter lists.
 */
module PostVotes {
  import opened Common
  import opened PostSchema

  /** The voter lists after `user` upvotes. */
  function Upvote(up: seq<Id>, down: seq<Id>, user: Id): (r: (seq<Id>, seq<Id>))
    ensures user in r.0 <==> user !in up
    ensures user in up ==> r.1 == down
    ensures !(user in r.0 && user in r.1)
    ensures forall v :: v != user ==> multiset(r.0)[v] == multiset(up)[v] && multiset(r.1)[v] == multiset(down)[v]
  {
    if user in up then (Pull(up, user), down)
    else (up + [user], Pull(down, user))
  }

  /** The voter lists after `user` downvotes: the mirror image of `Upvote`. */
  function Downvote(up: seq<Id>, down: seq<Id>, user: Id): (r: (seq<Id>, seq<Id>))
    ensures user in r.1 <==> user !in down
    ensures user in down ==> r.0 == up
    ensures !(user in r.0 && user in r.1)
    ensures forall v :: v != user ==> multiset(r.0)[v] == multiset(up)[v] && multiset(r.1)[v] == multiset(down)[v]
  {
    if user in down then (up, Pull(down, user))
    else (Pull(up, user), down + [user])
  }

  /** Downvoting is upvoting with the two lists exchanged. */
  lemma DownvoteMirrorsUpvote(up: seq<Id>, down: seq<Id>, user: Id)
    ensures Downvote(up, down, user) == (Upvote(down, up, user).1, Upvote(down, up, user).0)
  {
  }

  /** A second upvote withdraws the first: a user who had not voted is back
      to not having voted, with both lists exactly as before. */
  lemma UpvoteTwiceRestores(up: seq<Id>, down: seq<Id>, user: Id)
    requires user !in up && user !in down
    ensures var once := Upvote(up, down, user);
            Upvote(once.0, once.1, user) == (up, down)
  {
    PullAbsent(down, user);
    PullAppended(up, user);
  }

  /** Likewise for downvotes. */
  lemma DownvoteTwiceRestores(up: seq<Id>, down: seq<Id>, user: Id)
    requires user !in up && user !in down
    ensures var once := Downvote(up, down, user);
            Downvote(once.0, once.1, user) == (up, down)
  {
    PullAbsent(up, user);
    PullAppended(down, user);
  }

  /** An upvote followed by a downvote leaves the user among the downvoters
      only, and every other voter where they were. */
  lemma UpvoteThenDownvote(up: seq<Id>, down: seq<Id>, user: Id)
    requires user !in up
    ensures var once := Upvote(up, down, user);
            var twice := Downvote(once.0, once.1, user);
            twice == (up, Pull(down, user) + [user])
  {
    PullAppended(up, user);
  }

  /** When no user appears twice in a list, votes keep it that way. */
  lemma VotesKeepListsDuplicateFree(up: seq<Id>, down: seq<Id>, user: Id)
    requires NoDup(up) && NoDup(down)
    ensures NoDup(Upvote(up, down, user).0) && NoDup(Upvote(up, down, user).1)
    ensures NoDup(Downvote(up, down, user).0) && NoDup(Downvote(up, down, user).1)
  {
    PullNoDup(up, user);
    PullNoDup(down, user);
  }

  /** The post collection the two handlers read and save. */
  class PostCollection {
    var posts: map<Id, Post>

    constructor (initial: map<Id, Post>)
      ensures posts == initial
    {
      posts := initial;
    }

    /** `upvotePost`: 404 and no change for an unknown post; otherwise the
        post's voter lists become `Upvote` of the old ones and nothing else changes. */
    method UpvotePost(postId: Id, user: Id) returns (status: nat)
      modifies this
      ensures status == (if postId in old(posts) then 200 else 404)
      ensures postId !in old(posts) ==> posts == old(posts)
      ensures postId in old(posts) ==>
        var p := old(posts)[postId];
        var r := Upvote(p.upvotes, p.downvotes, user);
        posts == old(posts)[postId := p.(upvotes := r.0, downvotes := r.1)]
    {
      if postId !in posts {
        return 404;
      }
      var post := posts[postId];
      if user in post.upvotes {
        post := post.(upvotes := Pull(post.upvotes, user));
      } else {
        post := post.(downvotes := Pull(post.downvotes, user));
        post := post.(upvotes := post.upvotes + [user]);
      }
      posts := posts[postId := post];
      return 200;
    }

    /** `downvotePost`: the mirror image of `UpvotePost`. */
    method DownvotePost(postId: Id, user: Id) returns (status: nat)
      modifies this
      ensures status == (if postId in old(posts) then 200 else 404)
      ensures postId !in old(posts) ==> posts == old(posts)
      ensures postId in old(posts) ==>
        var p := old(posts)[postId];
        var r := Downvote(p.upvotes, p.downvotes, user);
        posts == old(posts)[postId := p.(upvotes := r.0, downvotes := r.1)]
    {
      if postId !in posts {
        return 404;
      }
      var post := posts[postId];
      if user in post.downvotes {
        post := post.(downvotes := Pull(post.downvotes, user));
      } else {
        post := post.(upvotes := Pull(post.upvotes, user));
        post := post.(downvotes := post.downvotes + [user]);
      }
      posts := posts[postId := post];
      return 200;
    }
  }
}
