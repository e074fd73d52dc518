/**
 * Comment threads (`controllers/comment.controller.js` over
 * `models/comment.model.js`): adding a comment or a reply, rebuilding the
 * reply tree of a post from the flat list of its comments, author-only
 * edits, and deletion of a comment with every reply below it.
 */
module Comments {
  import opened Common

  /** A stored comment; `parentComment` is `None` for a top-level comment. */
  datatype Comment = Comment(post: Id, author: Id, text: string, parentComment: Option<Id>)

  // ---------------------------------------------------------------------------
  // Threading: the flat list of a post's comments, in the order the query
  // returns them, becomes a list of roots and, for every comment, the list
  // of its direct replies. The nested objects of the response are exactly
  // what these lists reach: a comment object holds its replies' objects.
  // ---------------------------------------------------------------------------

  /** The ids of the top-level comments, in list order. */
  function RootIds(docs: seq<(Id, Comment)>): seq<Id>
  {
    if docs == [] then []
    else
      var last := docs[|docs| - 1];
      RootIds(docs[..|docs| - 1]) + (if last.1.parentComment.None? then [last.0] else [])
  }

  /** The ids of the direct replies to `p`, in list order. */
  function ChildIds(docs: seq<(Id, Comment)>, p: Id): seq<Id>
  {
    if docs == [] then []
    else
      var last := docs[|docs| - 1];
      ChildIds(docs[..|docs| - 1], p) + (if last.1.parentComment == Some(p) then [last.0] else [])
  }

  /** The ids that appear in the list. */
  function IdsOf(docs: seq<(Id, Comment)>): set<Id>
  {
    set i | 0 <= i < |docs| :: docs[i].0
  }

  /** No two documents share an `_id`. */
  predicate DistinctIds(docs: seq<(Id, Comment)>)
  {
    forall i, j :: 0 <= i < j < |docs| ==> docs[i].0 != docs[j].0
  }

  /** Grouping is order-preserving: the roots of two lists one after the other
      are the roots of the first followed by those of the second. */
  lemma {:induction false} RootIdsConcat(a: seq<(Id, Comment)>, b: seq<(Id, Comment)>)
    ensures RootIds(a + b) == RootIds(a) + RootIds(b)
    decreases |b|
  {
    if b == [] {
      assert a + b == a;
    } else {
      var b' := b[..|b| - 1];
      assert (a + b)[..|a + b| - 1] == a + b';
      RootIdsConcat(a, b');
    }
  }

  /** The same for the replies of any one comment. */
  lemma {:induction false} ChildIdsConcat(a: seq<(Id, Comment)>, b: seq<(Id, Comment)>, p: Id)
    ensures ChildIds(a + b, p) == ChildIds(a, p) + ChildIds(b, p)
    decreases |b|
  {
    if b == [] {
      assert a + b == a;
    } else {
      var b' := b[..|b| - 1];
      assert (a + b)[..|a + b| - 1] == a + b';
      ChildIdsConcat(a, b', p);
    }
  }

  /** An id is among the roots iff some document with that id has no parent. */
  lemma {:induction false} RootMembers(docs: seq<(Id, Comment)>, x: Id)
    ensures x in RootIds(docs) <==>
            (exists i :: 0 <= i < |docs| && docs[i].0 == x && docs[i].1.parentComment.None?)
  {
    if docs != [] {
      var init := docs[..|docs| - 1];
      RootMembers(init, x);
      assert forall i :: 0 <= i < |init| ==> init[i] == docs[i];
    }
  }

  /** An id is among the replies to `p` iff some document with that id names `p` as parent. */
  lemma {:induction false} ChildMembers(docs: seq<(Id, Comment)>, p: Id, x: Id)
    ensures x in ChildIds(docs, p) <==>
            (exists i :: 0 <= i < |docs| && docs[i].0 == x && docs[i].1.parentComment == Some(p))
  {
    if docs != [] {
      var init := docs[..|docs| - 1];
      ChildMembers(init, p, x);
      assert forall i :: 0 <= i < |init| ==> init[i] == docs[i];
    }
  }

  /** With unique ids, every top-level comment is listed among the roots exactly once. */
  lemma {:induction false} RootListedOnce(docs: seq<(Id, Comment)>, i: nat)
    requires DistinctIds(docs) && i < |docs| && docs[i].1.parentComment.None?
    ensures multiset(RootIds(docs))[docs[i].0] == 1
  {
    var n := |docs| - 1;
    var init := docs[..n];
    assert DistinctIds(init);
    if i == n {
      RootMembers(init, docs[i].0);
      assert docs[i].0 !in RootIds(init);
    } else {
      RootListedOnce(init, i);
      assert init[i] == docs[i];
      if docs[n].1.parentComment.None? {
        assert docs[n].0 != docs[i].0;
      }
    }
  }

  /** A reply whose parent is not in the list is neither a root nor a
      reply of any listed comment, so it appears nowhere in the response. */
  lemma OrphanHidden(docs: seq<(Id, Comment)>, i: nat)
    requires DistinctIds(docs) && i < |docs|
    requires docs[i].1.parentComment.Some? && docs[i].1.parentComment.value !in IdsOf(docs)
    ensures docs[i].0 !in RootIds(docs)
    ensures forall q :: q in IdsOf(docs) ==> docs[i].0 !in ChildIds(docs, q)
  {
    RootMembers(docs, docs[i].0);
    forall q | q in IdsOf(docs) ensures docs[i].0 !in ChildIds(docs, q) {
      ChildMembers(docs, q, docs[i].0);
    }
  }

  /** `getCommentsByPost`: the first loop files every comment under its id
      with no replies; the second appends each reply to its parent's
      replies, when the parent is listed, and each top-level comment to the
      roots. `count` is the number of roots. */
  method ThreadComments(docs: seq<(Id, Comment)>) returns (roots: seq<Id>, replies: map<Id, seq<Id>>, count: nat)
    ensures roots == RootIds(docs) && count == |roots|
    ensures replies.Keys == IdsOf(docs)
    ensures forall p :: p in replies ==> replies[p] == ChildIds(docs, p)
  {
    replies := map[];
    var i := 0;
    while i < |docs|
      invariant 0 <= i <= |docs|
      invariant replies.Keys == IdsOf(docs[..i])
      invariant forall p :: p in replies ==> replies[p] == []
    {
      assert IdsOf(docs[..i + 1]) == IdsOf(docs[..i]) + {docs[i].0} by {
        assert forall k :: 0 <= k < i ==> docs[..i + 1][k] == docs[..i][k];
      }
      replies := replies[docs[i].0 := []];
      i := i + 1;
    }
    assert docs[..|docs|] == docs;
    roots := [];
    var j := 0;
    while j < |docs|
      invariant 0 <= j <= |docs|
      invariant replies.Keys == IdsOf(docs)
      invariant roots == RootIds(docs[..j])
      invariant forall p :: p in replies ==> replies[p] == ChildIds(docs[..j], p)
    {
      var id := docs[j].0;
      var parent := docs[j].1.parentComment;
      assert docs[..j + 1][..j] == docs[..j];
      if parent.Some? {
        if parent.value in replies {
          replies := replies[parent.value := replies[parent.value] + [id]];
        }
      } else {
        roots := roots + [id];
      }
      j := j + 1;
    }
    count := |roots|;
  }

  // ---------------------------------------------------------------------------
  // Deletion: `deleteCommentAndReplies` finds the replies of a comment,
  // deletes each of them with its own replies, then deletes the comment.
  // The recursion ends only when parent links have no cycle; `Ranked`
  // states that with a rank that grows from a reply to its parent.
  // ---------------------------------------------------------------------------

  /** The comment `n` parent links above `c`, if every comment on the way is stored. */
  function Ancestor(cs: map<Id, Comment>, c: Id, n: nat): Option<Id>
  {
    if n == 0 then Some(c)
    else
      var m := Ancestor(cs, c, n - 1);
      if m.Some? && m.value in cs then cs[m.value].parentComment else None
  }

  /** `k` is `a` or lies in the thread below `a`. */
  ghost predicate Below(cs: map<Id, Comment>, k: Id, a: Id)
  {
    exists n: nat :: Ancestor(cs, k, n) == Some(a)
  }

  /** Parent links have no cycle: a stored parent outranks its reply. */
  predicate Ranked(cs: map<Id, Comment>, rank: map<Id, nat>)
  {
    forall c :: c in cs ==>
      c in rank &&
      (cs[c].parentComment.Some? && cs[c].parentComment.value in cs ==>
         cs[c].parentComment.value in rank && rank[c] < rank[cs[c].parentComment.value])
  }

  /** The store once the thread under `id` is gone. */
  ghost function Pruned(cs: map<Id, Comment>, id: Id): map<Id, Comment>
  {
    map k | k in cs && !Below(cs, k, id) :: cs[k]
  }

  /** `k` lies below one of `tops`. */
  ghost predicate BelowSome(cs: map<Id, Comment>, k: Id, tops: set<Id>)
  {
    exists r :: r in tops && Below(cs, k, r)
  }

  /** The store once the threads under all of `tops` are gone. */
  ghost function PrunedAll(cs: map<Id, Comment>, tops: set<Id>): map<Id, Comment>
  {
    map k | k in cs && !BelowSome(cs, k, tops) :: cs[k]
  }

  /** The direct replies of `id`. */
  function Replies(cs: map<Id, Comment>, id: Id): set<Id>
  {
    set r | r in cs && cs[r].parentComment == Some(id)
  }

  /** Walking `j` and then `n` links is walking `j + n` links. */
  lemma {:induction false} AncestorCompose(cs: map<Id, Comment>, k: Id, j: nat, m: Id, n: nat)
    requires Ancestor(cs, k, j) == Some(m)
    ensures Ancestor(cs, k, j + n) == Ancestor(cs, m, n)
  {
    if n > 0 {
      AncestorCompose(cs, k, j, m, n - 1);
    }
  }

  /** Every comment passed on a walk is stored. */
  lemma {:induction false} AncestorPrefix(cs: map<Id, Comment>, k: Id, n: nat, j: nat)
    requires Ancestor(cs, k, n).Some? && j < n
    ensures Ancestor(cs, k, j).Some? && Ancestor(cs, k, j).value in cs
  {
    if j < n - 1 {
      AncestorPrefix(cs, k, n - 1, j);
    }
  }

  /** A walk in a smaller store is a walk in the larger one. */
  lemma {:induction false} AncestorWiden(s: map<Id, Comment>, t: map<Id, Comment>, k: Id, n: nat)
    requires forall c :: c in t ==> c in s && s[c] == t[c]
    requires Ancestor(t, k, n).Some?
    ensures Ancestor(s, k, n) == Ancestor(t, k, n)
  {
    if n > 0 {
      AncestorWiden(s, t, k, n - 1);
    }
  }

  /** A walk whose comments all stay in a smaller store is a walk there too. */
  lemma {:induction false} AncestorNarrow(s: map<Id, Comment>, t: map<Id, Comment>, k: Id, n: nat)
    requires forall c :: c in t ==> c in s && s[c] == t[c]
    requires forall j :: 0 <= j < n ==> Ancestor(s, k, j).Some? && Ancestor(s, k, j).value in t
    ensures Ancestor(t, k, n) == Ancestor(s, k, n)
  {
    if n > 0 {
      AncestorNarrow(s, t, k, n - 1);
    }
  }

  /** Ranks grow along a walk that ends at a stored comment. */
  lemma {:induction false} RankGrows(cs: map<Id, Comment>, rank: map<Id, nat>, k: Id, n: nat)
    requires Ranked(cs, rank) && k in cs && 0 < n
    requires Ancestor(cs, k, n).Some? && Ancestor(cs, k, n).value in cs
    ensures rank[k] < rank[Ancestor(cs, k, n).value]
  {
    if n > 1 {
      AncestorPrefix(cs, k, n, n - 1);
      RankGrows(cs, rank, k, n - 1);
    }
  }

  /** Removing comments keeps the ranking. */
  lemma RankedSub(s: map<Id, Comment>, t: map<Id, Comment>, rank: map<Id, nat>)
    requires Ranked(s, rank)
    requires forall c :: c in t ==> c in s && s[c] == t[c]
    ensures Ranked(t, rank)
  {
  }

  /** No reply of `id` lies below a different reply of `id`. */
  lemma SiblingsApart(cs: map<Id, Comment>, rank: map<Id, nat>, id: Id, r: Id, r': Id)
    requires Ranked(cs, rank) && id in cs
    requires r in Replies(cs, id) && r' in Replies(cs, id) && r != r'
    ensures !Below(cs, r, r')
  {
    if Below(cs, r, r') {
      var n: nat :| Ancestor(cs, r, n) == Some(r');
      assert Ancestor(cs, r, 1) == Some(id);
      AncestorCompose(cs, r, 1, id, n - 1);
      if n - 1 == 0 {
        assert false;
      } else {
        RankGrows(cs, rank, id, n - 1);
        assert false;
      }
    }
  }

  /** One step of the loop over the replies: pruning the next reply's
      thread from what is left prunes it from the original store. */
  lemma PruneStep(s0: map<Id, Comment>, rank: map<Id, nat>, id: Id, done: set<Id>, r: Id)
    requires Ranked(s0, rank) && id in s0
    requires done <= Replies(s0, id) && r in Replies(s0, id) && r !in done
    ensures r in PrunedAll(s0, done)
    ensures Pruned(PrunedAll(s0, done), r) == PrunedAll(s0, done + {r})
  {
    var t := PrunedAll(s0, done);
    forall r' | r' in done ensures !Below(s0, r, r') {
      SiblingsApart(s0, rank, id, r, r');
    }
    assert !BelowSome(s0, r, done);
    forall k | k in t ensures Below(t, k, r) <==> Below(s0, k, r) {
      if Below(t, k, r) {
        var n: nat :| Ancestor(t, k, n) == Some(r);
        AncestorWiden(s0, t, k, n);
      }
      if Below(s0, k, r) {
        var n: nat :| Ancestor(s0, k, n) == Some(r);
        forall j | 0 <= j < n ensures Ancestor(s0, k, j).Some? && Ancestor(s0, k, j).value in t {
          AncestorPrefix(s0, k, n, j);
          var m := Ancestor(s0, k, j).value;
          if BelowSome(s0, m, done) {
            var r', n2: nat :| r' in done && Ancestor(s0, m, n2) == Some(r');
            AncestorCompose(s0, k, j, m, n2);
            assert false;
          }
        }
        AncestorNarrow(s0, t, k, n);
      }
    }
    var lhs := Pruned(t, r);
    var rhs := PrunedAll(s0, done + {r});
    forall k ensures k in lhs <==> k in rhs {
      if k in s0 && BelowSome(s0, k, done + {r}) {
        var r'' :| r'' in done + {r} && Below(s0, k, r'');
        if r'' != r {
          assert BelowSome(s0, k, done);
        }
      }
    }
  }

  /** The thread under `id` is `id` itself and the threads under its replies. */
  lemma PruneSplit(s0: map<Id, Comment>, id: Id)
    ensures PrunedAll(s0, Replies(s0, id)) - {id} == Pruned(s0, id)
  {
    var rs := Replies(s0, id);
    forall k | k in s0 && k != id ensures Below(s0, k, id) <==> BelowSome(s0, k, rs) {
      if Below(s0, k, id) {
        var n: nat :| Ancestor(s0, k, n) == Some(id);
        assert n != 0;
        AncestorPrefix(s0, k, n, n - 1);
        var m := Ancestor(s0, k, n - 1).value;
        assert m in rs && Below(s0, k, m);
      }
      if BelowSome(s0, k, rs) {
        var r, n: nat :| r in rs && Ancestor(s0, k, n) == Some(r);
        assert Ancestor(s0, k, n + 1) == Some(id);
      }
    }
    var lhs := PrunedAll(s0, rs) - {id};
    var rhs := Pruned(s0, id);
    assert Ancestor(s0, id, 0) == Some(id);
    forall k ensures k in lhs <==> k in rhs {
    }
  }

  /** A comment without replies is deleted alone. */
  lemma LeafPrunedAlone(cs: map<Id, Comment>, id: Id)
    requires Replies(cs, id) == {}
    ensures Pruned(cs, id) == cs - {id}
  {
    PruneSplit(cs, id);
    assert PrunedAll(cs, {}) == cs;
  }

  /** Deleting a thread removes its top comment and keeps every comment outside it unchanged. */
  lemma PrunedKeepsOthers(cs: map<Id, Comment>, id: Id, k: Id)
    requires k in cs
    ensures k in Pruned(cs, id) <==> k != id && !Below(cs, k, id)
    ensures k in Pruned(cs, id) ==> Pruned(cs, id)[k] == cs[k]
  {
    assert Ancestor(cs, id, 0) == Some(id);
  }

  class CommentStore {
    var comments: map<Id, Comment>

    constructor (initial: map<Id, Comment>)
      ensures comments == initial
    {
      comments := initial;
    }

    /** `addComment`: 400 for missing or empty text, 404 when the post is
        not stored (`posts` holds the stored post ids), else 201 and the new
        comment under `newId`; a missing or empty `parentComment` is stored as
        null. `isReply` tells which success message is sent. */
    method AddComment(postId: Id, user: Id, text: Option<string>, parentComment: Option<string>,
                      posts: set<Id>, newId: Id) returns (status: nat, isReply: bool)
      requires newId !in comments
      modifies this
      ensures !Truthy(text) ==> status == 400 && comments == old(comments)
      ensures Truthy(text) && postId !in posts ==> status == 404 && comments == old(comments)
      ensures Truthy(text) && postId in posts ==>
                status == 201 && isReply == Truthy(parentComment)
                && comments == old(comments)[newId := Comment(postId, user, text.value,
                                                              if Truthy(parentComment) then parentComment else None)]
    {
      isReply := false;
      if !Truthy(text) {
        return 400, isReply;
      }
      if postId !in posts {
        return 404, isReply;
      }
      var parent := if Truthy(parentComment) then parentComment else None;
      comments := comments[newId := Comment(postId, user, text.value, parent)];
      return 201, Truthy(parentComment);
    }

    /** `updateComment`: 400 for missing or empty text, 404 for an unknown
        comment, 403 for anyone but its author, else 200 and only the text changed. */
    method UpdateComment(id: Id, user: Id, text: Option<string>) returns (status: nat)
      modifies this
      ensures !Truthy(text) ==> status == 400 && comments == old(comments)
      ensures Truthy(text) && id !in old(comments) ==> status == 404 && comments == old(comments)
      ensures Truthy(text) && id in old(comments) && old(comments)[id].author != user ==>
                status == 403 && comments == old(comments)
      ensures Truthy(text) && id in old(comments) && old(comments)[id].author == user ==>
                status == 200 && comments == old(comments)[id := old(comments)[id].(text := text.value)]
    {
      if !Truthy(text) {
        return 400;
      }
      if id !in comments {
        return 404;
      }
      if comments[id].author != user {
        return 403;
      }
      comments := comments[id := comments[id].(text := text.value)];
      return 200;
    }

    /** `deleteCommentAndReplies`: each reply's thread goes first, then the comment. */
    method DeleteThread(id: Id, ghost rank: map<Id, nat>)
      requires Ranked(comments, rank) && id in comments
      modifies this
      ensures comments == Pruned(old(comments), id)
      decreases rank[id]
    {
      ghost var s0 := comments;
      var replies := Replies(comments, id);
      var rest := replies;
      ghost var done: set<Id> := {};
      assert PrunedAll(s0, {}) == s0;
      while rest != {}
        invariant rest <= replies && done == replies - rest
        invariant comments == PrunedAll(s0, done)
        decreases |rest|
      {
        var r :| r in rest;
        PruneStep(s0, rank, id, done, r);
        RankedSub(s0, comments, rank);
        assert rank[r] < rank[id];
        DeleteThread(r, rank);
        rest := rest - {r};
        done := done + {r};
      }
      comments := comments - {id};
      PruneSplit(s0, id);
    }

    /** `deleteComment`: 404 unless the comment exists and the caller wrote
        it, else 200 and its whole thread removed. */
    method DeleteComment(id: Id, user: Id, ghost rank: map<Id, nat>) returns (status: nat)
      requires Ranked(comments, rank)
      modifies this
      ensures (id !in old(comments) || old(comments)[id].author != user) ==>
                status == 404 && comments == old(comments)
      ensures id in old(comments) && old(comments)[id].author == user ==>
                status == 200 && comments == Pruned(old(comments), id)
    {
      if id !in comments || comments[id].author != user {
        return 404;
      }
      DeleteThread(id, rank);
      return 200;
    }
  }
}
