/**
 * The profile pages' client state, `redux/slice/user.slice.js`: the
 * profile, the user's posts, comments, followers and following with their
 * pagination, and statistics, under the same loading/error protocol as the
 * other slices. After a follow or unfollow succeeds, the thunk adjusts
 * the signed-in user's `num_following` in the auth slice.
 */
module UserSlice {
  import opened Common
  import opened AuthSlice
  import SocialGraph

  /** A document the slice stores as it arrives (profile, post, comment, statistics). */
  type Doc = map<string, string>

  /** The pagination of the followers or following list. */
  datatype Page = Page(currentPage: int, totalPages: int, total: int)

  /** The whole slice. */
  datatype UserView = UserView(profile: Option<Doc>, posts: seq<Doc>, comments: seq<Doc>,
                               followers: seq<Doc>, following: seq<Doc>, stats: Option<Doc>,
                               loading: bool, error: Option<string>,
                               followersPage: Page, followingPage: Page)

  /** `(n || 0) + 1`: one more than the count, a missing count being none. */
  function FollowedCount(n: Option<int>): (r: int)
    ensures n.Some? ==> r == n.value + 1
    ensures n.None? ==> r == 1
  {
    NumOrElse(n, 0) + 1
  }

  /** `Math.max((n || 0) - 1, 0)`: one less, but never below zero. */
  function UnfollowedCount(n: Option<int>): (r: int)
    ensures r >= 0
    ensures n.Some? && n.value >= 1 ==> r == n.value - 1
    ensures n.None? || n.value <= 1 ==> r == 0
  {
    var c := NumOrElse(n, 0) - 1;
    if c > 0 then c else 0
  }

  /** A follow and an unfollow in turn restore a count that was not negative
      (a missing count comes back as zero). */
  lemma FollowThenUnfollowRestores(n: Option<int>)
    requires n.None? || n.value >= 0
    ensures UnfollowedCount(Some(FollowedCount(n))) == (if n.Some? then n.value else 0)
  {
  }

  /** The follow thunk's update of the auth slice once the follow request
      succeeded: the signed-in user's `num_following` goes up by one;
      without a signed-in user nothing happens. */
  method FollowCounted(auth: AuthState)
    modifies auth
    ensures old(auth.user).None? ==> auth.View() == old(auth.View())
    ensures old(auth.user).Some? ==>
              auth.View() == old(auth.View()).(user := Some(old(auth.user).value.(numFollowing :=
                               Some(FollowedCount(old(auth.user).value.numFollowing)))), isAuthenticated := true)
  {
    if auth.user.Some? {
      var u := auth.user.value;
      auth.SetUser(u.(numFollowing := Some(FollowedCount(u.numFollowing))));
    }
  }

  /** The unfollow thunk's update, the mirror image, floored at zero. */
  method UnfollowCounted(auth: AuthState)
    modifies auth
    ensures old(auth.user).None? ==> auth.View() == old(auth.View())
    ensures old(auth.user).Some? ==>
              auth.View() == old(auth.View()).(user := Some(old(auth.user).value.(numFollowing :=
                               Some(UnfollowedCount(old(auth.user).value.numFollowing)))), isAuthenticated := true)
    ensures auth.user.Some? ==> auth.user.value.numFollowing.Some? && auth.user.value.numFollowing.value >= 0
  {
    if auth.user.Some? {
      var u := auth.user.value;
      auth.SetUser(u.(numFollowing := Some(UnfollowedCount(u.numFollowing))));
    }
  }

  /** `{ profile..., ...patch }`: the patch's fields win, the profile's
      other fields stay, and a missing profile contributes nothing. */
  function Merged(profile: Option<Doc>, patch: Doc): (r: Doc)
    ensures r.Keys == patch.Keys + (if profile.Some? then profile.value.Keys else {})
  {
    (if profile.Some? then profile.value else map[]) + patch
  }

  /** The merge keeps every field of the profile the patch does not name
      and takes every field the patch names. */
  lemma MergeKeepsOtherFields(profile: Doc, patch: Doc)
    ensures forall k :: k in patch ==> Merged(Some(profile), patch)[k] == patch[k]
    ensures forall k :: k in profile && k !in patch ==> Merged(Some(profile), patch)[k] == profile[k]
  {
  }

  /** The pagination the slice stores: each value the answer gives, and
      page 1, one page and no entries for those it omits (or gives as 0). */
  function PageOf(currentPage: Option<int>, totalPages: Option<int>, total: Option<int>): (p: Page)
    ensures TruthyNum(currentPage) ==> p.currentPage == currentPage.value
    ensures TruthyNum(totalPages) ==> p.totalPages == totalPages.value
    ensures TruthyNum(total) ==> p.total == total.value
    ensures !TruthyNum(currentPage) ==> p.currentPage == 1
    ensures !TruthyNum(totalPages) ==> p.totalPages == 1
    ensures !TruthyNum(total) ==> p.total == 0
  {
    Page(NumOrElse(currentPage, 1), NumOrElse(totalPages, 1), NumOrElse(total, 0))
  }

  /** An empty list: the server counts zero pages, and the slice shows one. */
  lemma EmptyListShowsOnePage(page: Option<int>, limit: Option<int>)
    requires limit.None? || limit.value > 0
    ensures var l := SocialGraph.List([], page, limit);
            l.totalPages == Some(0) && PageOf(Some(l.currentPage), l.totalPages, Some(l.total)).totalPages == 1
  {
  }

  class UserState {
    var profile: Option<Doc>
    var posts: seq<Doc>
    var comments: seq<Doc>
    var followers: seq<Doc>
    var following: seq<Doc>
    var stats: Option<Doc>
    var loading: bool
    var error: Option<string>
    var followersPage: Page
    var followingPage: Page

    function View(): UserView
      reads this
    {
      UserView(profile, posts, comments, followers, following, stats, loading, error, followersPage, followingPage)
    }

    /** The initial state. */
    constructor ()
      ensures View() == UserView(None, [], [], [], [], None, false, None, Page(1, 1, 0), Page(1, 1, 0))
    {
      profile, posts, comments, followers, following := None, [], [], [], [];
      stats, loading, error := None, false, None;
      followersPage, followingPage := Page(1, 1, 0), Page(1, 1, 0);
    }

    /** `clearUserError`. */
    method ClearUserError()
      modifies this
      ensures View() == old(View()).(error := None)
    {
      error := None;
    }

    /** `setProfile`. */
    method SetProfile(p: Option<Doc>)
      modifies this
      ensures View() == old(View()).(profile := p)
    {
      profile := p;
    }

    /** The `pending` case of every request. */
    method Pending()
      modifies this
      ensures View() == old(View()).(loading := true, error := None)
    {
      loading, error := true, None;
    }

    /** The `rejected` case of every request; `message` is the payload. */
    method Rejected(message: string)
      modifies this
      ensures View() == old(View()).(loading := false, error := Some(message))
    {
      loading, error := false, Some(message);
    }

    /** The `fulfilled` case of the password change, follow and unfollow
        requests: only the loading flag drops. */
    method Done()
      modifies this
      ensures View() == old(View()).(loading := false)
    {
      loading := false;
    }

    /** `fetchUserProfile.fulfilled`: the answer's `user`, or the answer itself. */
    method ProfileLoaded(user: Option<Doc>, answer: Doc)
      modifies this
      ensures View() == old(View()).(loading := false, profile := Some(if user.Some? then user.value else answer))
    {
      loading := false;
      profile := Some(if user.Some? then user.value else answer);
    }

    /** `updateProfile.fulfilled`: the profile is replaced only when the answer has a `user`. */
    method ProfileUpdated(user: Option<Doc>)
      modifies this
      ensures user.None? ==> View() == old(View()).(loading := false)
      ensures user.Some? ==> View() == old(View()).(loading := false, profile := user)
    {
      loading := false;
      if user.Some? {
        profile := user;
      }
    }

    /** `updateAvatar.fulfilled`: the answer's `user` (or the answer) is merged into the profile. */
    method AvatarUpdated(user: Option<Doc>, answer: Doc)
      modifies this
      ensures View() == old(View()).(loading := false,
                                     profile := Some(Merged(old(profile), if user.Some? then user.value else answer)))
    {
      loading := false;
      profile := Some(Merged(profile, if user.Some? then user.value else answer));
    }

    /** `deleteAccount.fulfilled`: profile, posts, comments and statistics
        are cleared; followers, following and their pagination stay. */
    method AccountDeleted()
      modifies this
      ensures View() == old(View()).(loading := false, profile := None, posts := [], comments := [], stats := None)
    {
      loading, profile, posts, comments, stats := false, None, [], [], None;
    }

    /** `fetchUserPosts.fulfilled`: the answer's `posts`, or the answer itself as a list. */
    method PostsLoaded(listed: Option<seq<Doc>>, answer: seq<Doc>)
      modifies this
      ensures View() == old(View()).(loading := false, posts := if listed.Some? then listed.value else answer)
    {
      loading := false;
      posts := if listed.Some? then listed.value else answer;
    }

    /** `fetchUserComments.fulfilled`: the answer's `comments`, or the answer itself as a list. */
    method CommentsLoaded(listed: Option<seq<Doc>>, answer: seq<Doc>)
      modifies this
      ensures View() == old(View()).(loading := false, comments := if listed.Some? then listed.value else answer)
    {
      loading := false;
      comments := if listed.Some? then listed.value else answer;
    }

    /** `fetchUserStats.fulfilled`: the answer's `stats`, or the answer itself. */
    method StatsLoaded(given: Option<Doc>, answer: Doc)
      modifies this
      ensures View() == old(View()).(loading := false, stats := Some(if given.Some? then given.value else answer))
    {
      loading := false;
      stats := Some(if given.Some? then given.value else answer);
    }

    /** `fetchUserFollowers.fulfilled`: the list (the answer's `followers`,
        or the answer itself) and its pagination with defaults. */
    method FollowersLoaded(listed: Option<seq<Doc>>, answer: seq<Doc>,
                           currentPage: Option<int>, totalPages: Option<int>, total: Option<int>)
      modifies this
      ensures View() == old(View()).(loading := false, followers := if listed.Some? then listed.value else answer,
                                     followersPage := PageOf(currentPage, totalPages, total))
    {
      loading := false;
      followers := if listed.Some? then listed.value else answer;
      followersPage := PageOf(currentPage, totalPages, total);
    }

    /** `fetchUserFollowing.fulfilled`, the same for the following list. */
    method FollowingLoaded(listed: Option<seq<Doc>>, answer: seq<Doc>,
                           currentPage: Option<int>, totalPages: Option<int>, total: Option<int>)
      modifies this
      ensures View() == old(View()).(loading := false, following := if listed.Some? then listed.value else answer,
                                     followingPage := PageOf(currentPage, totalPages, total))
    {
      loading := false;
      following := if listed.Some? then listed.value else answer;
      followingPage := PageOf(currentPage, totalPages, total);
    }
  }
}
