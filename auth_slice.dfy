/**
 * The signed-in user's client state, `redux/slice/auth.slice.js`: the user
 * document, whether the visitor counts as authenticated, and the
 * loading/error protocol of login, registration, logout and the session
 * check. The requests themselves are left to the server; each reducer
 * below receives what its request answered.
 */
module AuthSlice {
  import opened Common

  /** The signed-in user as the client holds it; `numFollowing` is the
      document's `num_following`, absent on some documents. */
  datatype AuthUser = AuthUser(id: Id, role: string, savedPosts: seq<Id>, numFollowing: Option<int>,
                               fields: map<string, string>)

  /** The whole slice. */
  datatype AuthView = AuthView(user: Option<AuthUser>, isAuthenticated: bool, loading: bool, error: Option<string>)

  class AuthState {
    var user: Option<AuthUser>
    var isAuthenticated: bool
    var loading: bool
    var error: Option<string>

    function View(): AuthView
      reads this
    {
      AuthView(user, isAuthenticated, loading, error)
    }

    /** The initial state: nobody signed in. */
    constructor ()
      ensures View() == AuthView(None, false, false, None)
    {
      user, isAuthenticated, loading, error := None, false, false, None;
    }

    /** `clearError`. */
    method ClearError()
      modifies this
      ensures View() == old(View()).(error := None)
    {
      error := None;
    }

    /** `setUser`: the user is stored and the visitor always counts as authenticated. */
    method SetUser(u: AuthUser)
      modifies this
      ensures View() == old(View()).(user := Some(u), isAuthenticated := true)
    {
      user, isAuthenticated := Some(u), true;
    }

    /** `updateSavedPosts`: the user's saved posts are replaced; without a user nothing changes. */
    method UpdateSavedPosts(posts: seq<Id>)
      modifies this
      ensures old(user).None? ==> View() == old(View())
      ensures old(user).Some? ==> View() == old(View()).(user := Some(old(user).value.(savedPosts := posts)))
    {
      if user.Some? {
        user := Some(user.value.(savedPosts := posts));
      }
    }

    /** `login.pending` and `register.pending`. */
    method SignInPending()
      modifies this
      ensures View() == old(View()).(loading := true, error := None)
    {
      loading, error := true, None;
    }

    /** `login.fulfilled` and `register.fulfilled`: the answer's user (the
        profile fetched after signing in, always present) is stored. */
    method SignedIn(u: AuthUser)
      modifies this
      ensures View() == old(View()).(loading := false, user := Some(u), isAuthenticated := true)
    {
      loading, user, isAuthenticated := false, Some(u), true;
    }

    /** `login.rejected` and `register.rejected`: the error is recorded and
        the visitor no longer counts as authenticated; the stored user stays. */
    method SignInRejected(message: string)
      modifies this
      ensures View() == old(View()).(loading := false, error := Some(message), isAuthenticated := false)
    {
      loading, error, isAuthenticated := false, Some(message), false;
    }

    /** `logout.pending`: unlike the others it leaves the error alone. */
    method LogoutPending()
      modifies this
      ensures View() == old(View()).(loading := true)
    {
      loading := true;
    }

    /** `logout.fulfilled` (`message` is `None`) and `logout.rejected`
        (`message` is the error): either way the user is signed out. */
    method LoggedOut(message: Option<string>)
      modifies this
      ensures View() == AuthView(None, false, false, if message.Some? then message else old(error))
    {
      loading, user, isAuthenticated := false, None, false;
      if message.Some? {
        error := message;
      }
    }

    /** `checkAuthStatus.fulfilled`: the answer's `user`, which the answer
        may lack, is stored, and the visitor counts as authenticated. */
    method SessionConfirmed(u: Option<AuthUser>)
      modifies this
      ensures View() == old(View()).(loading := false, user := u, isAuthenticated := true)
    {
      loading, user, isAuthenticated := false, u, true;
    }

    /** `checkAuthStatus.rejected`: signed out, the error untouched. */
    method SessionRejected()
      modifies this
      ensures View() == old(View()).(loading := false, user := None, isAuthenticated := false)
    {
      loading, user, isAuthenticated := false, None, false;
    }
  }
}
