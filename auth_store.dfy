/** The client's session (frontend/src/stores/authStore.ts): the signed-in user, the access
    token, whether the session counts as authenticated, a loading flag and an error. The token
    is also written to the browser's storage, where the request interceptor reads it. The
    outcome of the profile request `authAPI.me()` is a parameter. */
module AuthStore {
  import opened Wrappers
  import BrowserStorage

  /** `User` (frontend/src/types/auth.ts:1-8). */
  datatype User = User(id: int, email: string, name: Option<string>, isVerified: bool, authProvider: string, accountType: int)

  datatype AuthState = AuthState(
    user: Option<User>,
    token: Option<string>,
    isAuthenticated: bool,
    isLoading: bool,
    error: Option<string>)

  const Initial: AuthState := AuthState(None, None, false, false, None)

  /** `!token` is false: a token is held and it is not empty. */
  predicate HasToken(token: Option<string>)
  {
    token.Some? && token.value != ""
  }

  /** `logout` on the store's fields (frontend/src/stores/authStore.ts:36-39). */
  function LoggedOut(s: AuthState): (r: AuthState)
    ensures r.user.None? && r.token.None? && !r.isAuthenticated
    ensures r.isLoading == s.isLoading && r.error == s.error
  {
    s.(user := None, token := None, isAuthenticated := false)
  }

  /** `checkAuth` (frontend/src/stores/authStore.ts:41-55): without a token nothing happens;
      otherwise the profile is loaded, or the session is logged out when that fails; loading
      ends either way. */
  function CheckAuthStep(s: AuthState, outcome: Settled<User>): (r: AuthState)
    ensures !HasToken(s.token) ==> r == s
    ensures HasToken(s.token) ==> !r.isLoading && r.error == s.error
    ensures HasToken(s.token) && outcome.Fulfilled? ==>
              r.user == Some(outcome.value) && r.isAuthenticated && r.token == s.token
    ensures HasToken(s.token) && outcome.Rejected? ==> r == LoggedOut(s).(isLoading := false)
  {
    if !HasToken(s.token) then s
    else
      match outcome
      case Fulfilled(u) => s.(user := Some(u), isAuthenticated := true, isLoading := false)
      case Rejected(_) => LoggedOut(s).(isLoading := false)
  }

  /** What `persist` keeps (frontend/src/stores/authStore.ts:59-62): the token alone. */
  function Persisted(s: AuthState): Option<string>
  {
    s.token
  }

  /** A fresh page: the stored token over the initial state. */
  function Rehydrate(token: Option<string>): (r: AuthState)
    ensures Persisted(r) == token
    ensures r.user.None? && !r.isAuthenticated
  {
    Initial.(token := token)
  }

  /** After a reload the session is not authenticated until `checkAuth` succeeds; then it is,
      with the same token. */
  lemma ReloadNeedsCheckAuth(s: AuthState, u: User)
    requires HasToken(s.token)
    ensures !Rehydrate(Persisted(s)).isAuthenticated
    ensures var r := CheckAuthStep(Rehydrate(Persisted(s)), Fulfilled(u));
            r.isAuthenticated && r.user == Some(u) && r.token == s.token
  {
  }

  /** A failed check leaves the same state as logging out, whichever session it started from. */
  lemma FailedCheckIsLogout(s: AuthState, t: AuthState, message: Option<string>)
    requires HasToken(s.token) && HasToken(t.token)
    requires s.error == t.error && s.isLoading == t.isLoading
    ensures CheckAuthStep(s, Rejected(message)) == CheckAuthStep(t, Rejected(message))
    ensures !CheckAuthStep(s, Rejected(message)).isAuthenticated
  {
  }

  /** The store object. `storage` is the browser's storage it writes the token to. */
  class Store {
    var user: Option<User>
    var token: Option<string>
    var isAuthenticated: bool
    var isLoading: bool
    var error: Option<string>
    const storage: BrowserStorage.LocalStorage

    function State(): AuthState
      reads this
    {
      AuthState(user, token, isAuthenticated, isLoading, error)
    }

    constructor (storage: BrowserStorage.LocalStorage)
      ensures State() == Initial && this.storage == storage
    {
      this.storage := storage;
      user, token, isAuthenticated, isLoading, error := None, None, false, false, None;
    }

    /** `setToken` (frontend/src/stores/authStore.ts:29-32). */
    method SetToken(t: string)
      modifies this, storage
      ensures State() == old(State()).(token := Some(t), isAuthenticated := true)
      ensures storage.token == Some(t)
    {
      storage.SetToken(t);
      token, isAuthenticated := Some(t), true;
    }

    /** `setUser` (frontend/src/stores/authStore.ts:34). */
    method SetUser(u: User)
      modifies this
      ensures State() == old(State()).(user := Some(u))
    {
      user := Some(u);
    }

    /** `logout` (frontend/src/stores/authStore.ts:36-39). */
    method Logout()
      modifies this, storage
      ensures State() == LoggedOut(old(State()))
      ensures storage.token.None?
    {
      storage.RemoveToken();
      user, token, isAuthenticated := None, None, false;
    }

    /** `checkAuth` (frontend/src/stores/authStore.ts:41-55). */
    method CheckAuth(outcome: Settled<User>)
      modifies this, storage
      ensures State() == CheckAuthStep(old(State()), outcome)
      ensures storage.token == if HasToken(old(token)) && outcome.Rejected? then None else old(storage.token)
    {
      var t := token;
      if t.None? || t.value == "" {
        return;
      }
      isLoading := true;
      match outcome {
        case Fulfilled(u) =>
          user, isAuthenticated := Some(u), true;
        case Rejected(_) =>
          Logout();
      }
      isLoading := false;
    }

    /** `setError` (frontend/src/stores/authStore.ts:57). */
    method SetError(e: Option<string>)
      modifies this
      ensures State() == old(State()).(error := e)
    {
      error := e;
    }
  }
}
