/// `AuthController` and `useAuthController`: every step is a partial merge
/// into the four-field authentication state. Each awaited call is an input
/// `Call`; a method that rethrows returns the rejection it propagates.
module AuthController {
  import opened Common
  import opened WebTypes

  datatype AuthState = AuthState(user: Option<User>, isAuthenticated: bool, isLoading: bool, error: Option<string>)

  /** A `Partial<AuthState>`: `None` leaves a field out of the patch. */
  datatype AuthPatch = AuthPatch(
    user: Option<Option<User>>,
    isAuthenticated: Option<bool>,
    isLoading: Option<bool>,
    error: Option<Option<string>>)

  /** The hook's initial state: unauthenticated and loading. */
  const InitialAuthState: AuthState := AuthState(None, false, true, None)

  const EmptyPatch: AuthPatch := AuthPatch(None, None, None, None)

  /** `{ ...prevState, ...newState }` */
  function Merge(s: AuthState, p: AuthPatch): AuthState
  {
    AuthState(
      if p.user.Some? then p.user.value else s.user,
      if p.isAuthenticated.Some? then p.isAuthenticated.value else s.isAuthenticated,
      if p.isLoading.Some? then p.isLoading.value else s.isLoading,
      if p.error.Some? then p.error.value else s.error)
  }

  /** Patch `q` applied over patch `p`: the later value wins. */
  function Then(p: AuthPatch, q: AuthPatch): AuthPatch
  {
    AuthPatch(
      if q.user.Some? then q.user else p.user,
      if q.isAuthenticated.Some? then q.isAuthenticated else p.isAuthenticated,
      if q.isLoading.Some? then q.isLoading else p.isLoading,
      if q.error.Some? then q.error else p.error)
  }

  /** A merge changes exactly the supplied fields; an empty patch changes
      nothing, merging twice is merging once, and two merges in a row are
      one merge of the combined patch. */
  lemma MergeLaws(s: AuthState, p: AuthPatch, q: AuthPatch)
    ensures p.user.None? ==> Merge(s, p).user == s.user
    ensures p.isAuthenticated.None? ==> Merge(s, p).isAuthenticated == s.isAuthenticated
    ensures p.isLoading.None? ==> Merge(s, p).isLoading == s.isLoading
    ensures p.error.None? ==> Merge(s, p).error == s.error
    ensures Merge(s, EmptyPatch) == s
    ensures Merge(Merge(s, p), p) == Merge(s, p)
    ensures Merge(Merge(s, p), q) == Merge(s, Then(p, q))
  {
  }

  /** `{ isLoading: true, error: null }`, the first patch of every request. */
  const Started: AuthPatch := AuthPatch(None, None, Some(true), Some(None))

  /** A signed-in user: the patch after a successful login. */
  function SignedIn(u: User): AuthPatch
  {
    AuthPatch(Some(Some(u)), Some(true), Some(false), Some(None))
  }

  /** A failed request: loading ends and the message is shown. */
  function Failed(thrown: Thrown, operation: string): AuthPatch
  {
    AuthPatch(None, None, Some(false), Some(Some(ErrorMessage(thrown, Fallback(operation)))))
  }

  class AuthController {
    var state: AuthState

    constructor ()
      ensures state == InitialAuthState
    {
      state := InitialAuthState;
    }

    /** `updateState` */
    method UpdateState(p: AuthPatch)
      modifies this
      ensures state == Merge(old(state), p)
    {
      state := Merge(state, p);
    }

    /** `login`, `register`, `loginWithValidation` and
        `registerWithValidation` (`operation` "ログイン" or
        "アカウント作成"): a success signs the user in; a failure shows the
        message, keeps the user and the flag, and is rethrown. */
    method SignIn(operation: string, outcome: Call<User>) returns (rethrown: Option<Thrown>)
      modifies this
      ensures rethrown.Some? <==> outcome.Rejected?
      ensures outcome.Resolved? ==> state == AuthState(Some(outcome.value), true, false, None)
      ensures outcome.Rejected? ==>
                rethrown == Some(outcome.thrown)
                && state == AuthState(old(state).user, old(state).isAuthenticated, false,
                                      Some(ErrorMessage(outcome.thrown, Fallback(operation))))
    {
      UpdateState(Started);
      if outcome.Resolved? {
        UpdateState(SignedIn(outcome.value));
        rethrown := None;
      } else {
        UpdateState(Failed(outcome.thrown, operation));
        rethrown := Some(outcome.thrown);
      }
    }

    /** `logout`: clears the user, the flag and the error, leaves the
        loading flag; a failure of the storage call is swallowed. */
    method Logout(outcome: Call<()>)
      modifies this
      ensures outcome.Resolved? ==> state == AuthState(None, false, old(state).isLoading, None)
      ensures outcome.Rejected? ==> state == old(state)
    {
      if outcome.Resolved? {
        UpdateState(AuthPatch(Some(None), Some(false), None, Some(None)));
      }
    }

    /** `getProfile`: like a sign-in, with its own failure message. */
    method GetProfile(outcome: Call<User>) returns (rethrown: Option<Thrown>)
      modifies this
      ensures rethrown.Some? <==> outcome.Rejected?
      ensures outcome.Resolved? ==> state == AuthState(Some(outcome.value), true, false, None)
      ensures outcome.Rejected? ==>
                rethrown == Some(outcome.thrown)
                && state == AuthState(old(state).user, old(state).isAuthenticated, false,
                                      Some(ErrorMessage(outcome.thrown, Fallback("プロフィール取得"))))
    {
      UpdateState(Started);
      if outcome.Resolved? {
        UpdateState(SignedIn(outcome.value));
        rethrown := None;
      } else {
        UpdateState(Failed(outcome.thrown, "プロフィール取得"));
        rethrown := Some(outcome.thrown);
      }
    }

    /** `updateProfile` ("プロフィール更新") and `updatePreferences`
        ("設定更新"): the user is replaced, the flag never changes. */
    method UpdateUser(operation: string, outcome: Call<User>) returns (rethrown: Option<Thrown>)
      modifies this
      ensures rethrown.Some? <==> outcome.Rejected?
      ensures state.isAuthenticated == old(state).isAuthenticated && !state.isLoading
      ensures outcome.Resolved? ==> state.user == Some(outcome.value) && state.error == None
      ensures outcome.Rejected? ==>
                rethrown == Some(outcome.thrown)
                && state.user == old(state).user
                && state.error == Some(ErrorMessage(outcome.thrown, Fallback(operation)))
    {
      UpdateState(Started);
      if outcome.Resolved? {
        UpdateState(AuthPatch(Some(Some(outcome.value)), None, Some(false), Some(None)));
        rethrown := None;
      } else {
        UpdateState(Failed(outcome.thrown, operation));
        rethrown := Some(outcome.thrown);
      }
    }

    /** `initializeAuth`, from the stored user and token flag. */
    method InitializeAuth(storedUser: Option<User>, hasToken: bool)
      modifies this
      ensures state == AuthState(storedUser, hasToken, false, None)
    {
      UpdateState(AuthPatch(Some(storedUser), Some(hasToken), Some(false), Some(None)));
    }

    method ClearError()
      modifies this
      ensures state == old(state).(error := None)
    {
      UpdateState(AuthPatch(None, None, None, Some(None)));
    }

    /** `getUserById`: returns the user or null, never throws, and never
        touches the signed-in user or the flag. */
    method GetUserById(outcome: Call<User>) returns (u: Option<User>)
      modifies this
      ensures outcome.Resolved? <==> u.Some?
      ensures outcome.Resolved? ==> u == Some(outcome.value) && state.error == None
      ensures outcome.Rejected? ==>
                state.error == Some(ErrorMessage(outcome.thrown, Fallback("ユーザー情報の取得")))
      ensures state.user == old(state).user && state.isAuthenticated == old(state).isAuthenticated
      ensures !state.isLoading
    {
      UpdateState(Started);
      if outcome.Resolved? {
        UpdateState(AuthPatch(None, None, Some(false), Some(None)));
        u := Some(outcome.value);
      } else {
        UpdateState(Failed(outcome.thrown, "ユーザー情報の取得"));
        u := None;
      }
    }

    /** `getCurrentUserWithValidation`: a failure silently signs out. */
    method GetCurrentUserWithValidation(outcome: Call<User>)
      modifies this
      ensures outcome.Resolved? ==> state == AuthState(Some(outcome.value), true, false, None)
      ensures outcome.Rejected? ==> state == AuthState(None, false, false, None)
    {
      UpdateState(Started);
      if outcome.Resolved? {
        UpdateState(SignedIn(outcome.value));
      } else {
        UpdateState(AuthPatch(Some(None), Some(false), Some(false), Some(None)));
      }
    }
  }

  /** In every state a sign-in reaches, the user is present iff the flag
      is set, once that held before. */
  predicate Consistent(s: AuthState)
  {
    s.user.Some? <==> s.isAuthenticated
  }

  /** The patches of sign-in, sign-out and silent failure keep the state
      consistent; the initial state is consistent. */
  lemma ConsistencyPreserved(s: AuthState, u: User, thrown: Thrown, operation: string)
    requires Consistent(s)
    ensures Consistent(InitialAuthState)
    ensures Consistent(Merge(Merge(s, Started), SignedIn(u)))
    ensures Consistent(Merge(Merge(s, Started), Failed(thrown, operation)))
    ensures Consistent(Merge(s, AuthPatch(Some(None), Some(false), None, Some(None))))
  {
  }
}
