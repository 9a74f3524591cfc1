/**
 * The session store (src/context/AuthContext.tsx): the reducer over
 * `AuthState` and the provider operations `login`, `register` and `logout`.
 */
module AuthContext {
  import opened Wrappers
  import opened Types

  datatype AuthState = AuthState(
    user: Option<User>,
    isAuthenticated: bool,
    isLoading: bool,
    error: Option<string>)

  /** The SUCCESS payload is whatever the caller passes, so it may be null. */
  datatype AuthAction =
    | LoginStart
    | LoginSuccess(user: Option<User>)
    | LoginError(reason: string)
    | Logout
    | RegisterStart
    | RegisterSuccess(user: Option<User>)
    | RegisterError(reason: string)

  /** The signed-out session: no user, not authenticated, not loading, no error. */
  function InitialState(): (s: AuthState)
    ensures s.user == None && !s.isAuthenticated && !s.isLoading && s.error == None
    ensures SessionInvariant(s)
  {
    AuthState(None, false, false, None)
  }

  /** The session's consistency condition: authenticated exactly when a user is held. */
  predicate SessionInvariant(s: AuthState) {
    s.isAuthenticated <==> s.user.Some?
  }

  /** The SUCCESS actions carry a user; every other action carries none. */
  predicate WellFormedAction(a: AuthAction) {
    (a.LoginSuccess? || a.RegisterSuccess?) ==> a.user.Some?
  }

  /** LOGIN_START and REGISTER_START: loading on, error cleared, the session itself untouched. */
  function Started(s: AuthState): (r: AuthState)
    ensures r.isLoading && r.error == None
    ensures r.user == s.user && r.isAuthenticated == s.isAuthenticated
  {
    s.(isLoading := true, error := None)
  }

  /** LOGIN_SUCCESS and REGISTER_SUCCESS: the payload becomes the user, authenticated. */
  function Succeeded(s: AuthState, user: Option<User>): (r: AuthState)
    ensures r.user == user && r.isAuthenticated && !r.isLoading && r.error == None
    ensures SessionInvariant(r) <==> user.Some?
  {
    s.(user := user, isAuthenticated := true, isLoading := false, error := None)
  }

  /** LOGIN_ERROR and REGISTER_ERROR: the reason is recorded, the session itself untouched. */
  function Failed(s: AuthState, reason: string): (r: AuthState)
    ensures !r.isLoading && r.error == Some(reason)
    ensures r.user == s.user && r.isAuthenticated == s.isAuthenticated
  {
    s.(isLoading := false, error := Some(reason))
  }

  /** `authReducer`. LOGOUT returns the initial state whatever came before. */
  function Reduce(s: AuthState, a: AuthAction): (r: AuthState)
    ensures a.Logout? ==> r == InitialState()
  {
    match a
    case LoginStart => Started(s)
    case RegisterStart => Started(s)
    case LoginSuccess(u) => Succeeded(s, u)
    case RegisterSuccess(u) => Succeeded(s, u)
    case LoginError(reason) => Failed(s, reason)
    case RegisterError(reason) => Failed(s, reason)
    case Logout => InitialState()
  }

  /**
   * Applies a sequence of actions in order, as successive dispatches do: the
   * last action acts on the session the earlier ones reached.
   */
  function ReduceAll(s: AuthState, actions: seq<AuthAction>): (r: AuthState)
    ensures actions != [] ==> r == Reduce(ReduceAll(s, actions[..|actions| - 1]), actions[|actions| - 1])
    decreases |actions|
  {
    if actions == [] then s
    else
      var rest := actions[1..];
      assert rest != [] ==> rest[..|rest| - 1] == actions[..|actions| - 1][1..];
      ReduceAll(Reduce(s, actions[0]), rest)
  }

  /** The login and register variants of each action are the same transition. */
  lemma LoginAndRegisterAgree(s: AuthState, u: Option<User>, reason: string)
    ensures Reduce(s, LoginStart) == Reduce(s, RegisterStart)
    ensures Reduce(s, LoginSuccess(u)) == Reduce(s, RegisterSuccess(u))
    ensures Reduce(s, LoginError(reason)) == Reduce(s, RegisterError(reason))
  {
  }

  /** Every action keeps the session invariant, provided a SUCCESS payload is a user. */
  lemma ReducePreservesInvariant(s: AuthState, a: AuthAction)
    requires SessionInvariant(s) && WellFormedAction(a)
    ensures SessionInvariant(Reduce(s, a))
  {
  }

  /** A SUCCESS with a null payload is the one transition that breaks the invariant. */
  lemma NullSuccessBreaksInvariant(s: AuthState)
    ensures !SessionInvariant(Reduce(s, LoginSuccess(None)))
    ensures !SessionInvariant(Reduce(s, RegisterSuccess(None)))
  {
  }

  /** The invariant holds at every state reached from the initial one by well-formed actions. */
  lemma {:induction false} ReduceAllPreservesInvariant(s: AuthState, actions: seq<AuthAction>)
    requires SessionInvariant(s)
    requires forall i :: 0 <= i < |actions| ==> WellFormedAction(actions[i])
    ensures SessionInvariant(ReduceAll(s, actions))
    decreases |actions|
  {
    if actions != [] {
      ReducePreservesInvariant(s, actions[0]);
      ReduceAllPreservesInvariant(Reduce(s, actions[0]), actions[1..]);
    }
  }

  /** Whatever happened before, a run that ends with LOGOUT ends in the initial state. */
  lemma {:induction false} EndingWithLogoutResets(s: AuthState, actions: seq<AuthAction>)
    requires actions != [] && actions[|actions| - 1] == Logout
    ensures ReduceAll(s, actions) == InitialState()
    decreases |actions|
  {
    if |actions| == 1 {
      assert ReduceAll(Reduce(s, Logout), []) == InitialState();
    } else {
      EndingWithLogoutResets(Reduce(s, actions[0]), actions[1..]);
    }
  }

  /** A login (or registration) that succeeds and is followed by a logout leaves the initial state. */
  lemma LoginThenLogout(s: AuthState, u: User)
    ensures ReduceAll(s, [LoginStart, LoginSuccess(Some(u)), Logout]) == InitialState()
    ensures ReduceAll(s, [RegisterStart, RegisterSuccess(Some(u)), Logout]) == InitialState()
  {
    EndingWithLogoutResets(s, [LoginStart, LoginSuccess(Some(u)), Logout]);
    EndingWithLogoutResets(s, [RegisterStart, RegisterSuccess(Some(u)), Logout]);
  }

  /** The provider: the held session and the operations that dispatch into it. */
  class AuthProvider {
    var state: AuthState

    constructor ()
      ensures state == InitialState() && SessionInvariant(state)
    {
      state := InitialState();
    }

    method Dispatch(a: AuthAction)
      modifies this
      ensures state == Reduce(old(state), a)
    {
      state := Reduce(state, a);
    }

    /**
     * Dispatches START only: the API call is commented out and nothing left in
     * the `try` can throw, so neither SUCCESS nor ERROR is ever dispatched.
     */
    method Login(email: string, password: string)
      modifies this
      ensures state == Started(old(state))
      ensures state.isLoading && state.error == None && state.user == old(state).user
      ensures SessionInvariant(old(state)) ==> SessionInvariant(state)
    {
      Dispatch(LoginStart);
    }

    /** Like `Login`: only REGISTER_START is dispatched. */
    method Register(username: string, email: string, password: string)
      modifies this
      ensures state == Started(old(state))
      ensures state.isLoading && state.error == None && state.user == old(state).user
      ensures SessionInvariant(old(state)) ==> SessionInvariant(state)
    {
      Dispatch(RegisterStart);
    }

    method Logout()
      modifies this
      ensures state == InitialState() && SessionInvariant(state)
    {
      Dispatch(AuthAction.Logout);
    }
  }
}
