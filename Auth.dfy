/** The authentication context: the reducer over the four-field auth state,
    the decision taken on mount from what the browser storage holds, and the
    login helper's display name and error message. */
module Auth {
  import opened Js

  /** The user record the login helper stores: the e-mail and the name shown. */
  datatype UserInfo = UserInfo(email: string, nameUser: string)

  /** The auth context's state; `user` is `None` for `null`. */
  datatype AuthState = AuthState(user: Option<UserInfo>, token: Option<string>, loading: bool, error: Option<string>)

  /** The dispatched actions: six known types and any other type. A stored
      user that decodes to JSON `null` gives a `LOGIN_SUCCESS` without user. */
  datatype Action =
    | LoginStart
    | LoginSuccess(user: Option<UserInfo>, token: string)
    | LoginFailure(message: string)
    | Logout
    | SetLoading(loading: bool)
    | ClearError
    | Other

  /** Logged out and still loading, until the mount effect has run. */
  const InitialState := AuthState(None, None, true, None)

  /** `authReducer`. */
  function Reduce(s: AuthState, a: Action): AuthState
  {
    match a
    case LoginStart => s.(loading := true, error := None)
    case LoginSuccess(user, token) => s.(user := user, token := Some(token), loading := false, error := None)
    case LoginFailure(message) => s.(user := None, token := None, loading := false, error := Some(message))
    case Logout => s.(user := None, token := None, loading := false, error := None)
    case SetLoading(loading) => s.(loading := loading)
    case ClearError => s.(error := None)
    case Other => s
  }

  /** Actions dispatched one after the other. */
  function ReduceAll(s: AuthState, actions: seq<Action>): AuthState
    decreases |actions|
  {
    if actions == [] then s else ReduceAll(Reduce(s, actions[0]), actions[1..])
  }

  // ---------------------------------------------------------------------
  // The reducer, action by action

  lemma LoginStartEffect(s: AuthState)
    ensures Reduce(s, LoginStart).loading && Reduce(s, LoginStart).error == None
    ensures Reduce(s, LoginStart).user == s.user && Reduce(s, LoginStart).token == s.token
  {
  }

  lemma LoginSuccessEffect(s: AuthState, user: Option<UserInfo>, token: string)
    ensures Reduce(s, LoginSuccess(user, token)) == AuthState(user, Some(token), false, None)
  {
  }

  lemma LoginFailureEffect(s: AuthState, message: string)
    ensures Reduce(s, LoginFailure(message)) == AuthState(None, None, false, Some(message))
  {
  }

  /** Logout ends in the same state whatever came before, hence it is idempotent. */
  lemma LogoutEffect(s: AuthState)
    ensures Reduce(s, Logout) == AuthState(None, None, false, None)
    ensures Reduce(Reduce(s, Logout), Logout) == Reduce(s, Logout)
  {
  }

  /** SET_LOADING changes only `loading`, CLEAR_ERROR only `error`, any other
      action type nothing. */
  lemma NarrowActionsEffect(s: AuthState, loading: bool)
    ensures Reduce(s, SetLoading(loading)) == AuthState(s.user, s.token, loading, s.error)
    ensures Reduce(s, ClearError) == AuthState(s.user, s.token, s.loading, None)
    ensures Reduce(s, Other) == s
  {
  }

  // ---------------------------------------------------------------------
  // An invariant of every reachable state

  /** There is never a user without a token, and an error is only shown
      while logged out. */
  predicate WellFormed(s: AuthState)
  {
    (s.user.Some? ==> s.token.Some?) &&
    (s.error.Some? ==> s.user.None? && s.token.None?)
  }

  /** Every action keeps the state well formed. */
  lemma ReducePreservesWellFormed(s: AuthState, a: Action)
    requires WellFormed(s)
    ensures WellFormed(Reduce(s, a))
  {
  }

  /** Every state reachable from the initial one by any actions is well formed. */
  lemma {:induction false} ReduceAllPreservesWellFormed(s: AuthState, actions: seq<Action>)
    requires WellFormed(s)
    ensures WellFormed(ReduceAll(s, actions))
    decreases |actions|
  {
    if actions != [] {
      ReducePreservesWellFormed(s, actions[0]);
      ReduceAllPreservesWellFormed(Reduce(s, actions[0]), actions[1..]);
    }
  }

  lemma ReachableStatesWellFormed(actions: seq<Action>)
    ensures WellFormed(ReduceAll(InitialState, actions))
  {
    ReduceAllPreservesWellFormed(InitialState, actions);
  }

  /** Dispatching two action lists in turn is dispatching their concatenation. */
  lemma {:induction false} ReduceAllAppend(s: AuthState, xs: seq<Action>, ys: seq<Action>)
    ensures ReduceAll(s, xs + ys) == ReduceAll(ReduceAll(s, xs), ys)
    decreases |xs|
  {
    if xs == [] {
      assert [] + ys == ys;
    } else {
      assert (xs + ys)[0] == xs[0];
      assert (xs + ys)[1..] == xs[1..] + ys;
      ReduceAllAppend(Reduce(s, xs[0]), xs[1..], ys);
    }
  }

  // ---------------------------------------------------------------------
  // Mount

  /** The user entry of the browser storage: its text, and what `JSON.parse`
      makes of it (`None` for `null`). */
  datatype StoredUser = StoredUser(raw: string, decoded: Option<UserInfo>)

  /** The mount effect's decision: a stored token and a stored user (both
      non-empty) restore the session, anything else only ends loading. */
  function MountAction(token: Option<string>, user: Option<StoredUser>): (a: Action)
    ensures a.LoginSuccess? <==> Truthy(token) && user.Some? && user.value.raw != ""
    ensures a.LoginSuccess? ==> a == LoginSuccess(user.value.decoded, token.value)
    ensures !a.LoginSuccess? ==> a == SetLoading(false)
  {
    if Truthy(token) && user.Some? && user.value.raw != "" then
      LoginSuccess(user.value.decoded, token.value)
    else
      SetLoading(false)
  }

  /** After mount the state no longer loads; it is logged in with the stored
      token and user exactly when both were stored, and otherwise is the
      initial state with loading ended. */
  lemma MountOutcome(token: Option<string>, user: Option<StoredUser>)
    ensures !Reduce(InitialState, MountAction(token, user)).loading
    ensures Reduce(InitialState, MountAction(token, user)).error == None
    ensures Truthy(token) && user.Some? && user.value.raw != "" ==>
              Reduce(InitialState, MountAction(token, user)) ==
              AuthState(user.value.decoded, Some(token.value), false, None)
    ensures !(Truthy(token) && user.Some? && user.value.raw != "") ==>
              Reduce(InitialState, MountAction(token, user)) == InitialState.(loading := false)
  {
  }

  // ---------------------------------------------------------------------
  // Login

  /** The display name: the part of the e-mail before its first `@`,
      or the whole e-mail when it has none. */
  function NameUser(email: string): (r: string)
    ensures r <= email
    ensures '@' !in r
    ensures |r| < |email| ==> email[|r|] == '@'
    decreases |email|
  {
    if email == [] || email[0] == '@' then [] else [email[0]] + NameUser(email[1..])
  }

  /** The three facts above determine the name: it is the only prefix of the
      e-mail without `@` that stops at an `@` or at the end. */
  lemma {:induction false} NameUserUnique(email: string, r: string)
    requires r <= email && '@' !in r
    requires |r| < |email| ==> email[|r|] == '@'
    ensures r == NameUser(email)
    decreases |email|
  {
    if email != [] && email[0] != '@' {
      assert r != [] && r[0] == email[0];
      NameUserUnique(email[1..], r[1..]);
      assert r == [r[0]] + r[1..];
    }
  }

  /** An e-mail without `@` is its own name. */
  lemma NameUserWithoutAt(email: string)
    requires '@' !in email
    ensures NameUser(email) == email
  {
    NameUserUnique(email, email);
  }

  /** The outcome of `authService.login`: an access token, or an error whose
      response may carry a `detail` text. */
  datatype LoginOutcome = Granted(accessToken: string) | Refused(detail: Option<string>)

  /** What `login` returns to its caller. */
  datatype LoginReply = LoginReply(success: bool, error: Option<string>)

  /** The message shown for a refused login: the response's detail, or the
      generic text when it is missing or empty. */
  function LoginErrorMessage(detail: Option<string>): (r: string)
    ensures Truthy(detail) ==> r == detail.value
    ensures !Truthy(detail) ==> r == "Error al iniciar sesión"
  {
    OrDefault(detail, "Error al iniciar sesión")
  }

  /** The user record a successful login stores. */
  function LoginUser(email: string): UserInfo
  {
    UserInfo(email, NameUser(email))
  }

  /** The actions `login` dispatches, in order. */
  function LoginActions(email: string, outcome: LoginOutcome): seq<Action>
  {
    match outcome
    case Granted(token) => [LoginStart, LoginSuccess(Some(LoginUser(email)), token)]
    case Refused(detail) => [LoginStart, LoginFailure(LoginErrorMessage(detail))]
  }

  /** What `login` returns. */
  function LoginReplyFor(outcome: LoginOutcome): LoginReply
  {
    match outcome
    case Granted(_) => LoginReply(true, None)
    case Refused(detail) => LoginReply(false, Some(LoginErrorMessage(detail)))
  }

  /** Whatever the state before, a login ends with loading false: logged in
      as the e-mail's user with the granted token, or logged out with the
      same error message that the call returns. */
  lemma LoginOutcomeEffect(s: AuthState, email: string, outcome: LoginOutcome)
    ensures !ReduceAll(s, LoginActions(email, outcome)).loading
    ensures outcome.Granted? ==>
              ReduceAll(s, LoginActions(email, outcome)) ==
              AuthState(Some(UserInfo(email, NameUser(email))), Some(outcome.accessToken), false, None) &&
              LoginReplyFor(outcome).success
    ensures outcome.Refused? ==>
              ReduceAll(s, LoginActions(email, outcome)) ==
              AuthState(None, None, false, LoginReplyFor(outcome).error) &&
              !LoginReplyFor(outcome).success &&
              LoginReplyFor(outcome).error == Some(LoginErrorMessage(outcome.detail))
  {
    var actions := LoginActions(email, outcome);
    assert ReduceAll(s, actions) == ReduceAll(Reduce(Reduce(s, actions[0]), actions[1]), []) by {
      assert actions[1..][1..] == [];
    }
  }

  // ---------------------------------------------------------------------
  // The provider

  /** `AuthProvider`: the reducer's state and the helpers that dispatch to it.
      Browser storage is read as given inputs; its writes are not modelled. */
  class Provider {
    var state: AuthState

    constructor ()
      ensures state == InitialState
    {
      state := InitialState;
    }

    /** `dispatch`. */
    method Dispatch(a: Action)
      modifies this
      ensures state == Reduce(old(state), a)
    {
      state := Reduce(state, a);
    }

    /** The mount effect, given the stored token and user entries. */
    method Mount(token: Option<string>, user: Option<StoredUser>)
      modifies this
      ensures state == Reduce(old(state), MountAction(token, user))
    {
      if Truthy(token) && user.Some? && user.value.raw != "" {
        Dispatch(LoginSuccess(user.value.decoded, token.value));
      } else {
        Dispatch(SetLoading(false));
      }
    }

    /** `login`, given what the auth service answers. */
    method Login(email: string, outcome: LoginOutcome) returns (reply: LoginReply)
      modifies this
      ensures state == ReduceAll(old(state), LoginActions(email, outcome))
      ensures reply == LoginReplyFor(outcome)
      ensures WellFormed(old(state)) ==> WellFormed(state)
    {
      Dispatch(LoginStart);
      match outcome {
        case Granted(token) =>
          var userInfo := UserInfo(email, NameUser(email));
          Dispatch(LoginSuccess(Some(userInfo), token));
          reply := LoginReply(true, None);
        case Refused(detail) =>
          var errorMessage := OrDefault(detail, "Error al iniciar sesión");
          Dispatch(LoginFailure(errorMessage));
          reply := LoginReply(false, Some(errorMessage));
      }
      ghost var actions := LoginActions(email, outcome);
      LoginOutcomeEffect(old(state), email, outcome);
      if WellFormed(old(state)) {
        ReduceAllPreservesWellFormed(old(state), actions);
      }
    }

    /** `logout`, without the storage it clears. */
    method Logout()
      modifies this
      ensures state == Reduce(old(state), Action.Logout)
    {
      Dispatch(Action.Logout);
    }

    /** `clearError`. */
    method ClearError()
      modifies this
      ensures state == Reduce(old(state), Action.ClearError)
    {
      Dispatch(Action.ClearError);
    }
  }
}
