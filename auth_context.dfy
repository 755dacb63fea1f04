/** The client's global authentication state and the reducer behind its `dispatch`. */
module AuthContext {
  import opened Common

  /** What the state's `user` holds. The declared type is a string and the initial value is
      "", but the pages dispatch an object with the signed-in user's email and token. */
  datatype AuthUser = Name(name: string) | Session(email: Option<string>, token: Option<string>)

  datatype State = State(user: AuthUser)

  datatype ActionType = LoggedInUser | LoggedOutUser

  datatype Payload = Payload(user: AuthUser)

  /** An action; `payload` is `None` for a `null` payload. */
  datatype Action = Action(kind: ActionType, payload: Option<Payload>)

  const InitialState: State := State(Name(""))

  /** The reducer reads `action.payload.user` for `LOGGED_IN_USER` without a null check, so a
      `null` payload makes it throw. */
  predicate InDomain(a: Action)
  {
    a.kind.LoggedInUser? ==> a.payload.Some?
  }

  /** `firebaseReducer`: `LOGGED_IN_USER` installs the payload's user, every other action
      (the declared `LOGGED_OUT_USER` included) leaves the state as it is. */
  function FirebaseReducer(state: State, action: Action): (next: State)
    requires InDomain(action)
    ensures action.kind.LoggedInUser? ==> next.user == action.payload.value.user
    ensures action.kind.LoggedOutUser? ==> next == state
  {
    match action.kind
    case LoggedInUser => state.(user := action.payload.value.user)
    case _ => state
  }

  /** The initial state has the empty user name. */
  lemma InitialUserIsEmpty()
    ensures InitialState.user == Name("") && InitialState.user.name == ""
  {
  }

  /** Dispatching the same login twice is the same as dispatching it once. */
  lemma LoginIsIdempotent(state: State, action: Action)
    requires InDomain(action)
    ensures FirebaseReducer(FirebaseReducer(state, action), action) == FirebaseReducer(state, action)
  {
  }

  /** The logout in the navigation bar dispatches `LOGGED_IN_USER` with a `null` payload:
      outside the reducer's domain. */
  const NavLogoutAction: Action := Action(LoggedInUser, None)

  lemma NavLogoutIsOutsideDomain()
    ensures !InDomain(NavLogoutAction)
  {
  }

  /** A run of dispatches, oldest first. */
  function Dispatch(state: State, actions: seq<Action>): State
    requires forall i :: 0 <= i < |actions| ==> InDomain(actions[i])
    decreases |actions|
  {
    if actions == [] then state else Dispatch(FirebaseReducer(state, actions[0]), actions[1..])
  }

  /** The user of the most recent `LOGGED_IN_USER` action, or `fallback` if there is none. */
  function LatestLogin(actions: seq<Action>, fallback: AuthUser): AuthUser
    requires forall i :: 0 <= i < |actions| ==> InDomain(actions[i])
  {
    if actions == [] then fallback
    else
      var last := actions[|actions| - 1];
      assert InDomain(last);
      if last.kind.LoggedInUser? then last.payload.value.user
      else LatestLogin(actions[..|actions| - 1], fallback)
  }

  lemma {:induction false} DispatchSnoc(state: State, actions: seq<Action>, a: Action)
    requires forall i :: 0 <= i < |actions| ==> InDomain(actions[i])
    requires InDomain(a)
    ensures forall i :: 0 <= i < |actions + [a]| ==> InDomain((actions + [a])[i])
    ensures Dispatch(state, actions + [a]) == FirebaseReducer(Dispatch(state, actions), a)
    decreases |actions|
  {
    if actions != [] {
      assert (actions + [a])[1..] == actions[1..] + [a];
      DispatchSnoc(FirebaseReducer(state, actions[0]), actions[1..], a);
    }
  }

  /** After any run of dispatches the state holds the user of the latest login, or the
      starting user when no login was dispatched: the reducer remembers nothing else. */
  lemma {:induction false} DispatchKeepsLatestLogin(state: State, actions: seq<Action>)
    requires forall i :: 0 <= i < |actions| ==> InDomain(actions[i])
    ensures Dispatch(state, actions).user == LatestLogin(actions, state.user)
  {
    if actions != [] {
      var init, last := actions[..|actions| - 1], actions[|actions| - 1];
      assert actions == init + [last];
      DispatchSnoc(state, init, last);
      DispatchKeepsLatestLogin(state, init);
    }
  }
}
