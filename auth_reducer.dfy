/**
 * The authentication slice of the client store. Its source is not part of this model; its
 * transitions are the ones src/__tests__/store/authReducer.test.tsx pins down.
 */
module AuthReducer {
  import opened Wrappers
  import opened UserTypes

  datatype Action =
    | LoginStart
    | LoginSuccess(user: User)
    | LoginFailure(message: string)
    | Logout
    | ClearError
    | Unknown(kind: string)

  const Initial := AuthState(None, false, None)

  /** One transition of the slice. */
  function Step(s: AuthState, a: Action): AuthState {
    match a
    case LoginStart => s.(isLoading := true, error := None)
    case LoginSuccess(u) => AuthState(Some(u), false, None)
    case LoginFailure(m) => s.(isLoading := false, error := Some(m))
    case Logout => Initial
    case ClearError => s.(error := None)
    case Unknown(_) => s
  }

  /** The reducer as the store calls it: an undefined state starts from the initial one. */
  function Reduce(s: Option<AuthState>, a: Action): AuthState {
    Step(s.GetOr(Initial), a)
  }

  /** Starting the store gives `{user: null, isLoading: false, error: null}`. */
  lemma InitialState(kind: string)
    ensures Reduce(None, Unknown(kind)) == AuthState(None, false, None)
  {
  }

  /** `loginStart` sets loading, clears the error and keeps the user, also a signed-in one. */
  lemma LoginStartKeepsUser(s: AuthState)
    ensures Step(s, LoginStart).user == s.user
    ensures Step(s, LoginStart).isLoading && Step(s, LoginStart).error.None?
  {
  }

  /** `loginSuccess(u)` signs `u` in, with no loading and no error, from any state. */
  lemma LoginSuccessSignsIn(s: AuthState, u: User)
    ensures Step(s, LoginSuccess(u)) == AuthState(Some(u), false, None)
  {
  }

  /** `loginFailure(m)` from the initial state records `m` and leaves nobody signed in. */
  lemma LoginFailureFromInitial(m: string)
    ensures Step(Initial, LoginFailure(m)) == AuthState(None, false, Some(m))
  {
  }

  /** `logout` returns exactly the initial state. */
  lemma LogoutResets(s: AuthState)
    ensures Step(s, Logout) == Initial
  {
  }

  /** `clearError` removes the error and touches nothing else, and doing it twice is doing it once. */
  lemma ClearErrorOnlyClears(s: AuthState)
    ensures Step(s, ClearError).user == s.user && Step(s, ClearError).isLoading == s.isLoading
    ensures Step(s, ClearError).error.None?
    ensures Step(Step(s, ClearError), ClearError) == Step(s, ClearError)
  {
  }

  /** The state after a sequence of actions. */
  function Run(s: AuthState, actions: seq<Action>): AuthState {
    if actions == [] then s else Step(Run(s, actions[..|actions| - 1]), actions[|actions| - 1])
  }

  /**
   * `loginStart` and `clearError` never touch the user: through any sequence of them a
   * signed-in user stays signed in.
   */
  lemma {:induction false} UserKeptByStartAndClear(s: AuthState, actions: seq<Action>)
    requires forall i :: 0 <= i < |actions| ==> actions[i] == LoginStart || actions[i] == ClearError
    ensures Run(s, actions).user == s.user
    decreases |actions|
  {
    if actions != [] {
      UserKeptByStartAndClear(s, actions[..|actions| - 1]);
    }
  }
}
