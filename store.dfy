/** The `auth` slice of the Redux store (store.ts): who is signed in, and with which bearer token. */
module Store {
  import opened Optional
  import opened Types

  datatype AuthState = AuthState(user: Option<User>, token: Option<string>)

  const InitialState := AuthState(None, None)

  /** The slice's invariant: a user is stored exactly when a token is. */
  predicate Consistent(s: AuthState) {
    s.user.None? <==> s.token.None?
  }

  datatype AuthAction = SetAuth(user: User, token: string) | ClearAuth

  /** `authSlice.reducer`: the next state after one dispatched action. */
  function Reduce(s: AuthState, a: AuthAction): (r: AuthState)
    ensures Consistent(r)
    ensures r.token.Some? <==> a.SetAuth?
    ensures a.SetAuth? ==> r.user == Some(a.user) && r.token == Some(a.token)
  {
    match a
    case SetAuth(user, token) => AuthState(Some(user), Some(token))
    case ClearAuth => AuthState(None, None)
  }

  /** The state after dispatching `actions` in order. */
  function Run(s: AuthState, actions: seq<AuthAction>): AuthState
    decreases |actions|
  {
    if actions == [] then s else Run(Reduce(s, actions[0]), actions[1..])
  }

  /** The slice as the case reducers see it: a draft whose two fields are assigned in place. */
  class AuthSlice {
    var user: Option<User>
    var token: Option<string>

    function State(): AuthState
      reads this
    {
      AuthState(user, token)
    }

    predicate Valid()
      reads this
    {
      Consistent(State())
    }

    /** `initialState`. */
    constructor ()
      ensures State() == InitialState && Valid()
    {
      user := None;
      token := None;
    }

    /** `setAuth`: both fields take the payload, whatever they held. */
    method SetAuth(payloadUser: User, payloadToken: string)
      requires Valid()
      modifies this
      ensures user == Some(payloadUser) && token == Some(payloadToken)
      ensures State() == Reduce(old(State()), AuthAction.SetAuth(payloadUser, payloadToken))
      ensures Valid()
    {
      user := Some(payloadUser);
      token := Some(payloadToken);
    }

    /** `clearAuth`: both fields become null. */
    method ClearAuth()
      requires Valid()
      modifies this
      ensures user == None && token == None
      ensures State() == Reduce(old(State()), AuthAction.ClearAuth)
      ensures Valid()
    {
      user := None;
      token := None;
    }
  }

  /** Every state reachable from `initialState` keeps the invariant. */
  lemma {:induction false} RunConsistent(s: AuthState, actions: seq<AuthAction>)
    requires Consistent(s)
    ensures Consistent(Run(s, actions))
    decreases |actions|
  {
    if actions != [] {
      RunConsistent(Reduce(s, actions[0]), actions[1..]);
    }
  }

  /** After any non-empty run, the state is fixed by the last action alone. */
  lemma {:induction false} LastActionWins(s: AuthState, actions: seq<AuthAction>)
    requires actions != []
    ensures Run(s, actions) == Reduce(InitialState, actions[|actions| - 1])
    decreases |actions|
  {
    if |actions| > 1 {
      LastActionWins(Reduce(s, actions[0]), actions[1..]);
    }
  }

  lemma ClearAuthIdempotent(s: AuthState)
    ensures Reduce(Reduce(s, ClearAuth), ClearAuth) == Reduce(s, ClearAuth) == InitialState
  {
  }

  lemma SetAuthOverwrites(s: AuthState, a: User, ta: string, b: User, tb: string)
    ensures Reduce(Reduce(s, SetAuth(a, ta)), SetAuth(b, tb)) == Reduce(s, SetAuth(b, tb))
    ensures Reduce(Reduce(s, SetAuth(a, ta)), ClearAuth) == InitialState
  {
  }
}
