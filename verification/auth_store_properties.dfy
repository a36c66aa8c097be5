/** Properties of the auth store across sequences of actions. */
module AuthStoreProperties {
  import opened Wrappers
  import LS = LocalStorage
  import opened AuthStore
  import FetchApi

  /** Every action the store exposes. */
  datatype Action =
    | LoginAction(d: UserData)
    | LogoutAction
    | RefreshAction(newAccess: string)
    | SetLoadingAction(loading: bool)
    | SetErrorAction(error: Option<string>)

  function Apply(st: AuthState, s: LS.Storage, a: Action): Step {
    match a
    case LoginAction(d) => Login(st, s, d)
    case LogoutAction => Logout(st, s)
    case RefreshAction(t) => RefreshAccessToken(st, s, t)
    case SetLoadingAction(b) => Step(SetLoading(st, b), s)
    case SetErrorAction(e) => Step(SetError(st, e), s)
  }

  /** Applies the actions in order. */
  function ApplyAll(st: AuthState, s: LS.Storage, actions: seq<Action>): Step
    decreases |actions|
  {
    if actions == [] then Step(st, s)
    else
      var next := Apply(st, s, actions[0]);
      ApplyAll(next.state, next.storage, actions[1..])
  }

  /** Every single action keeps `isAuthenticated <==> data != null`. */
  lemma ApplyPreservesConsistency(st: AuthState, s: LS.Storage, a: Action)
    requires Consistent(st)
    ensures Consistent(Apply(st, s, a).state)
  {
  }

  /** The invariant holds in every state reachable from the initial one. */
  lemma {:induction false} ReachableStatesAreConsistent(st: AuthState, s: LS.Storage, actions: seq<Action>)
    requires Consistent(st)
    ensures Consistent(ApplyAll(st, s, actions).state)
    decreases |actions|
  {
    if actions != [] {
      var next := Apply(st, s, actions[0]);
      ApplyPreservesConsistency(st, s, actions[0]);
      ReachableStatesAreConsistent(next.state, next.storage, actions[1..]);
    }
  }

  lemma InitialReachesOnlyConsistentStates(s: LS.Storage, actions: seq<Action>)
    ensures Consistent(ApplyAll(Initial(), s, actions).state)
  {
    ReachableStatesAreConsistent(Initial(), s, actions);
  }

  /** Logging out twice is logging out once. */
  lemma LogoutIdempotent(st: AuthState, s: LS.Storage)
    ensures var once := Logout(st, s); Logout(once.state, once.storage) == once
  {
  }

  /** Refreshing without a session writes nothing anywhere. */
  lemma RefreshWithoutSessionIsNoOp(st: AuthState, s: LS.Storage, t: string)
    requires st.data.None?
    ensures RefreshAccessToken(st, s, t) == Step(st, s)
  {
  }

  /** Two states persist the same snapshot exactly when they agree on the session data and the flag. */
  lemma PersistedSnapshotIsDataAndFlag(a: AuthState, b: AuthState)
    ensures Partialize(a) == Partialize(b) <==> a.data == b.data && a.isAuthenticated == b.isAuthenticated
  {
  }

  /** The loading flag and the error never reach the persisted snapshot. */
  lemma TransientFieldsNotPersisted(st: AuthState, loading: bool, error: Option<string>)
    ensures Partialize(SetLoading(st, loading)) == Partialize(st)
    ensures Partialize(SetError(st, error)) == Partialize(st)
  {
  }

  /** No store action reads or writes the client's own `authToken` key: the
      store's tokens and the client's token are never connected. */
  lemma {:induction false} StoreNeverTouchesClientToken(st: AuthState, s: LS.Storage, actions: seq<Action>)
    ensures LS.GetItem(ApplyAll(st, s, actions).storage, FetchApi.AuthTokenKey) == LS.GetItem(s, FetchApi.AuthTokenKey)
    decreases |actions|
  {
    if actions != [] {
      var next := Apply(st, s, actions[0]);
      assert LS.GetItem(next.storage, FetchApi.AuthTokenKey) == LS.GetItem(s, FetchApi.AuthTokenKey);
      StoreNeverTouchesClientToken(next.state, next.storage, actions[1..]);
    }
  }

  /** Nothing the client does to storage, the 401 teardown included, reaches
      the store's mirrored tokens. */
  lemma ClientNeverTouchesStoreTokens(c: FetchApi.Client, s: LS.Storage, endpoint: string,
                                      opts: FetchApi.Options, outcome: FetchApi.FetchOutcome)
    ensures var e := FetchApi.Request(c, s, endpoint, opts, outcome);
            && LS.GetItem(e.storage, AccessTokenKey) == LS.GetItem(s, AccessTokenKey)
            && LS.GetItem(e.storage, RefreshTokenKey) == LS.GetItem(s, RefreshTokenKey)
  {
  }

  /** Logging the store in does not authorise the client: a client booted from
      the storage afterwards carries exactly the headers it would have without it. */
  lemma LoginDoesNotAuthorizeClient(st: AuthState, s: LS.Storage, d: UserData, apiUrl: Option<string>)
    ensures FetchApi.Boot(apiUrl, Login(st, s, d).storage) == FetchApi.Boot(apiUrl, s)
  {
    var s' := Login(st, s, d).storage;
    assert LS.GetItem(s', FetchApi.AuthTokenKey) == LS.GetItem(s, FetchApi.AuthTokenKey);
  }
}
