/** The persisted auth session store: a record of session data and flags,
    plus the two storage keys it mirrors the tokens under. Each action is a
    transition of the record and the storage together. */
module AuthStore {
  import opened Wrappers
  import LS = LocalStorage

  const AccessTokenKey := "access_token"
  const RefreshTokenKey := "refresh_token"

  datatype Tokens = Tokens(access: string, refresh: string)

  datatype UserData = UserData(role: string, userId: string, tokens: Tokens)

  datatype AuthState = AuthState(data: Option<UserData>, isAuthenticated: bool, isLoading: bool, error: Option<string>)

  /** The part of the state the persistence layer writes out. */
  datatype Persisted = Persisted(data: Option<UserData>, isAuthenticated: bool)

  datatype Step = Step(state: AuthState, storage: LS.Storage)

  /** The store's invariant: it is authenticated exactly when it holds session data. */
  predicate Consistent(st: AuthState) {
    st.isAuthenticated <==> st.data.Some?
  }

  /** The state the store is created with. */
  function Initial(): (st: AuthState)
    ensures Consistent(st) && st.data.None? && !st.isLoading && st.error.None?
  {
    AuthState(None, false, false, None)
  }

  /** `loginUserState(loginData)`: takes the session, clears the error, keeps
      the loading flag, and mirrors both tokens into storage. */
  function Login(st: AuthState, s: LS.Storage, d: UserData): (r: Step)
    ensures r.state.data == Some(d) && r.state.isAuthenticated && r.state.error.None?
    ensures r.state.isLoading == st.isLoading
    ensures Consistent(r.state)
    ensures LS.GetItem(r.storage, AccessTokenKey) == Some(d.tokens.access)
    ensures LS.GetItem(r.storage, RefreshTokenKey) == Some(d.tokens.refresh)
    ensures LS.AgreeOutside(s, r.storage, {AccessTokenKey, RefreshTokenKey})
  {
    var s1 := LS.SetItem(s, AccessTokenKey, d.tokens.access);
    Step(st.(data := Some(d), isAuthenticated := true, error := None),
         LS.SetItem(s1, RefreshTokenKey, d.tokens.refresh))
  }

  /** `logoutUserState()`: drops the session, clears the error, keeps the
      loading flag, and removes both mirrored tokens. */
  function Logout(st: AuthState, s: LS.Storage): (r: Step)
    ensures r.state.data.None? && !r.state.isAuthenticated && r.state.error.None?
    ensures r.state.isLoading == st.isLoading
    ensures Consistent(r.state)
    ensures LS.GetItem(r.storage, AccessTokenKey).None? && LS.GetItem(r.storage, RefreshTokenKey).None?
    ensures LS.AgreeOutside(s, r.storage, {AccessTokenKey, RefreshTokenKey})
  {
    Step(st.(data := None, isAuthenticated := false, error := None),
         LS.RemoveItem(LS.RemoveItem(s, AccessTokenKey), RefreshTokenKey))
  }

  /** `refreshAccessToken(newAccessToken)`: with a session, replaces its access
      token and the mirrored one; without a session, does nothing at all. */
  function RefreshAccessToken(st: AuthState, s: LS.Storage, newAccess: string): (r: Step)
    ensures st.data.None? ==> r == Step(st, s)
    ensures st.data.Some? ==>
              && r.state.data.Some?
              && r.state.data.value.tokens.access == newAccess
              && r.state.data.value.tokens.refresh == st.data.value.tokens.refresh
              && r.state.data.value.role == st.data.value.role
              && r.state.data.value.userId == st.data.value.userId
              && r.state.isAuthenticated == st.isAuthenticated
              && r.state.isLoading == st.isLoading
              && r.state.error == st.error
              && LS.GetItem(r.storage, AccessTokenKey) == Some(newAccess)
              && LS.AgreeOutside(s, r.storage, {AccessTokenKey})
  {
    if st.data.None? then Step(st, s)
    else
      var d := st.data.value;
      Step(st.(data := Some(d.(tokens := d.tokens.(access := newAccess)))),
           LS.SetItem(s, AccessTokenKey, newAccess))
  }

  /** `setLoading(loading)`: only the loading flag changes. */
  function SetLoading(st: AuthState, loading: bool): (r: AuthState)
    ensures r.isLoading == loading
    ensures r.data == st.data && r.isAuthenticated == st.isAuthenticated && r.error == st.error
  {
    st.(isLoading := loading)
  }

  /** `setError(error)`: only the error changes. */
  function SetError(st: AuthState, error: Option<string>): (r: AuthState)
    ensures r.error == error
    ensures r.data == st.data && r.isAuthenticated == st.isAuthenticated && r.isLoading == st.isLoading
  {
    st.(error := error)
  }

  /** `partialize`: the session data and the flag, never the loading flag or the error. */
  function Partialize(st: AuthState): (p: Persisted)
    ensures p.data == st.data && p.isAuthenticated == st.isAuthenticated
  {
    Persisted(st.data, st.isAuthenticated)
  }
}
