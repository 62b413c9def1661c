/**
 * The Redux auth slice (store/authSlice.ts): a loading/error/session state
 * machine driven by the login, register and logout thunks.
 */
module AuthSlice {
  import opened Common
  import opened Storage
  import AuthClient

  const LOGIN_FAILED: string := "Invalid username or password"
  const REGISTER_FAILED: string := "Registration failed"

  datatype AuthState = AuthState(isAuthenticated: bool, loading: bool, error: Option<string>)

  /** The actions the slice can receive; the logout pending and rejected actions have no case. */
  datatype Action =
    | LoginPending | LoginFulfilled | LoginRejected(payload: string)
    | RegisterPending | RegisterFulfilled | RegisterRejected(payload: string)
    | LogoutPending | LogoutFulfilled | LogoutRejected
    | ClearError

  /** `initialState`: the session view is read from the store at load time. */
  function Initial(items: map<string, string>): (s: AuthState)
    ensures s.isAuthenticated == AuthClient.IsAuthenticated(items)
    ensures !s.loading && s.error == None
  {
    AuthState(AuthClient.IsAuthenticated(items), false, None)
  }

  /** The slice's reducer: `reducers` plus `extraReducers`. */
  function Reduce(s: AuthState, a: Action): AuthState {
    match a
    case LoginPending => s.(loading := true, error := None)
    case LoginFulfilled => s.(loading := false, isAuthenticated := true)
    case LoginRejected(payload) => s.(loading := false, error := Some(payload))
    case RegisterPending => s.(loading := true, error := None)
    case RegisterFulfilled => s.(loading := false)
    case RegisterRejected(payload) => s.(loading := false, error := Some(payload))
    case LogoutFulfilled => s.(isAuthenticated := false)
    case ClearError => s.(error := None)
    case LogoutPending => s
    case LogoutRejected => s
  }

  /** The action the login thunk ends with: fulfilled on a response, else the fixed message. */
  function LoginOutcome(response: Option<AuthClient.AuthResponse>): (a: Action)
    ensures a == LoginFulfilled || a == LoginRejected(LOGIN_FAILED)
    ensures a == LoginFulfilled <==> response.Some?
  {
    if response.Some? then LoginFulfilled else LoginRejected(LOGIN_FAILED)
  }

  /** The action the register thunk ends with. */
  function RegisterOutcome(created: bool): (a: Action)
    ensures a == RegisterFulfilled || a == RegisterRejected(REGISTER_FAILED)
    ensures a == RegisterFulfilled <==> created
  {
    if created then RegisterFulfilled else RegisterRejected(REGISTER_FAILED)
  }

  /** The action the logout thunk ends with: the server call's rejection propagates. */
  function LogoutOutcome(serverCall: AuthClient.CallOutcome): (a: Action)
    ensures a == LogoutFulfilled <==> serverCall.Resolved?
    ensures a == LogoutFulfilled || a == LogoutRejected
  {
    if serverCall.Resolved? then LogoutFulfilled else LogoutRejected
  }

  /**
   * The login thunk: the server's response (None when the call was rejected)
   * is given; the tokens are saved only after a successful response.
   */
  method LoginThunk(st: LocalStorage, response: Option<AuthClient.AuthResponse>) returns (a: Action)
    modifies st
    ensures a == LoginOutcome(response)
    ensures response.Some? ==> st.items == AuthClient.Saved(old(st.items), response.value)
    ensures response.None? ==> st.items == old(st.items)
  {
    if response.Some? {
      AuthClient.SaveTokens(st, response.value);
      a := LoginFulfilled;
    } else {
      a := LoginRejected(LOGIN_FAILED);
    }
  }

  /** The logout thunk: `authService.logout` clears the store on both paths. */
  method LogoutThunk(st: LocalStorage, serverCall: AuthClient.CallOutcome) returns (a: Action)
    modifies st
    ensures a == LogoutOutcome(serverCall)
    ensures st.items == AuthClient.Cleared(old(st.items))
  {
    var r := AuthClient.Logout(st, serverCall);
    a := if r.Resolved? then LogoutFulfilled else LogoutRejected;
  }

  class Slice {
    var isAuthenticated: bool
    var loading: bool
    var error: Option<string>

    function State(): AuthState
      reads this
    {
      AuthState(isAuthenticated, loading, error)
    }

    constructor (st: LocalStorage)
      ensures State() == Initial(st.items)
    {
      isAuthenticated := AuthClient.IsAuthenticated(st.items);
      loading := false;
      error := None;
    }

    method Dispatch(a: Action)
      modifies this
      ensures State() == Reduce(old(State()), a)
    {
      match a {
        case LoginPending =>
          loading := true;
          error := None;
        case LoginFulfilled =>
          loading := false;
          isAuthenticated := true;
        case LoginRejected(payload) =>
          loading := false;
          error := Some(payload);
        case RegisterPending =>
          loading := true;
          error := None;
        case RegisterFulfilled =>
          loading := false;
        case RegisterRejected(payload) =>
          loading := false;
          error := Some(payload);
        case LogoutFulfilled =>
          isAuthenticated := false;
        case ClearError =>
          error := None;
        case LogoutPending =>
        case LogoutRejected =>
      }
    }
  }

  // ---------------------------------------------------------------------------
  // Properties of the reducer

  /** Only `logout.fulfilled` ends a session. */
  lemma OnlyLogoutFulfilledLogsOut(s: AuthState, a: Action)
    requires s.isAuthenticated && !Reduce(s, a).isAuthenticated
    ensures a == LogoutFulfilled
  {
  }

  /** Only `login.fulfilled` starts a session. */
  lemma OnlyLoginFulfilledLogsIn(s: AuthState, a: Action)
    requires !s.isAuthenticated && Reduce(s, a).isAuthenticated
    ensures a == LoginFulfilled
  {
  }

  /** Registering never changes the session view. */
  lemma RegisterKeepsSession(s: AuthState, created: bool)
    ensures Reduce(s, RegisterPending).isAuthenticated == s.isAuthenticated
    ensures Reduce(s, RegisterOutcome(created)).isAuthenticated == s.isAuthenticated
  {
  }

  /** A rejected login or register stops loading, shows its payload and keeps the session view. */
  lemma RejectionShowsPayload(s: AuthState, payload: string)
    ensures var t := Reduce(s, LoginRejected(payload));
      !t.loading && t.error == Some(payload) && t.isAuthenticated == s.isAuthenticated
    ensures var t := Reduce(s, RegisterRejected(payload));
      !t.loading && t.error == Some(payload) && t.isAuthenticated == s.isAuthenticated
  {
  }

  /** The pending cases start loading and clear the error; nothing else. */
  lemma PendingStartsLoading(s: AuthState)
    ensures Reduce(s, LoginPending) == s.(loading := true, error := None)
    ensures Reduce(s, RegisterPending) == s.(loading := true, error := None)
  {
  }

  /** `clearError` changes only the error. */
  lemma ClearErrorOnlyError(s: AuthState)
    ensures Reduce(s, ClearError) == s.(error := None)
  {
  }

  /** A successful login ends authenticated and not loading. */
  lemma LoginFulfilledAuthenticates(s: AuthState)
    ensures Reduce(s, LoginOutcome(None)).isAuthenticated == s.isAuthenticated
    ensures forall r :: var t := Reduce(s, LoginOutcome(Some(r))); t.isAuthenticated && !t.loading
  {
  }

  /**
   * A logout whose server call fails clears the stored pair, yet the slice
   * keeps `isAuthenticated` unchanged, because `logout.rejected` has no case.
   */
  lemma FailedLogoutKeepsSessionView(s: AuthState, items: map<string, string>, message: string)
    ensures Reduce(s, LogoutOutcome(AuthClient.Rejected(message))) == s
    ensures !AuthClient.IsAuthenticated(AuthClient.Cleared(items))
  {
  }
}
