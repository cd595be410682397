/** The auth slice the login screen uses: a login thunk that always fulfils with a
    fabricated session, and reducers whose `rejected` case only stops loading. */
module StoreAuth {
  import opened Optional
  import opened Text
  import opened AuthTypes
  import Http
  import MockInterceptor
  import FeatureAuth

  /** `loginAsync`'s payload creator, with `Date.now()` passed in as `now`: the user has
      id "1", the given email and the text before the first `@` as name, and the token
      is `mock-jwt-token-` followed by the timestamp. The password is never looked at. */
  function MockLoginAsync(email: string, password: string, now: nat): (s: Session)
    ensures s.user.id == "1" && s.user.email == email && s.user.avatar.None?
    ensures s.user.name.Some? && '@' !in s.user.name.value && s.user.name.value <= email
    ensures |s.user.name.value| < |email| ==> email[|s.user.name.value|] == '@'
    ensures |s.token| > |MockInterceptor.TokenPrefix| && s.token[..|MockInterceptor.TokenPrefix|] == MockInterceptor.TokenPrefix
  {
    MockInterceptor.MockTokenCarriesTimestamp(now);
    Session(MockInterceptor.MockUser(email), MockInterceptor.MockToken(now))
  }

  /** The password has no say in the session issued. */
  lemma MockLoginIgnoresPassword(email: string, p: string, q: string, now: nat)
    ensures MockLoginAsync(email, p, now) == MockLoginAsync(email, q, now)
  {
  }

  /** The digits after the token prefix read back as the login's timestamp, so logins
      at different milliseconds get different tokens. */
  lemma MockLoginTokenTimestamp(email: string, password: string, now: nat, later: nat)
    ensures var t := MockLoginAsync(email, password, now).token;
            AllDigits(t[|MockInterceptor.TokenPrefix|..]) && DecimalValue(t[|MockInterceptor.TokenPrefix|..]) == now
    ensures now != later ==> MockLoginAsync(email, password, now).token != MockLoginAsync(email, password, later).token
  {
    MockInterceptor.MockTokenCarriesTimestamp(now);
    if now != later {
      MockInterceptor.MockTokensDistinct(now, later);
    }
  }

  /** The session issued here is the one the mock gateway issues for an accepted login. */
  lemma MockLoginMatchesGateway(email: string, password: string, now: nat)
    requires email != "" && password != "" && Utf16Length(password) >= 6
    ensures MockInterceptor.MockLoginResponse(Http.Credentials(Some(email), Some(password)), now).data.data.session
            == MockLoginAsync(email, password, now)
  {
  }

  datatype AuthEvent = LoggedOut | LoginPending | LoginFulfilled(session: Session) | LoginRejected

  /** The slice's reducer. */
  function Reduce(s: AuthState, e: AuthEvent): AuthState {
    match e
    case LoggedOut => s.(user := None, token := None, isAuthenticated := false)
    case LoginPending => s.(isLoading := true)
    case LoginFulfilled(session) => AuthState(Some(session.user), Some(session.token), true, false)
    case LoginRejected => s.(isLoading := false)
  }

  /** Every action keeps the session invariant. */
  lemma ReduceKeepsConsistent(s: AuthState, e: AuthEvent)
    requires Consistent(s)
    ensures Consistent(Reduce(s, e))
  {
  }

  /** Here `rejected` only stops loading; the storage-backed slice also signs out, so the
      two agree on a rejection exactly when the state was not authenticated. */
  lemma RejectedDiffersFromFeatureSlice(s: AuthState)
    ensures Reduce(s, LoginRejected) == s.(isLoading := false)
    ensures Reduce(s, LoginRejected) == FeatureAuth.Reduce(s, FeatureAuth.LoginRejected) <==> !s.isAuthenticated
  {
    if s.isAuthenticated {
      assert Reduce(s, LoginRejected).isAuthenticated != FeatureAuth.Reduce(s, FeatureAuth.LoginRejected).isAuthenticated;
    }
  }

  /** The slice's state object, updated in place. */
  class AuthSlice {
    var user: Option<User>
    var token: Option<string>
    var isAuthenticated: bool
    var isLoading: bool

    function State(): AuthState
      reads this
    {
      AuthState(user, token, isAuthenticated, isLoading)
    }

    constructor ()
      ensures State() == InitialAuthState
    {
      user, token, isAuthenticated, isLoading := None, None, false, false;
    }

    method Logout()
      modifies this
      ensures State() == Reduce(old(State()), LoggedOut)
    {
      user := None;
      token := None;
      isAuthenticated := false;
    }

    method OnLoginPending()
      modifies this
      ensures State() == Reduce(old(State()), LoginPending)
    {
      isLoading := true;
    }

    method OnLoginFulfilled(session: Session)
      modifies this
      ensures State() == Reduce(old(State()), LoginFulfilled(session))
    {
      isLoading := false;
      user := Some(session.user);
      token := Some(session.token);
      isAuthenticated := true;
    }

    method OnLoginRejected()
      modifies this
      ensures State() == Reduce(old(State()), LoginRejected)
    {
      isLoading := false;
    }

    /** Dispatching `loginAsync({ email, password })`: `pending`, then always `fulfilled`. */
    method Login(email: string, password: string, now: nat) returns (session: Session)
      modifies this
      ensures session == MockLoginAsync(email, password, now)
      ensures State() == AuthState(Some(session.user), Some(session.token), true, false)
    {
      OnLoginPending();
      session := MockLoginAsync(email, password, now);
      OnLoginFulfilled(session);
    }
  }
}
