/** The storage-backed auth slice: the login and restore thunks over the secure store,
    the `authAPI.login` adapter in front of the core HTTP client, and the reducers. */
module FeatureAuth {
  import opened Optional
  import opened Text
  import opened AuthTypes
  import opened Http
  import opened MockInterceptor
  import opened SecureStorage
  import opened UserCodec

  const LoginFailed := "Login failed"
  const NetworkError := "Network error. Please try again."
  const LoadFailed := "Failed to load auth data"

  /** `authAPI.login` once the request has settled: a resolved reply gives its body, a
      rejection that carries a response gives that response's body (both of the
      adapter's branches do the same), and a rejection without one is rethrown. */
  function AuthApiLogin(o: Outcome): (c: Call<Body>)
    ensures c.Threw? <==> o.Reject? && o.error.response.None?
    ensures c.Threw? ==> c.error == o.error
    ensures o.Resolve? ==> c == Returned(o.response.data)
    ensures o.Reject? && o.error.response.Some? ==> c == Returned(o.error.response.value.data)
  {
    match o
    case Resolve(response) => Returned(response.data)
    case Reject(error) =>
      if error.response.Some? then
        if !error.response.value.data.success then Returned(error.response.value.data)
        else Returned(error.response.value.data)
      else Threw(error)
  }

  /** A posted login request for the given credentials. */
  predicate LoginRequest(config: RequestConfig, email: string, password: string) {
    config.url == Some(LoginEndpoint) && config.verb == Some("post")
    && config.data == JsonText(Credentials(Some(email), Some(password)))
  }

  /** `authAPI.login({ email, password })`: posts the credentials to `/auth/login`
      through the core client, whose mock answers whenever the request fails. The mock
      is the corrected handler `OnRejected`, which parses the body it is sent. */
  method RequestLogin(email: string, password: string, transport: Transport, now: nat) returns (c: Call<Body>)
    ensures transport.Reached? ==> c == Returned(transport.response.data)
    ensures transport.Failed? ==> c == Returned(MockLoginResponse(Credentials(Some(email), Some(password)), now).data)
  {
    var config := new RequestConfig(Some(LoginEndpoint), Some("post"), JsonText(Credentials(Some(email), Some(password))));
    EndpointIncludesItself(LoginEndpoint);
    c := AuthApiLogin(ThroughMock(config, transport, now));
  }

  /** `response.success && response.data`. */
  predicate LoginSucceeded(b: Body) {
    b.success && b.data.SessionData?
  }

  /** How `loginAsync` settles, given what `authAPI.login` did and whether saving the
      token or the user throws (a fault carries the thrown error's message). */
  function LoginSettlement(call: Call<Body>, tokenFault: Option<string>, userFault: Option<string>): (r: Settled<Session>)
    ensures r.Fulfilled? <==> call.Returned? && LoginSucceeded(call.value) && tokenFault.None? && userFault.None?
    ensures r.Fulfilled? ==> r.value == call.value.data.session
    ensures r.Rejected? ==> r.message != ""
    ensures call.Threw? ==> r == Rejected(OrElse(call.error.message, NetworkError))
    ensures call.Returned? && !LoginSucceeded(call.value) ==> r == Rejected(OrElse(call.value.message, LoginFailed))
    ensures call.Returned? && LoginSucceeded(call.value) && tokenFault.Some? ==> r == Rejected(OrElse(tokenFault, NetworkError))
    ensures call.Returned? && LoginSucceeded(call.value) && tokenFault.None? && userFault.Some? ==>
              r == Rejected(OrElse(userFault, NetworkError))
  {
    match call
    case Threw(e) => Rejected(OrElse(e.message, NetworkError))
    case Returned(b) =>
      if !LoginSucceeded(b) then Rejected(OrElse(b.message, LoginFailed))
      else if tokenFault.Some? then Rejected(OrElse(tokenFault, NetworkError))
      else if userFault.Some? then Rejected(OrElse(userFault, NetworkError))
      else Fulfilled(b.data.session)
  }

  /** What `loginAsync` leaves in the store: on a successful reply the token is written
      first, then the stored text of the user, and a failed write stops the sequence. */
  function LoginWrites(entries: map<string, string>, call: Call<Body>, tokenFault: Option<string>, userFault: Option<string>)
    : (r: map<string, string>)
    ensures LoginSettlement(call, tokenFault, userFault).Fulfilled? ==>
              r == entries[TokenKey := call.value.data.session.token][UserKey := Serialize(call.value.data.session.user)]
    ensures call.Returned? && LoginSucceeded(call.value) && tokenFault.None? && userFault.Some? ==>
              r == entries[TokenKey := call.value.data.session.token]
    ensures !(call.Returned? && LoginSucceeded(call.value) && tokenFault.None?) ==> r == entries
    ensures forall k :: k in entries && k != TokenKey && k != UserKey ==> k in r && r[k] == entries[k]
  {
    if call.Returned? && LoginSucceeded(call.value) && tokenFault.None? then
      var s := call.value.data.session;
      if userFault.None? then entries[TokenKey := s.token][UserKey := Serialize(s.user)]
      else entries[TokenKey := s.token]
    else entries
  }

  /** `loginAsync`'s payload creator. */
  method LoginAsync(call: Call<Body>, storage: SecureStore, tokenFault: Option<string>, userFault: Option<string>)
    returns (r: Settled<Session>)
    modifies storage
    ensures r == LoginSettlement(call, tokenFault, userFault)
    ensures storage.entries == LoginWrites(old(storage.entries), call, tokenFault, userFault)
  {
    match call {
      case Threw(e) =>
        r := Rejected(OrElse(e.message, NetworkError));
      case Returned(b) =>
        if b.success && b.data.SessionData? {
          var failure := SaveToken(storage, b.data.session.token, tokenFault);
          if failure.Some? {
            r := Rejected(OrElse(failure, NetworkError));
            return;
          }
          failure := SaveUser(storage, Serialize(b.data.session.user), userFault);
          if failure.Some? {
            r := Rejected(OrElse(failure, NetworkError));
            return;
          }
          r := Fulfilled(b.data.session);
        } else {
          r := Rejected(OrElse(b.message, LoginFailed));
        }
    }
  }

  /** How `loadAuthFromStorage` settles: a session only when both stored values read
      back truthy, `null` otherwise; stored user text that does not parse rejects with
      the parser's message (`parseError`) or the default. */
  function LoadSettlement(entries: map<string, string>, tokenFails: bool, userFails: bool, parseError: Option<string>)
    : (r: Settled<Option<Session>>)
    ensures r == Fulfilled(None) <==> !Truthy(Stored(entries, TokenKey, tokenFails)) || !Truthy(Stored(entries, UserKey, userFails))
    ensures r.Fulfilled? && r.value.Some? ==>
              !tokenFails && !userFails && TokenKey in entries && UserKey in entries
              && r.value.value.token == entries[TokenKey] && entries[TokenKey] != ""
              && Deserialize(entries[UserKey]) == Some(r.value.value.user)
    ensures r.Rejected? ==> r == Rejected(OrElse(parseError, LoadFailed)) && r.message != ""
    ensures r.Rejected? ==> UserKey in entries && Deserialize(entries[UserKey]).None?
  {
    var token := Stored(entries, TokenKey, tokenFails);
    var text := Stored(entries, UserKey, userFails);
    if !(Truthy(token) && Truthy(text)) then Fulfilled(None)
    else match Deserialize(text.value)
      case None => Rejected(OrElse(parseError, LoadFailed))
      case Some(u) => Fulfilled(Some(Session(u, token.value)))
  }

  /** `loadAuthFromStorage`'s payload creator; it only reads the store. */
  method LoadAuthFromStorage(storage: SecureStore, tokenFails: bool, userFails: bool, parseError: Option<string>)
    returns (r: Settled<Option<Session>>)
    ensures r == LoadSettlement(storage.entries, tokenFails, userFails, parseError)
  {
    var token := GetToken(storage, tokenFails);
    var text := GetUser(storage, userFails);
    if token.Some? && token.value != "" && text.Some? && text.value != "" {
      var user := Deserialize(text.value);
      if user.None? {
        r := Rejected(OrElse(parseError, LoadFailed));
      } else {
        r := Fulfilled(Some(Session(user.value, token.value)));
      }
    } else {
      r := Fulfilled(None);
    }
  }

  /** A session saved by a login reads back as that session, provided the token is not empty. */
  lemma LoginThenRestore(entries: map<string, string>, call: Call<Body>, parseError: Option<string>)
    requires LoginSettlement(call, None, None).Fulfilled?
    requires LoginSettlement(call, None, None).value.token != ""
    ensures LoadSettlement(LoginWrites(entries, call, None, None), false, false, parseError)
            == Fulfilled(Some(LoginSettlement(call, None, None).value))
  {
    var s := LoginSettlement(call, None, None).value;
    RoundTrip(s.user);
    var e := LoginWrites(entries, call, None, None);
    assert e[TokenKey] == s.token;
    assert e[UserKey] == Serialize(s.user);
  }

  /** The actions the slice handles. The restore thunk has no `pending` or `rejected` case. */
  datatype AuthEvent =
    | LoggedOut
    | LoginPending
    | LoginFulfilled(session: Session)
    | LoginRejected
    | RestoreFulfilled(restored: Option<Session>)

  /** The slice's reducer. */
  function Reduce(s: AuthState, e: AuthEvent): AuthState {
    match e
    case LoggedOut => s.(user := None, token := None, isAuthenticated := false)
    case LoginPending => s.(isLoading := true)
    case LoginFulfilled(session) => AuthState(Some(session.user), Some(session.token), true, false)
    case LoginRejected => s.(isLoading := false, isAuthenticated := false)
    case RestoreFulfilled(restored) =>
      if restored.Some? then s.(user := Some(restored.value.user), token := Some(restored.value.token), isAuthenticated := true)
      else s
  }

  /** Every action keeps the session invariant. */
  lemma ReduceKeepsConsistent(s: AuthState, e: AuthEvent)
    requires Consistent(s)
    ensures Consistent(Reduce(s, e))
  {
  }

  /** A rejected login ends unauthenticated and idle but keeps whatever user and token were held. */
  lemma RejectedKeepsCredentials(s: AuthState)
    ensures Reduce(s, LoginRejected).user == s.user && Reduce(s, LoginRejected).token == s.token
    ensures !Reduce(s, LoginRejected).isAuthenticated && !Reduce(s, LoginRejected).isLoading
  {
  }

  /** The converse of the invariant fails: a rejected login after a signed-in session
      leaves a user and a token without authentication. */
  lemma ConverseFailsAfterRejected(session: Session)
    ensures var t := Reduce(Reduce(Reduce(InitialAuthState, LoginFulfilled(session)), LoginPending), LoginRejected);
            t.user.Some? && t.token.Some? && !t.isAuthenticated
  {
  }

  /** The slice's state object, updated in place. */
  class AuthSlice {
    var user: Option<User>
    var token: Option<string>
    var isAuthenticated: bool
    var isLoading: bool

    function State(): AuthState
      reads this
    {
      AuthState(user, token, isAuthenticated, isLoading)
    }

    constructor ()
      ensures State() == InitialAuthState
    {
      user, token, isAuthenticated, isLoading := None, None, false, false;
    }

    /** `logout`: the session is dropped at once, and clearing the store is started
        without waiting for it; its failures are never seen. */
    method Logout(storage: SecureStore, tokenFails: bool, userFails: bool)
      modifies this, storage
      ensures State() == Reduce(old(State()), LoggedOut)
      ensures storage.entries == Cleared(old(storage.entries), tokenFails, userFails)
    {
      user := None;
      token := None;
      isAuthenticated := false;
      ClearAll(storage, tokenFails, userFails);
    }

    method OnLoginPending()
      modifies this
      ensures State() == Reduce(old(State()), LoginPending)
    {
      isLoading := true;
    }

    method OnLoginFulfilled(session: Session)
      modifies this
      ensures State() == Reduce(old(State()), LoginFulfilled(session))
    {
      isLoading := false;
      user := Some(session.user);
      token := Some(session.token);
      isAuthenticated := true;
    }

    method OnLoginRejected()
      modifies this
      ensures State() == Reduce(old(State()), LoginRejected)
    {
      isLoading := false;
      isAuthenticated := false;
    }

    method OnRestoreFulfilled(restored: Option<Session>)
      modifies this
      ensures State() == Reduce(old(State()), RestoreFulfilled(restored))
    {
      if restored.Some? {
        user := Some(restored.value.user);
        token := Some(restored.value.token);
        isAuthenticated := true;
      }
    }

    /** Dispatching `loginAsync({ email, password })`: `pending`, then the payload
        creator, then `fulfilled` or `rejected`. A failed request is answered by the
        corrected mock handler. */
    method Login(email: string, password: string, transport: Transport, now: nat,
                 storage: SecureStore, tokenFault: Option<string>, userFault: Option<string>)
      returns (r: Settled<Session>)
      modifies this, storage
      ensures transport.Failed? ==>
                r == LoginSettlement(Returned(MockLoginResponse(Credentials(Some(email), Some(password)), now).data), tokenFault, userFault)
      ensures transport.Reached? ==> r == LoginSettlement(Returned(transport.response.data), tokenFault, userFault)
      ensures transport.Failed? ==>
                storage.entries == LoginWrites(old(storage.entries),
                                               Returned(MockLoginResponse(Credentials(Some(email), Some(password)), now).data),
                                               tokenFault, userFault)
      ensures transport.Reached? ==>
                storage.entries == LoginWrites(old(storage.entries), Returned(transport.response.data), tokenFault, userFault)
      ensures State() == Reduce(old(State()).(isLoading := true), if r.Fulfilled? then LoginFulfilled(r.value) else LoginRejected)
      ensures old(Consistent(State())) ==> Consistent(State())
    {
      OnLoginPending();
      var call := RequestLogin(email, password, transport, now);
      r := LoginAsync(call, storage, tokenFault, userFault);
      if r.Fulfilled? {
        OnLoginFulfilled(r.value);
      } else {
        OnLoginRejected();
      }
    }

    /** Dispatching `loadAuthFromStorage()`: only a fulfilled restore has a case. */
    method Restore(storage: SecureStore, tokenFails: bool, userFails: bool, parseError: Option<string>)
      returns (r: Settled<Option<Session>>)
      modifies this
      ensures r == LoadSettlement(storage.entries, tokenFails, userFails, parseError)
      ensures State() == if r.Fulfilled? then Reduce(old(State()), RestoreFulfilled(r.value)) else old(State())
      ensures old(Consistent(State())) ==> Consistent(State())
    {
      r := LoadAuthFromStorage(storage, tokenFails, userFails, parseError);
      if r.Fulfilled? {
        OnRestoreFulfilled(r.value);
      }
    }
  }

  /** With the corrected handler, the mock refuses a login with a missing credential or
      a short password, and the refusal reaches the caller as the rejection message. */
  lemma RefusedLoginRejects(config: RequestConfig, email: string, password: string,
                            reply: Option<HttpResponse>, reason: Option<string>, now: nat,
                            tokenFault: Option<string>, userFault: Option<string>)
    requires LoginRequest(config, email, password)
    requires email == "" || password == "" || Utf16Length(password) < 6
    ensures LoginSettlement(AuthApiLogin(ThroughMock(config, Failed(reply, reason), now)), tokenFault, userFault)
            == Rejected(if email == "" || password == "" then CredentialsRequired else PasswordTooShort)
  {
    EndpointIncludesItself(LoginEndpoint);
  }

  /** With the corrected handler, both credentials given and a password of at least six
      code units, the mock signs the user in and the login fulfils with the mock session. */
  lemma AcceptedLoginFulfils(config: RequestConfig, email: string, password: string,
                             reply: Option<HttpResponse>, reason: Option<string>, now: nat)
    requires LoginRequest(config, email, password)
    requires email != "" && password != "" && Utf16Length(password) >= 6
    ensures LoginSettlement(AuthApiLogin(ThroughMock(config, Failed(reply, reason), now)), None, None)
            == Fulfilled(Session(MockUser(email), MockToken(now)))
  {
    EndpointIncludesItself(LoginEndpoint);
  }

  /** With the handler as written, every login that reaches the mock is rejected with
      "Email and password are required", whatever the credentials. */
  lemma AsWrittenLoginRejects(config: RequestConfig, email: string, password: string,
                              reply: Option<HttpResponse>, reason: Option<string>, now: nat,
                              tokenFault: Option<string>, userFault: Option<string>)
    requires LoginRequest(config, email, password)
    ensures LoginSettlement(AuthApiLogin(OnRejectedAsWritten(HttpError(config, reply, reason), now)), tokenFault, userFault)
            == Rejected(CredentialsRequired)
  {
    AsWrittenRefusesEverySentLogin(config, email, password, reply, reason, now);
  }
}
