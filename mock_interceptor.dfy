/** The mock gateway installed on the core HTTP client: it answers a failed login
    or slides request with a fabricated response and lets every other failure through. */
module MockInterceptor {
  import opened Optional
  import opened Text
  import opened AuthTypes
  import opened Http

  /** Endpoint paths from the client configuration. */
  const LoginEndpoint := "/auth/login"
  const SlidesEndpoint := "/welcome/slides"

  const TokenPrefix := "mock-jwt-token-"
  const CredentialsRequired := "Email and password are required"
  const PasswordTooShort := "Password must be at least 6 characters"

  datatype Route = LoginRoute | SlidesRoute | NotMocked

  /** The configuration is present, its url contains `endpoint` and its method is `verb`. */
  predicate Targets(config: RequestConfig?, endpoint: string, verb: string) {
    config != null && config.url.Some? && Includes(config.url.value, endpoint) && config.verb == Some(verb)
  }

  /** Which mock, if any, handles a failed request; login is tested first. */
  function RouteOf(config: RequestConfig?): (r: Route)
    ensures r == LoginRoute <==> Targets(config, LoginEndpoint, "post")
    ensures r == SlidesRoute <==> Targets(config, SlidesEndpoint, "get")
    ensures r == NotMocked <==> !Targets(config, LoginEndpoint, "post") && !Targets(config, SlidesEndpoint, "get")
  {
    if Targets(config, LoginEndpoint, "post") then LoginRoute
    else if Targets(config, SlidesEndpoint, "get") then SlidesRoute
    else NotMocked
  }

  /** `const { email, password } = requestData || {}`; a string has neither property, so
      JSON text gives no email and no password. */
  function EmailOf(data: RequestBody): Option<string> {
    if data.Credentials? then data.email else None
  }

  function PasswordOf(data: RequestBody): Option<string> {
    if data.Credentials? then data.password else None
  }

  /** The user the mock signs in: id "1", the given email, and the text before the first `@` as name. */
  function MockUser(email: string): (u: User)
    ensures u.id == "1" && u.email == email && u.avatar.None? && u.name.Some?
    ensures '@' !in u.name.value && u.name.value <= email
    ensures |u.name.value| < |email| ==> email == u.name.value + ['@'] + email[|u.name.value| + 1..]
  {
    var name := TextBefore(email, '@');
    assert |name| < |email| ==> email == name + ['@'] + email[|name| + 1..] by {
      if |name| < |email| {
        assert email == email[..|name|] + [email[|name|]] + email[|name| + 1..];
      }
    }
    User("1", email, Some(name), None)
  }

  function MockToken(now: nat): string {
    TokenPrefix + Decimal(now)
  }

  /** The token carries its timestamp: the prefix, then digits that read back as `now`. */
  lemma MockTokenCarriesTimestamp(now: nat)
    ensures |MockToken(now)| > |TokenPrefix| && MockToken(now)[..|TokenPrefix|] == TokenPrefix
    ensures AllDigits(MockToken(now)[|TokenPrefix|..])
    ensures DecimalValue(MockToken(now)[|TokenPrefix|..]) == now
  {
    assert MockToken(now)[|TokenPrefix|..] == Decimal(now);
    DecimalRoundTrip(now);
  }

  /** Tokens issued at different milliseconds differ. */
  lemma MockTokensDistinct(m: nat, n: nat)
    requires m != n
    ensures MockToken(m) != MockToken(n)
  {
    if MockToken(m) == MockToken(n) {
      assert MockToken(m)[|TokenPrefix|..] == Decimal(m);
      assert MockToken(n)[|TokenPrefix|..] == Decimal(n);
      DecimalInjective(m, n);
    }
  }

  function BadRequest(message: string): HttpResponse {
    HttpResponse(400, "Bad Request", Body(false, Some(message), NoData), null)
  }

  /** `mockLoginResponse`, with the clock passed in as `now`. */
  function MockLoginResponse(data: RequestBody, now: nat): (r: HttpResponse)
    ensures r.status == 200 || r.status == 400
    ensures r.data.success <==> r.status == 200
    ensures !Truthy(EmailOf(data)) || !Truthy(PasswordOf(data)) ==> r == BadRequest(CredentialsRequired)
    ensures Truthy(EmailOf(data)) && Truthy(PasswordOf(data)) && Utf16Length(PasswordOf(data).value) < 6
            ==> r == BadRequest(PasswordTooShort)
    ensures r.status == 200 <==> Truthy(EmailOf(data)) && Truthy(PasswordOf(data)) && Utf16Length(PasswordOf(data).value) >= 6
    ensures r.status == 200 ==> r.data == Body(true, None, SessionData(Session(MockUser(EmailOf(data).value), MockToken(now))))
  {
    var email, password := EmailOf(data), PasswordOf(data);
    if !Truthy(email) || !Truthy(password) then BadRequest(CredentialsRequired)
    else if Utf16Length(password.value) < 6 then BadRequest(PasswordTooShort)
    else HttpResponse(200, "OK", Body(true, None, SessionData(Session(MockUser(email.value), MockToken(now)))), null)
  }

  const MockSlides := [
    Slide(1, "Secure & Safe",
      "Your crypto assets are protected with bank-level security and encryption", "lock.shield.fill"),
    Slide(2, "Easy to Use",
      "Manage your digital assets with an intuitive and user-friendly interface", "hand.tap.fill"),
    Slide(3, "Fast Transactions",
      "Send and receive crypto instantly with low fees and high speed", "bolt.fill")
  ]

  /** `mockSlidesResponse`: always a success with three slides numbered 1, 2, 3 in order. */
  function MockSlidesResponse(): (r: HttpResponse)
    ensures r.status == 200 && r.data.success && r.data.data.SlideList?
    ensures |r.data.data.slides| == 3
    ensures forall i :: 0 <= i < 3 ==> r.data.data.slides[i].id == i + 1
  {
    HttpResponse(200, "OK", Body(true, None, SlideList(MockSlides)), null)
  }

  /** A fabricated response with an error status becomes a rejection `{ response, config }`;
      any other resolves the request. */
  function Settle(response: HttpResponse, config: RequestConfig?): (o: Outcome)
    ensures o.Resolve? <==> response.status < 400
    ensures o.Resolve? ==> o.response == response
    ensures o.Reject? ==> o.error == HttpError(config, Some(response), None)
  {
    if response.status >= 400 then Reject(HttpError(config, Some(response), None)) else Resolve(response)
  }

  /** The mock's success handler: both of its branches hand the response back. */
  function OnFulfilled(response: HttpResponse): (r: HttpResponse)
    ensures r == response
  {
    if Targets(response.config, LoginEndpoint, "post") then response else response
  }

  /** The mock's error handler as written: it hands `config.data` to `mockLoginResponse` as it is. */
  function OnRejectedAsWritten(error: HttpError, now: nat): (o: Outcome)
    ensures RouteOf(error.config) == NotMocked ==> o == Reject(error)
    ensures RouteOf(error.config) == LoginRoute ==> o == Settle(MockLoginResponse(error.config.data, now), error.config)
    ensures RouteOf(error.config) == SlidesRoute ==> o == Resolve(MockSlidesResponse())
  {
    match RouteOf(error.config)
    case LoginRoute => Settle(MockLoginResponse(error.config.data, now), error.config)
    case SlidesRoute => Settle(MockSlidesResponse(), error.config)
    case NotMocked => Reject(error)
  }

  /** A sent login request carries its body as JSON text, so the handler as written
      refuses every login, whatever the credentials. */
  lemma AsWrittenRefusesEverySentLogin(config: RequestConfig, email: string, password: string,
                                       reply: Option<HttpResponse>, reason: Option<string>, now: nat)
    requires config.url == Some(LoginEndpoint) && config.verb == Some("post")
    requires config.data == JsonText(Credentials(Some(email), Some(password)))
    ensures OnRejectedAsWritten(HttpError(config, reply, reason), now)
            == Reject(HttpError(config, Some(BadRequest(CredentialsRequired)), None))
  {
    EndpointIncludesItself(LoginEndpoint);
  }

  /** The request data the handler is meant to read: JSON text is parsed back into the
      body it encodes (`JSON.parse`); any other value is taken as it is. */
  function RequestData(data: RequestBody): (r: RequestBody)
    ensures data.JsonText? ==> r == data.encoded
    ensures !data.JsonText? ==> r == data
  {
    if data.JsonText? then data.encoded else data
  }

  /** The mock's error handler, reading the request data back from its JSON text. */
  function OnRejected(error: HttpError, now: nat): (o: Outcome)
    ensures RouteOf(error.config) == NotMocked ==> o == Reject(error)
    ensures RouteOf(error.config) != NotMocked && o.Reject? ==>
      o.error.config == error.config && o.error.response.Some? && o.error.response.value.status >= 400
    ensures o.Resolve? ==> RouteOf(error.config) != NotMocked && o.response.status < 400
    ensures RouteOf(error.config) == LoginRoute ==>
      o == Settle(MockLoginResponse(RequestData(error.config.data), now), error.config)
    ensures RouteOf(error.config) == SlidesRoute ==> o == Resolve(MockSlidesResponse())
  {
    match RouteOf(error.config)
    case LoginRoute => Settle(MockLoginResponse(RequestData(error.config.data), now), error.config)
    case SlidesRoute => Settle(MockSlidesResponse(), error.config)
    case NotMocked => Reject(error)
  }

  /** A request through the core client's response interceptors: the client's own
      handlers pass a reply or a failure on unchanged, then the mock's handlers run. */
  function ThroughMock(config: RequestConfig, transport: Transport, now: nat): (o: Outcome)
    ensures transport.Reached? ==> o == Resolve(transport.response)
    ensures transport.Failed? ==> o == OnRejected(HttpError(config, transport.reply, transport.reason), now)
  {
    match transport
    case Reached(response) => Resolve(OnFulfilled(response))
    case Failed(reply, reason) => OnRejected(HttpError(config, reply, reason), now)
  }

  /** An endpoint path contains itself, so a request to exactly that path is routed. */
  lemma EndpointIncludesItself(s: string)
    ensures Includes(s, s)
  {
    assert OccursAt(s, s, 0);
  }

  /** The handlers registered on a response pipeline, by id; an ejected handler leaves `None`. */
  datatype Handler = MockHandler | OtherHandler

  function Ejected(handlers: seq<Option<Handler>>, id: nat): (r: seq<Option<Handler>>)
    ensures |r| == |handlers|
    ensures forall i :: 0 <= i < |r| ==> r[i] == if i == id then None else handlers[i]
  {
    if id < |handlers| then handlers[id := None] else handlers
  }

  /** The pipeline after `setupMockInterceptor`: the recorded handler ejected, a new mock appended. */
  function AfterSetup(handlers: seq<Option<Handler>>, recorded: Option<nat>): seq<Option<Handler>> {
    (if recorded.Some? then Ejected(handlers, recorded.value) else handlers) + [Some(MockHandler)]
  }

  /** Every active mock handler sits at the recorded id. */
  predicate MockOnlyAt(handlers: seq<Option<Handler>>, recorded: Option<nat>) {
    forall i :: 0 <= i < |handlers| && handlers[i] == Some(MockHandler) ==> recorded == Some(i)
  }

  /** Setting the mock up again keeps a single mock installed, now at the new id, and
      leaves every other handler as it was. */
  lemma SetupKeepsOneMock(handlers: seq<Option<Handler>>, recorded: Option<nat>)
    requires MockOnlyAt(handlers, recorded)
    ensures MockOnlyAt(AfterSetup(handlers, recorded), Some(|handlers|))
    ensures AfterSetup(handlers, recorded)[|handlers|] == Some(MockHandler)
    ensures forall i :: 0 <= i < |handlers| && Some(i) != recorded ==> AfterSetup(handlers, recorded)[i] == handlers[i]
  {
  }

  /** A response-interceptor manager: `use` appends and returns the new id, `eject` clears an id. */
  class InterceptorManager {
    var handlers: seq<Option<Handler>>

    constructor ()
      ensures handlers == []
    {
      handlers := [];
    }

    method Use(h: Handler) returns (id: nat)
      modifies this
      ensures id == |old(handlers)| && handlers == old(handlers) + [Some(h)]
    {
      id := |handlers|;
      handlers := handlers + [Some(h)];
    }

    method Eject(id: nat)
      modifies this
      ensures handlers == Ejected(old(handlers), id)
    {
      if id < |handlers| && handlers[id].Some? {
        handlers := handlers[id := None];
      }
    }
  }

  /** The module's own state: the id of the mock handler it last registered. */
  class MockModule {
    var mockResponseInterceptorId: Option<nat>

    constructor ()
      ensures mockResponseInterceptorId.None?
    {
      mockResponseInterceptorId := None;
    }

    /** `setupMockInterceptor`. */
    method SetupMockInterceptor(client: InterceptorManager)
      modifies this, client
      ensures client.handlers == AfterSetup(old(client.handlers), old(mockResponseInterceptorId))
      ensures mockResponseInterceptorId == Some(|old(client.handlers)|)
      ensures old(MockOnlyAt(client.handlers, mockResponseInterceptorId)) ==>
                MockOnlyAt(client.handlers, mockResponseInterceptorId)
    {
      ghost var before, recorded := client.handlers, mockResponseInterceptorId;
      if mockResponseInterceptorId.Some? {
        client.Eject(mockResponseInterceptorId.value);
      }
      var id := client.Use(MockHandler);
      mockResponseInterceptorId := Some(id);
      if MockOnlyAt(before, recorded) {
        SetupKeepsOneMock(before, recorded);
      }
    }
  }
}
