/** The authentication records shared by both auth slices. */
module AuthTypes {
  import opened Optional

  datatype User = User(id: string, email: string, name: Option<string>, avatar: Option<string>)

  /** The `{ user, token }` value a successful login or restore hands to the reducers. */
  datatype Session = Session(user: User, token: string)

  /** The auth slice's state. */
  datatype AuthState = AuthState(user: Option<User>, token: Option<string>, isAuthenticated: bool, isLoading: bool)

  const InitialAuthState := AuthState(None, None, false, false)

  /** The session invariant: an authenticated session has both a user and a token. */
  predicate Consistent(s: AuthState) {
    s.isAuthenticated ==> s.user.Some? && s.token.Some?
  }
}

/** Requests, responses and failures as the HTTP client and its interceptors see them. */
module Http {
  import opened Optional
  import opened AuthTypes

  datatype Slide = Slide(id: int, title: string, description: string, icon: string)

  datatype ApplicationRecord = ApplicationRecord(
    applicationId: string, status: string, submittedAt: string, estimatedProcessingTime: string)

  /** What the `data` field of a response body carries. */
  datatype Payload =
    | NoData
    | SessionData(session: Session)
    | SlideList(slides: seq<Slide>)
    | ApplicationData(record: ApplicationRecord)

  /** A response body `{ success, message?, data? }`. */
  datatype Body = Body(success: bool, message: Option<string>, data: Payload)

  datatype CardApplicationRequest = CardApplicationRequest(
    cardUsage: seq<string>, purposes: seq<string>, otherPurpose: Option<string>)

  /** The body a request carries. `JsonText(body)` is the JSON text of `body`: the HTTP
      client turns an object body into that text before the request is sent, and the
      configuration a failed request carries holds the text. */
  datatype RequestBody =
    | NoBody
    | Credentials(email: Option<string>, password: Option<string>)
    | ApplicationForm(form: CardApplicationRequest)
    | JsonText(encoded: RequestBody)

  /** A request configuration (`verb` is its `method`, lower-case as the client stores it).
      Only its `_retry` flag is ever changed after it is built. */
  class RequestConfig {
    const url: Option<string>
    const verb: Option<string>
    const data: RequestBody
    var retry: bool

    constructor (url: Option<string>, verb: Option<string>, data: RequestBody)
      ensures this.url == url && this.verb == verb && this.data == data && !retry
    {
      this.url, this.verb, this.data := url, verb, data;
      retry := false;
    }
  }

  /** A response; `config == null` stands for the empty configuration `{}` of a fabricated response. */
  datatype HttpResponse = HttpResponse(status: int, statusText: string, data: Body, config: RequestConfig?)

  /** A rejected request: its configuration, the response if one came back, and the error message. */
  datatype HttpError = HttpError(config: RequestConfig?, response: Option<HttpResponse>, message: Option<string>)

  /** How a promise returned by the client settles. */
  datatype Outcome = Resolve(response: HttpResponse) | Reject(error: HttpError)

  /** What the network and the client's adapter deliver before any response interceptor runs:
      a reply the client accepts, or a failure (no reply, or a reply with an error status). */
  datatype Transport =
    | Reached(response: HttpResponse)
    | Failed(reply: Option<HttpResponse>, reason: Option<string>)

  /** An async API function either returns a value or throws. */
  datatype Call<+T> = Returned(value: T) | Threw(error: HttpError)

  /** How a thunk settles: fulfilled with its value, or rejected with the value given to `rejectWithValue`. */
  datatype Settled<+T> = Fulfilled(value: T) | Rejected(message: string)
}
