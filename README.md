# Wallet client core: slices, validators and mock gateway

This project models the sequential core of a React Native wallet client and proves
properties of the model. The core has five parts:

- **Card-application slice** (`CardApplication`). The selections the "apply for card"
  form collects: card usages, purposes and a free-text "Others" purpose. Its reducers
  toggle, set and reset them in place. It also holds the state of the submit thunk.
- **The "Next" handler** (`ApplyCard`). It clears the error, runs three ordered checks
  and submits the trimmed payload only when all of them pass.
- **Two auth slices.**
  - `FeatureAuth` is backed by the secure store. Its login thunk goes through
    `authAPI.login` and the core HTTP client's mock gateway, saves the token and the
    user, and can restore them later. The login members describe the program with the
    mock's error handler corrected (`MockInterceptor.OnRejected`; see "## Findings").
    As written, that handler refuses every login it answers
    (`FeatureAuth.AsWrittenLoginRejects`).
  - `StoreAuth` is the variant the login screen uses. Its login thunk always fulfils
    with a fabricated session.
- **Login-form validators** (`Validation`): email shape, password length, and the
  combined form check.
- **Mock gateways.**
  - `MockInterceptor` sits on the core client. It answers a failed login or slides
    request with a fabricated response.
  - `ServicesApi` and `CardApplicationService` sit on the card-application client. A
    one-shot mock, guarded by the request's `_retry` flag, answers a failed submission.

Supporting modules:

- `Optional`: JavaScript's `null`, and the `||` fallback on strings.
- `Text`: `trim`, `includes`, `split(c)[0]`, `.length` in UTF-16 code units, and the
  decimal text of a timestamp.
- `AuthTypes` and `Http`: the records that pass between components.
- `SecureStorage`: the secure store, as a map from key to text.
- `UserCodec`: the text form of a stored user.

How the model is written:

- Each slice's state object is a class whose methods assign its fields. Each method is
  specified by a pure reducer (`Reduce`) over a state datatype, and the listed
  properties are lemmas about that reducer.
- The thunks are methods. Each ends in a `Settled` value, `Fulfilled` or `Rejected`.
- Every clock reading is a parameter: `now` is `Date.now()`, and `isoNow` and
  `settledAt` are `new Date().toISOString()`.
- Every outcome of the platform store is a parameter: whether a write or read fails,
  and with what message.
- What the network delivers is a parameter (`Transport`): a reply, or a failure.

Two properties of the code are easy to assume and do not hold:

- The slice does not tie the free-text purpose to the "Others" selection.
  `setOtherPurpose` sets the text whatever is selected, and `setPurposes` can drop
  "Others" while keeping it. Only `togglePurpose` (on removing "Others") and
  `resetForm` clear it. `CardApplication.OtherPurposeOutlivesSelection` states this.
- The session invariant holds in one direction only: being authenticated implies a
  user and a token are held. In the storage-backed slice a rejected login keeps both
  but clears `isAuthenticated` (`FeatureAuth.ConverseFailsAfterRejected`).

## Model

Each slice method below is specified by its case of the slice's reducer (`Reduce` in
`FeatureAuth`, `StoreAuth` and `CardApplication`); the reducer has no row of its own,
and the lemmas about it do.

| member | source | states |
|---|---|---|
| `Optional.OrElse` | features/auth/store/auth.slice.ts:31 | the JavaScript `or` fallback on an optional string gives the value when it is present and non-empty, and the fallback otherwise |
| `Text.Trim` | shared/utils/validation.ts:16 | the trimmed text neither starts nor ends with a whitespace character of the `\s` class |
| `Text.TrimIgnoresPadding` | shared/utils/validation.ts:16 | adding whitespace on either side of a string never changes what `trim` returns |
| `Text.TrimEmptyIffBlank` | shared/utils/validation.ts:7 | `s.trim()` is empty exactly when every character of `s` is whitespace |
| `Text.TextBefore` | core/api/mock.interceptor.ts:114 | `split(c)[0]` is a prefix with no `c`, followed by a `c` whenever it is shorter than the whole text |
| `Text.Utf16Length` | shared/utils/validation.ts:27-41 | the `.length` the checks compare counts at least one and at most two code units per character |
| `Text.DecimalRoundTrip` | core/api/mock.interceptor.ts:116 | the decimal text of a timestamp reads back as that timestamp |
| `Text.DecimalInjective` | store/authSlice.ts:22 | different timestamps have different decimal texts |
| `Validation.EmailShapeMatchesRegex` | shared/utils/validation.ts:15 | the regex accepts exactly the strings that have no whitespace, exactly one `@` with text before it, and a domain with a `.` that is neither its first nor its last character |
| `Validation.ValidateEmail` | shared/utils/validation.ts:6-24 | a blank email gives "Email is required"; otherwise the result is valid exactly when the trimmed email matches the regex, else "Please enter a valid email address"; an error is present exactly when the result is invalid |
| `Validation.ValidateEmailIgnoresPadding` | shared/utils/validation.ts:16 | whitespace around an email never changes the verdict |
| `Validation.ValidatePassword` | shared/utils/validation.ts:26-49 | valid exactly when 6 <= length <= 128, with no trimming; the "required", "at least 6" and "less than 128" errors apply in that order |
| `Validation.ValidateLoginForm` | shared/utils/validation.ts:51-63 | an invalid email's result wins whatever the password; otherwise the password's result applies; valid exactly when both are valid |
| `MockInterceptor.RouteOf` | core/api/mock.interceptor.ts:28-69 | only a `post` whose url contains `/auth/login` is a login, and only a `get` whose url contains `/welcome/slides` is a slides request; every other request is not mocked |
| `MockInterceptor.MockUser` | core/api/mock.interceptor.ts:111-115 | the user has id "1" and the given email; the name is the text before the first `@` |
| `MockInterceptor.MockTokenCarriesTimestamp` | core/api/mock.interceptor.ts:116 | the token is `mock-jwt-token-` followed by digits that read back as the timestamp |
| `MockInterceptor.MockTokensDistinct` | core/api/mock.interceptor.ts:116 | tokens issued at different milliseconds differ |
| `MockInterceptor.MockLoginResponse` | core/api/mock.interceptor.ts:75-133 | a missing or empty credential gives 400 "Email and password are required", tested first; then a password under 6 code units gives 400 "Password must be at least 6 characters"; otherwise 200 with the mock user and a token for the timestamp; success holds exactly when the status is 200 |
| `MockInterceptor.MockSlidesResponse` | core/api/mock.interceptor.ts:136-173 | always 200 and success, with three slides numbered 1, 2, 3 in order |
| `MockInterceptor.Settle` | core/api/mock.interceptor.ts:33-42 | a fabricated status of 400 or more rejects with `{ response, config }`; any other status resolves with the response |
| `MockInterceptor.OnFulfilled` | core/api/mock.interceptor.ts:15-23 | the success handler returns the response unchanged on both of its paths |
| `MockInterceptor.OnRejectedAsWritten` | core/api/mock.interceptor.ts:24-70 | the error handler as written: an unmocked request is re-rejected unchanged, a slides request resolves with the slides, and a login passes `config.data` to the login mock unparsed |
| `MockInterceptor.AsWrittenRefusesEverySentLogin` | core/api/mock.interceptor.ts:30 | a sent login carries its body as JSON text, so the handler as written answers every login with 400 "Email and password are required" |
| `MockInterceptor.RequestData` | core/api/mock.interceptor.ts:76 | the request data the login mock is meant to destructure: the parsed body when it arrives as JSON text |
| `MockInterceptor.OnRejected` | core/api/mock.interceptor.ts:24-70 | a request that is not mocked is re-rejected unchanged; a login is answered by settling the login mock on the parsed request data; a slides request resolves with the slides; a mocked rejection keeps the request's configuration and carries an error status |
| `MockInterceptor.ThroughMock` | core/api/mock.interceptor.ts:14-70 | a delivered reply reaches the caller unchanged; a failure goes to the error handler |
| `MockInterceptor.SetupKeepsOneMock` | core/api/mock.interceptor.ts:9-14 | after ejecting the recorded handler and appending a new one, the only active mock is the new one at the new id, and every other handler is unchanged |
| `MockInterceptor.MockModule.SetupMockInterceptor` | core/api/mock.interceptor.ts:5-14 | ejects the recorded handler when there is one, registers the mock and records its id; at most one mock handler stays installed |
| `ServicesApi.OnRequest` | services/api.ts:14-21 | every request configuration passes through unchanged |
| `ServicesApi.OnRequestError` | services/api.ts:22-24 | a request error is re-rejected unchanged |
| `ServicesApi.OnResponse` | services/api.ts:29-31 | every successful response passes through unchanged |
| `ServicesApi.ApplicationIdCarriesTimestamp` | services/api.ts:49 | the application id is `APP-` followed by digits that read back as the timestamp |
| `ServicesApi.MockApplicationBody` | services/api.ts:45-54 | the fabricated body is a success with the submission message and a pending application for that timestamp, processed in "3-5 business days" |
| `ServicesApi.OnResponseError` | services/api.ts:32-64 | a `post` whose url contains `/card-application` and whose `_retry` is not set gets `_retry` set and resolves with a 200 mock response; any other error is re-rejected unchanged, with its configuration untouched |
| `ServicesApi.MockFiresOnce` | services/api.ts:39-41 | after the mock has fired for a request, a second failure of the same request is re-rejected |
| `CardApplicationService.ApplicationPathIsMocked` | services/cardApplication.ts:23-26 | the submission path contains `/card-application`, so the mock recognises it |
| `CardApplicationService.SubmitCardApplication` | services/cardApplication.ts:20-28 | a delivered reply gives its body; a failed submission of the fresh request always gets the mock body |
| `SecureStorage.SaveToken` | core/storage/secure-storage.ts:8-15 | a successful write stores the token under `auth_token`; a failed write changes nothing and is passed on |
| `SecureStorage.SaveUser` | core/storage/secure-storage.ts:35-42 | a successful write stores the text under `auth_user`; a failed write changes nothing and is passed on |
| `SecureStorage.GetToken` | core/storage/secure-storage.ts:17-24 | the stored token, or nothing when the read fails |
| `SecureStorage.GetUser` | core/storage/secure-storage.ts:44-51 | the stored user text, or nothing when the read fails |
| `SecureStorage.DeleteToken` | core/storage/secure-storage.ts:26-32 | removes `auth_token` unless the deletion fails, and swallows a failure |
| `SecureStorage.DeleteUser` | core/storage/secure-storage.ts:53-59 | removes `auth_user` unless the deletion fails, and swallows a failure |
| `SecureStorage.Cleared` | core/storage/secure-storage.ts:62-71 | each key goes unless its own deletion fails; no other entry is added, removed or changed |
| `SecureStorage.ClearAll` | core/storage/secure-storage.ts:62-71 | the store afterwards is what `Cleared` describes, and no failure escapes |
| `UserCodec.Serialize` | features/auth/store/auth.slice.ts:24 | the stored text of a user is never empty |
| `UserCodec.RoundTrip` | features/auth/store/auth.slice.ts:48 | reading back the stored text of a user gives that user |
| `FeatureAuth.AuthApiLogin` | features/auth/api/auth.api.ts:6-26 | a resolved reply gives its body; a rejection with a response gives that response's body; only a rejection without a response is rethrown, and unchanged |
| `FeatureAuth.RequestLogin` | features/auth/api/auth.api.ts:8-12 | a delivered reply gives its body; with the corrected mock handler, a failed request gives the login mock's body for the posted credentials |
| `FeatureAuth.LoginSettlement` | features/auth/store/auth.slice.ts:15-36 | fulfils with the reply's session exactly when the reply is a success with data and both saves succeed; a failed reply rejects with its message or "Login failed"; a thrown error or a failed save rejects with its message or "Network error. Please try again."; a rejection message is never empty |
| `FeatureAuth.LoginWrites` | features/auth/store/auth.slice.ts:19-29 | a fulfilled login writes the token and then the user's text; when the user write fails, only the token is written; without a successful reply, or when the token write fails, the store is unchanged; other keys are never touched |
| `FeatureAuth.LoginAsync` | features/auth/store/auth.slice.ts:13-37 | settles as `LoginSettlement` says and leaves the store as `LoginWrites` says |
| `FeatureAuth.LoadSettlement` | features/auth/store/auth.slice.ts:42-59 | null unless both stored values read back non-empty; a session only from a non-empty stored token and user text that parses; unparsable user text rejects with the parser's message or "Failed to load auth data" |
| `FeatureAuth.LoadAuthFromStorage` | features/auth/store/auth.slice.ts:40-60 | settles as `LoadSettlement` says for the store's entries |
| `FeatureAuth.LoginThenRestore` | features/auth/store/auth.slice.ts:19-52 | a session saved by a fulfilled login, with a non-empty token, is restored as that session |
| `FeatureAuth.ReduceKeepsConsistent` | features/auth/store/auth.slice.ts:66-95 | every action keeps `isAuthenticated ⇒ user ≠ null ∧ token ≠ null` |
| `FeatureAuth.RejectedKeepsCredentials` | features/auth/store/auth.slice.ts:85-88 | a rejected login ends unauthenticated and idle, keeping the user and token it had |
| `FeatureAuth.ConverseFailsAfterRejected` | features/auth/store/auth.slice.ts:79-88 | after a fulfilled login, a pending and a rejected one leave a user and a token without authentication |
| `FeatureAuth.RefusedLoginRejects` | core/api/mock.interceptor.ts:33-39 | with the corrected mock handler, a login with a missing credential or a short password is refused by the mock, returned as data by the adapter, and rejected by the thunk with the mock's message |
| `FeatureAuth.AcceptedLoginFulfils` | core/api/mock.interceptor.ts:110-132 | with the corrected mock handler, both credentials present and a password of at least 6 code units, the login fulfils with the mock user and the token for the timestamp |
| `FeatureAuth.AsWrittenLoginRejects` | core/api/mock.interceptor.ts:30 | with the mock handler as written, every posted login that reaches it is rejected with "Email and password are required", whatever the credentials and the store's faults |
| `FeatureAuth.AuthSlice.constructor` | features/auth/store/auth.slice.ts:6-11 | starts signed out and idle |
| `FeatureAuth.AuthSlice.Logout` | features/auth/store/auth.slice.ts:66-72 | drops user and token and clears `isAuthenticated`, keeping `isLoading`; starts clearing both storage keys and never sees a failure |
| `FeatureAuth.AuthSlice.OnLoginPending` | features/auth/store/auth.slice.ts:76-78 | sets only `isLoading` |
| `FeatureAuth.AuthSlice.OnLoginFulfilled` | features/auth/store/auth.slice.ts:79-84 | takes user and token from the payload, authenticates, and stops loading |
| `FeatureAuth.AuthSlice.OnLoginRejected` | features/auth/store/auth.slice.ts:85-88 | stops loading and clears `isAuthenticated` only |
| `FeatureAuth.AuthSlice.OnRestoreFulfilled` | features/auth/store/auth.slice.ts:89-95 | a restored session is taken and authenticates; a null payload changes nothing |
| `FeatureAuth.AuthSlice.Login` | features/auth/store/auth.slice.ts:13-37 | runs pending, the thunk and its settling case; when the request fails the result is the thunk's verdict on the corrected mock's reply; the store ends as `LoginWrites` says for the reply the thunk saw; the session invariant is kept |
| `FeatureAuth.AuthSlice.Restore` | features/auth/store/auth.slice.ts:40-60 | only a fulfilled restore changes the state, as its case says; a rejection leaves it unchanged |
| `StoreAuth.MockLoginAsync` | store/authSlice.ts:11-25 | the session has user id "1", the given email, the text before the first `@` as name, and a token starting `mock-jwt-token-` |
| `StoreAuth.MockLoginIgnoresPassword` | store/authSlice.ts:13-24 | the password has no effect on the session |
| `StoreAuth.MockLoginTokenTimestamp` | store/authSlice.ts:22 | the token's digits read back as the timestamp, so logins at different milliseconds get different tokens |
| `StoreAuth.MockLoginMatchesGateway` | store/authSlice.ts:17-22 | for credentials the mock gateway accepts, this slice issues the same session it does |
| `StoreAuth.ReduceKeepsConsistent` | store/authSlice.ts:30-52 | every action keeps `isAuthenticated ⇒ user ≠ null ∧ token ≠ null` |
| `StoreAuth.RejectedDiffersFromFeatureSlice` | store/authSlice.ts:49-51 | `rejected` resets only `isLoading`, and agrees with the storage-backed slice's `rejected` exactly when the state was not authenticated |
| `StoreAuth.AuthSlice.constructor` | store/authSlice.ts:4-9 | starts signed out and idle |
| `StoreAuth.AuthSlice.Logout` | store/authSlice.ts:32-36 | drops user and token and clears `isAuthenticated`, keeping `isLoading` |
| `StoreAuth.AuthSlice.OnLoginPending` | store/authSlice.ts:40-42 | sets only `isLoading` |
| `StoreAuth.AuthSlice.OnLoginFulfilled` | store/authSlice.ts:43-48 | takes user and token from the payload, authenticates, and stops loading |
| `StoreAuth.AuthSlice.OnLoginRejected` | store/authSlice.ts:49-51 | stops loading and changes nothing else |
| `StoreAuth.AuthSlice.Login` | store/authSlice.ts:11-48 | always fulfils with the mock session and ends authenticated and idle |
| `CardApplication.Without` | store/slices/cardApplicationSlice.ts:54 | the filter removes every occurrence of the tag and keeps every other tag as often as it occurred; it changes nothing when the tag is absent; a one-element list is kept or emptied |
| `CardApplication.WithoutKeepsOrder` | store/slices/cardApplicationSlice.ts:54 | filtering a concatenation is the concatenation of the filtered parts, so the kept tags stay in their order |
| `CardApplication.Toggled` | store/slices/cardApplicationSlice.ts:53-57 | a present tag is removed everywhere; an absent tag is appended at the end |
| `CardApplication.ToggleTwiceRestores` | store/slices/cardApplicationSlice.ts:51-59 | toggling an absent tag twice gives the original list back |
| `CardApplication.ToggleKeepsNoDuplicates` | store/slices/cardApplicationSlice.ts:53-57 | toggling never introduces a duplicate |
| `CardApplication.RejectionMessage` | store/slices/cardApplicationSlice.ts:36-38 | the response body's message, else the error's message, else "Failed to submit application", skipping absent and empty values; never empty |
| `CardApplication.SubmitApplication` | store/slices/cardApplicationSlice.ts:29-41 | fulfils with the delivered body, or with the card-application mock's body when the request fails |
| `CardApplication.FormActionsKeepSubmission` | store/slices/cardApplicationSlice.ts:47-83 | every form action clears the error and leaves `isLoading`, `applicationData` and `lastSubmittedAt` alone |
| `CardApplication.TogglesActOnOneList` | store/slices/cardApplicationSlice.ts:51-76 | each toggle acts on its own list by the toggle rule and leaves the other list alone |
| `CardApplication.TogglesKeepNoDuplicates` | store/slices/cardApplicationSlice.ts:53-74 | both toggles keep both lists free of duplicates |
| `CardApplication.OthersRule` | store/slices/cardApplicationSlice.ts:64-76 | deselecting "Others" empties the free-text purpose; every other toggle, including selecting "Others", keeps it |
| `CardApplication.OtherPurposeOutlivesSelection` | store/slices/cardApplicationSlice.ts:60-80 | the free text can be set while "Others" is not selected, and replacing the purposes never clears it |
| `CardApplication.ResetsAreComplementary` | store/slices/cardApplicationSlice.ts:84-94 | `resetForm` returns the selections and the error to their initial values and keeps the submission; `resetApplication` clears the submission and the error and keeps the selections |
| `CardApplication.SubmitCases` | store/slices/cardApplicationSlice.ts:98-115 | pending starts loading and clears the error; fulfilled stops loading and stores the data and its time; rejected stops loading, stores the message and keeps the data; none of them touches the selections |
| `CardApplication.CardApplicationSlice.constructor` | store/slices/cardApplicationSlice.ts:18-26 | the initial state: nothing selected, no text, idle, no error, no result |
| `CardApplication.CardApplicationSlice.SetCardUsage` | store/slices/cardApplicationSlice.ts:47-50 | replaces the usages and clears the error |
| `CardApplication.CardApplicationSlice.ToggleCardUsage` | store/slices/cardApplicationSlice.ts:51-59 | toggles the usage and clears the error |
| `CardApplication.CardApplicationSlice.SetPurposes` | store/slices/cardApplicationSlice.ts:60-63 | replaces the purposes and clears the error |
| `CardApplication.CardApplicationSlice.TogglePurpose` | store/slices/cardApplicationSlice.ts:64-76 | toggles the purpose, empties the free text when "Others" is deselected, and clears the error |
| `CardApplication.CardApplicationSlice.SetOtherPurpose` | store/slices/cardApplicationSlice.ts:77-80 | replaces the free text and clears the error |
| `CardApplication.CardApplicationSlice.ClearError` | store/slices/cardApplicationSlice.ts:81-83 | clears only the error |
| `CardApplication.CardApplicationSlice.ResetForm` | store/slices/cardApplicationSlice.ts:84-89 | empties both lists, the free text and the error |
| `CardApplication.CardApplicationSlice.ResetApplication` | store/slices/cardApplicationSlice.ts:90-94 | clears the result, its time and the error |
| `CardApplication.CardApplicationSlice.OnSubmitPending` | store/slices/cardApplicationSlice.ts:98-101 | starts loading and clears the error |
| `CardApplication.CardApplicationSlice.OnSubmitFulfilled` | store/slices/cardApplicationSlice.ts:102-111 | stops loading, stores the body's data and the time, and clears the error |
| `CardApplication.CardApplicationSlice.OnSubmitRejected` | store/slices/cardApplicationSlice.ts:112-115 | stops loading and stores the message as the error |
| `CardApplication.CardApplicationSlice.Submit` | store/slices/cardApplicationSlice.ts:29-41 | runs pending, the thunk and the fulfilled case; with the mock in place the submission always fulfils, with the mock body when the request fails |
| `ApplyCard.NextStep` | app/apply-card.tsx:66-86 | no usage, then no purpose, then "Others" with blank text each stop with their alert, in that order; otherwise the payload carries the usages and purposes unchanged, and carries the trimmed, non-empty text exactly when "Others" is selected |
| `ApplyCard.NextStepIgnoresPadding` | app/apply-card.tsx:76-85 | whitespace around the free text never changes the outcome |
| `ApplyCard.NextStepIgnoresTextWithoutOthers` | app/apply-card.tsx:76-85 | without "Others" the free text is neither checked nor sent |
| `ApplyCard.HandleNext` | app/apply-card.tsx:61-95 | clears the error first; submits exactly when every check passes; a failed check leaves the form as it was apart from the error; a passed check fulfils with the server's body when it answers, or with the mock body when the request fails, and the slice stores that body's data |

## Left out

- Artificial delays (`setTimeout`) are not modelled; they do not change any result.
- Clock reads are parameters. So are the network's behaviour and the platform store's failures.
- Overlapping in-flight thunks, and which of them settles last, are not modelled. The
  model runs one action at a time.
- The HTTP client itself is left out: instance creation, base URL, timeout and headers.
  Its interceptor pipeline is reduced to the handlers the core registers. The Bearer
  header and the deletion of the token on a 401 (core/api/client.ts) are not modelled.
- A request body appears only as `JsonText(body)`, the value the client sends. Its
  characters are not modelled.
- JSON serialisation of the stored user is replaced by a length-prefixed text form with
  a proved round trip. A stored user is therefore always an object, never `null`.
- The `isAxiosError` flag of a mocked rejection is not modelled. No caller reads it.
- The mock's `catch (mockError)` branches are not modelled. The response builders cannot
  throw.
- The success alert, the error alert, navigation and all rendering are left out, along
  with every other screen.
- The slides hook's React state (features/welcome/hooks/use-slides.ts) and the welcome
  API adapter are left out.
- The trimmed-blank guard on the login screen (app/login.tsx) is UI and is left out.
- A login reply whose `data` has some shape other than a session counts as not
  succeeding (`FeatureAuth.LoginSucceeded`). `LoginResponse` gives `data` no other shape.
- `FeatureAuth.ReduceKeepsConsistent` holds under the declared `LoginResponse` and `User`
  types, which the model's session and stored-user forms follow. Outside those types the
  code can break the invariant. A reply `{ success: true, data: { user: null, token } }`
  fulfils and authenticates with a `null` user (features/auth/store/auth.slice.ts:19-29,
  79-84). So does a stored user text `"null"`, which `JSON.parse` turns into `null`
  (features/auth/store/auth.slice.ts:47-52, 89-94).

## Findings

| source | as written | input that shows it | evidently intended | confidence | as-written member | corrected member |
|---|---|---|---|---|---|---|
| core/api/mock.interceptor.ts:30,76 | The login mock destructures `email` and `password` from `config.data`. By the time the error handler runs, the client has already turned the request body into JSON text, and a string has neither property. | Logging in as `a@b.co` with password `secret1` while the server is unreachable. The mock answers 400 "Email and password are required". | The mock reads the credentials from the parsed body. | medium, not executed | `MockInterceptor.AsWrittenRefusesEverySentLogin` | `MockInterceptor.OnRejected` |
