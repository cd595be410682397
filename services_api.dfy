/** The card-application HTTP client's interceptors: pass-through handlers and a
    one-shot mock for a failed card-application submission. */
module ServicesApi {
  import opened Optional
  import opened Text
  import opened Http

  const ApplicationEndpoint := "/card-application"
  const ApplicationIdPrefix := "APP-"
  const SubmittedMessage := "Card application submitted successfully"
  const ProcessingTime := "3-5 business days"

  /** The request interceptor hands every configuration on unchanged. */
  function OnRequest(config: RequestConfig): (r: RequestConfig)
    ensures r == config
  {
    config
  }

  /** The request-error handler re-rejects the error unchanged. */
  function OnRequestError(error: HttpError): (o: Outcome)
    ensures o == Reject(error)
  {
    Reject(error)
  }

  /** The response interceptor hands every successful response on unchanged. */
  function OnResponse(response: HttpResponse): (r: HttpResponse)
    ensures r == response
  {
    response
  }

  /** The mock fires for a `post` to a url containing `/card-application` whose `_retry` is not set. */
  predicate FiresApplicationMock(config: RequestConfig?)
    reads config
  {
    config != null && config.url.Some? && Includes(config.url.value, ApplicationEndpoint)
    && config.verb == Some("post") && !config.retry
  }

  function ApplicationId(now: nat): string {
    ApplicationIdPrefix + Decimal(now)
  }

  /** The application id carries its timestamp after the `APP-` prefix, so it is never empty. */
  lemma ApplicationIdCarriesTimestamp(now: nat)
    ensures |ApplicationId(now)| > |ApplicationIdPrefix| && ApplicationId(now)[..|ApplicationIdPrefix|] == ApplicationIdPrefix
    ensures AllDigits(ApplicationId(now)[|ApplicationIdPrefix|..])
    ensures DecimalValue(ApplicationId(now)[|ApplicationIdPrefix|..]) == now
  {
    assert ApplicationId(now)[|ApplicationIdPrefix|..] == Decimal(now);
    DecimalRoundTrip(now);
  }

  /** The fabricated body: a pending application to be processed in 3-5 business days. */
  function MockApplicationBody(now: nat, isoNow: string): (b: Body)
    ensures b.success && b.message == Some(SubmittedMessage) && b.data.ApplicationData?
    ensures b.data.record == ApplicationRecord(ApplicationId(now), "pending", isoNow, ProcessingTime)
  {
    Body(true, Some(SubmittedMessage),
      ApplicationData(ApplicationRecord(ApplicationId(now), "pending", isoNow, ProcessingTime)))
  }

  /** The response interceptor's error handler. `now` is `Date.now()` and `isoNow` the
      same moment as `toISOString()` renders it. Firing marks the request as retried. */
  method OnResponseError(error: HttpError, now: nat, isoNow: string) returns (o: Outcome)
    modifies error.config
    ensures old(FiresApplicationMock(error.config)) ==>
      error.config.retry && o == Resolve(HttpResponse(200, "OK", MockApplicationBody(now, isoNow), error.config))
    ensures !old(FiresApplicationMock(error.config)) ==>
      o == Reject(error) && (error.config != null ==> unchanged(error.config))
  {
    var config := error.config;
    if config != null && config.url.Some? && Includes(config.url.value, ApplicationEndpoint)
       && config.verb == Some("post") && !config.retry {
      config.retry := true;
      o := Resolve(HttpResponse(200, "OK", MockApplicationBody(now, isoNow), config));
    } else {
      o := Reject(error);
    }
  }

  /** The same failed request is never mocked twice: after the mock has fired once,
      handling the error again re-rejects it. */
  method MockFiresOnce(error: HttpError, now: nat, isoNow: string, later: nat, laterIso: string)
    returns (first: Outcome, second: Outcome)
    requires FiresApplicationMock(error.config)
    modifies error.config
    ensures first.Resolve? && first.response.status == 200
    ensures second == Reject(error)
  {
    first := OnResponseError(error, now, isoNow);
    second := OnResponseError(error, later, laterIso);
  }
}

/** `submitCardApplication`: a `post` of the form to `/api/card-application` through
    the card-application client. */
module CardApplicationService {
  import opened Optional
  import opened Text
  import opened Http
  import ServicesApi

  const ApplicationPath := "/api/card-application"

  /** The submission path is one the card-application mock recognises. */
  lemma ApplicationPathIsMocked()
    ensures Includes(ApplicationPath, ServicesApi.ApplicationEndpoint)
  {
    assert OccursAt(ApplicationPath, ServicesApi.ApplicationEndpoint, 4);
  }

  /** Posts the form. A delivered reply is returned as it came; a failed one reaches the
      mock, which, for this fresh request, always fires. */
  method SubmitCardApplication(form: CardApplicationRequest, transport: Transport, now: nat, isoNow: string)
    returns (r: Call<Body>)
    ensures transport.Reached? ==> r == Returned(transport.response.data)
    ensures transport.Failed? ==> r == Returned(ServicesApi.MockApplicationBody(now, isoNow))
  {
    var config := new RequestConfig(Some(ApplicationPath), Some("post"), JsonText(ApplicationForm(form)));
    ApplicationPathIsMocked();
    match transport {
      case Reached(response) =>
        r := Returned(ServicesApi.OnResponse(response).data);
      case Failed(reply, reason) =>
        var o := ServicesApi.OnResponseError(HttpError(config, reply, reason), now, isoNow);
        match o {
          case Resolve(response) => r := Returned(response.data);
          case Reject(e) => r := Threw(e);
        }
    }
  }
}
