/** The card-application screen's "Next" handler: clear the error, run the three
    checks in order, and submit the form only when all of them pass. */
module ApplyCard {
  import opened Optional
  import opened Text
  import opened Http
  import opened CardApplication
  import ServicesApi

  const UsageRequired := "Please select at least one card usage option (Online Shopping or Overseas Use)"
  const PurposeRequired := "Please select at least one purpose for transaction"
  const OtherRequired := "Please specify the purpose when selecting \"Others\""

  /** What pressing "Next" leads to: a validation alert, or a submission of the payload. */
  datatype Step = ValidationAlert(message: string) | Proceed(payload: CardApplicationRequest)

  /** The checks of `handleNext` and the payload it builds; the first failing check wins. */
  function NextStep(usage: seq<string>, purposes: seq<string>, otherPurpose: string): (r: Step)
    ensures usage == [] ==> r == ValidationAlert(UsageRequired)
    ensures usage != [] && purposes == [] ==> r == ValidationAlert(PurposeRequired)
    ensures usage != [] && purposes != [] && Others in purposes && AllSpace(otherPurpose) ==> r == ValidationAlert(OtherRequired)
    ensures r.Proceed? <==> usage != [] && purposes != [] && (Others in purposes ==> !AllSpace(otherPurpose))
    ensures r.Proceed? ==> r.payload.cardUsage == usage && r.payload.purposes == purposes
    ensures r.Proceed? ==> (r.payload.otherPurpose.Some? <==> Others in purposes)
    ensures r.Proceed? && r.payload.otherPurpose.Some? ==>
              r.payload.otherPurpose.value == Trim(otherPurpose) && r.payload.otherPurpose.value != ""
  {
    TrimEmptyIffBlank(otherPurpose);
    if |usage| == 0 then ValidationAlert(UsageRequired)
    else if |purposes| == 0 then ValidationAlert(PurposeRequired)
    else if Others in purposes && Trim(otherPurpose) == "" then ValidationAlert(OtherRequired)
    else Proceed(CardApplicationRequest(usage, purposes, if Others in purposes then Some(Trim(otherPurpose)) else None))
  }

  /** Whitespace around the free-text purpose never changes what "Next" does. */
  lemma NextStepIgnoresPadding(usage: seq<string>, purposes: seq<string>, p: string, otherPurpose: string, q: string)
    requires AllSpace(p) && AllSpace(q)
    ensures NextStep(usage, purposes, p + otherPurpose + q) == NextStep(usage, purposes, otherPurpose)
  {
    TrimIgnoresPadding(p, otherPurpose, q);
    TrimEmptyIffBlank(otherPurpose);
    TrimEmptyIffBlank(p + otherPurpose + q);
  }

  /** Without "Others" selected the free text is ignored: it is neither checked nor sent. */
  lemma NextStepIgnoresTextWithoutOthers(usage: seq<string>, purposes: seq<string>, a: string, b: string)
    requires Others !in purposes
    ensures NextStep(usage, purposes, a) == NextStep(usage, purposes, b)
  {
  }

  /** `handleNext`: `clearError` is dispatched first; a failed check raises its alert
      (given back as the step) and stops; otherwise the payload is submitted. `result` is
      how the dispatched thunk settled, when one was dispatched. */
  method HandleNext(slice: CardApplicationSlice, transport: Transport, now: nat, isoNow: string, settledAt: string)
    returns (step: Step, result: Option<Settled<Body>>)
    modifies slice
    ensures step == NextStep(old(slice.selectedCardUsage), old(slice.selectedPurposes), old(slice.otherPurpose))
    ensures result.Some? <==> step.Proceed?
    ensures step.ValidationAlert? ==> slice.State() == Reduce(old(slice.State()), ErrorCleared)
    ensures step.Proceed? ==>
              result.value.Fulfilled?
              && slice.State() == Reduce(Reduce(Reduce(old(slice.State()), ErrorCleared), SubmitPending),
                                         SubmitFulfilled(result.value.value, settledAt))
    ensures step.Proceed? && transport.Reached? ==> result == Some(Fulfilled(transport.response.data))
    ensures step.Proceed? && transport.Failed? ==> result == Some(Fulfilled(ServicesApi.MockApplicationBody(now, isoNow)))
  {
    slice.ClearError();
    step := NextStep(slice.selectedCardUsage, slice.selectedPurposes, slice.otherPurpose);
    if step.Proceed? {
      var r := slice.Submit(step.payload, transport, now, isoNow, settledAt);
      result := Some(r);
    } else {
      result := None;
    }
  }
}
