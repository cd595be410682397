/** The card-application slice: the selections the form collects, the submit thunk's
    state, the reducers that update them in place, and the submit thunk itself. */
module CardApplication {
  import opened Optional
  import opened Http
  import ServicesApi
  import CardApplicationService

  const Others := "Others"
  const DefaultFailure := "Failed to submit application"

  /** `s.filter(item => item !== x)`: every occurrence of `x` removed, the rest kept in order. */
  function Without(s: seq<string>, x: string): (r: seq<string>)
    ensures x !in r
    ensures multiset(r) == multiset(s)[x := 0]
    ensures x !in s ==> r == s
    ensures |s| == 1 ==> r == if s[0] == x then [] else s
  {
    if s == [] then []
    else
      assert s == [s[0]] + s[1..];
      if s[0] == x then Without(s[1..], x) else [s[0]] + Without(s[1..], x)
  }

  /** The filter keeps order: filtering a concatenation filters each part in place. */
  lemma {:induction false} WithoutKeepsOrder(a: seq<string>, b: seq<string>, x: string)
    ensures Without(a + b, x) == Without(a, x) + Without(b, x)
    decreases |a|
  {
    if a == [] {
      assert a + b == b;
    } else {
      assert (a + b)[0] == a[0];
      assert (a + b)[1..] == a[1..] + b;
      WithoutKeepsOrder(a[1..], b, x);
    }
  }

  /** A present tag is removed everywhere; an absent one is appended at the end. */
  function Toggled(s: seq<string>, x: string): (r: seq<string>)
    ensures x in s ==> x !in r && multiset(r) == multiset(s)[x := 0]
    ensures x !in s ==> r == s + [x]
  {
    if x in s then Without(s, x) else s + [x]
  }

  lemma {:induction false} WithoutAppended(s: seq<string>, x: string)
    requires x !in s
    ensures Without(s + [x], x) == s
    decreases |s|
  {
    if s == [] {
      assert [] + [x] == [x];
      assert [x][1..] == [];
    } else {
      assert (s + [x])[1..] == s[1..] + [x];
      WithoutAppended(s[1..], x);
      assert s == [s[0]] + s[1..];
    }
  }

  /** Toggling a tag that is absent, and then toggling it again, gives the list back. */
  lemma ToggleTwiceRestores(s: seq<string>, x: string)
    requires x !in s
    ensures Toggled(Toggled(s, x), x) == s
  {
    WithoutAppended(s, x);
  }

  /** Each tag occurs at most once. */
  ghost predicate NoDuplicates(s: seq<string>) {
    forall y :: multiset(s)[y] <= 1
  }

  /** Toggling never introduces a duplicate. */
  lemma ToggleKeepsNoDuplicates(s: seq<string>, x: string)
    requires NoDuplicates(s)
    ensures NoDuplicates(Toggled(s, x))
  {
    if x !in s {
      assert multiset(s + [x]) == multiset(s) + multiset{x};
    }
  }

  /** `error?.response?.data?.message`. */
  function ResponseMessage(e: HttpError): Option<string> {
    if e.response.Some? then e.response.value.data.message else None
  }

  /** The rejection value: the response body's message, else the error's message, else
      the default; absent and empty strings are passed over. */
  function RejectionMessage(e: HttpError): (m: string)
    ensures m != ""
    ensures Truthy(ResponseMessage(e)) ==> m == ResponseMessage(e).value
    ensures !Truthy(ResponseMessage(e)) && Truthy(e.message) ==> m == e.message.value
    ensures !Truthy(ResponseMessage(e)) && !Truthy(e.message) ==> m == DefaultFailure
  {
    OrElse(ResponseMessage(e), OrElse(e.message, DefaultFailure))
  }

  /** `submitApplication`'s payload creator. `now` and `isoNow` are the clock readings the
      card-application mock takes if the request fails. */
  method SubmitApplication(payload: CardApplicationRequest, transport: Transport, now: nat, isoNow: string)
    returns (r: Settled<Body>)
    ensures transport.Reached? ==> r == Fulfilled(transport.response.data)
    ensures transport.Failed? ==> r == Fulfilled(ServicesApi.MockApplicationBody(now, isoNow))
  {
    var call := CardApplicationService.SubmitCardApplication(payload, transport, now, isoNow);
    match call {
      case Returned(body) => r := Fulfilled(body);
      case Threw(e) => r := Rejected(RejectionMessage(e));
    }
  }

  /** The slice's state. `applicationData` is `NoData` while it is `null`; a fulfilled
      submission stores whatever `data` its body carries. */
  datatype CardApplicationState = CardApplicationState(
    selectedCardUsage: seq<string>,
    selectedPurposes: seq<string>,
    otherPurpose: string,
    isLoading: bool,
    error: Option<string>,
    applicationData: Payload,
    lastSubmittedAt: Option<string>)

  const InitialState := CardApplicationState([], [], "", false, None, NoData, None)

  /** The actions the slice handles. `at` is `new Date().toISOString()` read when the
      fulfilled case runs. */
  datatype CardEvent =
    | CardUsageSet(usage: seq<string>)
    | CardUsageToggled(tag: string)
    | PurposesSet(purposes: seq<string>)
    | PurposeToggled(purpose: string)
    | OtherPurposeSet(text: string)
    | ErrorCleared
    | FormReset
    | ApplicationReset
    | SubmitPending
    | SubmitFulfilled(body: Body, at: string)
    | SubmitRejected(message: string)

  /** The slice's reducer. */
  function Reduce(s: CardApplicationState, e: CardEvent): CardApplicationState {
    match e
    case CardUsageSet(usage) => s.(selectedCardUsage := usage, error := None)
    case CardUsageToggled(tag) => s.(selectedCardUsage := Toggled(s.selectedCardUsage, tag), error := None)
    case PurposesSet(purposes) => s.(selectedPurposes := purposes, error := None)
    case PurposeToggled(purpose) =>
      if purpose in s.selectedPurposes then
        s.(selectedPurposes := Without(s.selectedPurposes, purpose),
           otherPurpose := if purpose == Others then "" else s.otherPurpose,
           error := None)
      else s.(selectedPurposes := s.selectedPurposes + [purpose], error := None)
    case OtherPurposeSet(text) => s.(otherPurpose := text, error := None)
    case ErrorCleared => s.(error := None)
    case FormReset => s.(selectedCardUsage := [], selectedPurposes := [], otherPurpose := "", error := None)
    case ApplicationReset => s.(applicationData := NoData, lastSubmittedAt := None, error := None)
    case SubmitPending => s.(isLoading := true, error := None)
    case SubmitFulfilled(body, at) =>
      s.(isLoading := false, applicationData := body.data, lastSubmittedAt := Some(at), error := None)
    case SubmitRejected(message) => s.(isLoading := false, error := Some(message))
  }

  /** The actions the form dispatches while it is being filled in. */
  predicate IsFormAction(e: CardEvent) {
    e.CardUsageSet? || e.CardUsageToggled? || e.PurposesSet? || e.PurposeToggled? || e.OtherPurposeSet? || e.ErrorCleared?
  }

  /** Every form action clears the error and leaves the submission's state alone. */
  lemma FormActionsKeepSubmission(s: CardApplicationState, e: CardEvent)
    requires IsFormAction(e)
    ensures Reduce(s, e).error.None?
    ensures Reduce(s, e).isLoading == s.isLoading
    ensures Reduce(s, e).applicationData == s.applicationData
    ensures Reduce(s, e).lastSubmittedAt == s.lastSubmittedAt
  {
  }

  /** Toggling a tag in either list appends it when absent and removes it everywhere when
      present, and the other list is untouched. */
  lemma TogglesActOnOneList(s: CardApplicationState, x: string)
    ensures Reduce(s, CardUsageToggled(x)).selectedCardUsage == Toggled(s.selectedCardUsage, x)
    ensures Reduce(s, CardUsageToggled(x)).selectedPurposes == s.selectedPurposes
    ensures Reduce(s, PurposeToggled(x)).selectedPurposes == Toggled(s.selectedPurposes, x)
    ensures Reduce(s, PurposeToggled(x)).selectedCardUsage == s.selectedCardUsage
  {
  }

  /** Toggles keep both lists free of duplicates. */
  lemma TogglesKeepNoDuplicates(s: CardApplicationState, x: string)
    requires NoDuplicates(s.selectedCardUsage) && NoDuplicates(s.selectedPurposes)
    ensures NoDuplicates(Reduce(s, CardUsageToggled(x)).selectedCardUsage)
    ensures NoDuplicates(Reduce(s, PurposeToggled(x)).selectedPurposes)
  {
    ToggleKeepsNoDuplicates(s.selectedCardUsage, x);
    ToggleKeepsNoDuplicates(s.selectedPurposes, x);
  }

  /** Deselecting "Others" clears the free-text purpose; every other toggle, selecting
      "Others" included, leaves it as it was. */
  lemma OthersRule(s: CardApplicationState, purpose: string)
    ensures Reduce(s, PurposeToggled(purpose)).otherPurpose ==
            if purpose == Others && Others in s.selectedPurposes then "" else s.otherPurpose
  {
  }

  /** The free text is not tied to the selection: it can be set while "Others" is not selected,
      and replacing the purposes list never clears it. */
  lemma OtherPurposeOutlivesSelection(s: CardApplicationState, text: string, purposes: seq<string>)
    ensures Reduce(InitialState, OtherPurposeSet(text)).otherPurpose == text
    ensures Others !in Reduce(InitialState, OtherPurposeSet(text)).selectedPurposes
    ensures Reduce(s, PurposesSet(purposes)).otherPurpose == s.otherPurpose
  {
  }

  /** `resetForm` empties the selections and the error and keeps the submission's state;
      `resetApplication` clears the submission's result and the error and keeps the selections. */
  lemma ResetsAreComplementary(s: CardApplicationState)
    ensures Reduce(s, FormReset) == InitialState.(isLoading := s.isLoading, applicationData := s.applicationData,
                                                  lastSubmittedAt := s.lastSubmittedAt)
    ensures Reduce(s, ApplicationReset) == s.(applicationData := NoData, lastSubmittedAt := None, error := None)
    ensures Reduce(Reduce(s, FormReset), ApplicationReset) == InitialState.(isLoading := s.isLoading)
  {
  }

  /** The submit cases: pending starts loading and clears the error; fulfilled stores the
      result and its time; rejected stores the message and keeps any earlier result; no
      case touches the selections. */
  lemma SubmitCases(s: CardApplicationState, body: Body, at: string, message: string)
    ensures var t := Reduce(s, SubmitPending); t.isLoading && t.error.None?
    ensures var t := Reduce(s, SubmitFulfilled(body, at));
            !t.isLoading && t.error.None? && t.applicationData == body.data && t.lastSubmittedAt == Some(at)
    ensures var t := Reduce(s, SubmitRejected(message));
            !t.isLoading && t.error == Some(message) && t.applicationData == s.applicationData
    ensures forall e: CardEvent :: e.SubmitPending? || e.SubmitFulfilled? || e.SubmitRejected? ==>
              Reduce(s, e).selectedCardUsage == s.selectedCardUsage
              && Reduce(s, e).selectedPurposes == s.selectedPurposes
              && Reduce(s, e).otherPurpose == s.otherPurpose
  {
  }

  /** The slice's state object, updated in place. */
  class CardApplicationSlice {
    var selectedCardUsage: seq<string>
    var selectedPurposes: seq<string>
    var otherPurpose: string
    var isLoading: bool
    var error: Option<string>
    var applicationData: Payload
    var lastSubmittedAt: Option<string>

    function State(): CardApplicationState
      reads this
    {
      CardApplicationState(selectedCardUsage, selectedPurposes, otherPurpose, isLoading, error,
                           applicationData, lastSubmittedAt)
    }

    constructor ()
      ensures State() == InitialState
    {
      selectedCardUsage, selectedPurposes, otherPurpose := [], [], "";
      isLoading, error, applicationData, lastSubmittedAt := false, None, NoData, None;
    }

    method SetCardUsage(usage: seq<string>)
      modifies this
      ensures State() == Reduce(old(State()), CardUsageSet(usage))
    {
      selectedCardUsage := usage;
      error := None;
    }

    method ToggleCardUsage(usage: string)
      modifies this
      ensures State() == Reduce(old(State()), CardUsageToggled(usage))
    {
      if usage in selectedCardUsage {
        selectedCardUsage := Without(selectedCardUsage, usage);
      } else {
        selectedCardUsage := selectedCardUsage + [usage];
      }
      error := None;
    }

    method SetPurposes(purposes: seq<string>)
      modifies this
      ensures State() == Reduce(old(State()), PurposesSet(purposes))
    {
      selectedPurposes := purposes;
      error := None;
    }

    method TogglePurpose(purpose: string)
      modifies this
      ensures State() == Reduce(old(State()), PurposeToggled(purpose))
    {
      if purpose in selectedPurposes {
        selectedPurposes := Without(selectedPurposes, purpose);
        if purpose == Others {
          otherPurpose := "";
        }
      } else {
        selectedPurposes := selectedPurposes + [purpose];
      }
      error := None;
    }

    method SetOtherPurpose(text: string)
      modifies this
      ensures State() == Reduce(old(State()), OtherPurposeSet(text))
    {
      otherPurpose := text;
      error := None;
    }

    method ClearError()
      modifies this
      ensures State() == Reduce(old(State()), ErrorCleared)
    {
      error := None;
    }

    method ResetForm()
      modifies this
      ensures State() == Reduce(old(State()), FormReset)
    {
      selectedCardUsage := [];
      selectedPurposes := [];
      otherPurpose := "";
      error := None;
    }

    method ResetApplication()
      modifies this
      ensures State() == Reduce(old(State()), ApplicationReset)
    {
      applicationData := NoData;
      lastSubmittedAt := None;
      error := None;
    }

    method OnSubmitPending()
      modifies this
      ensures State() == Reduce(old(State()), SubmitPending)
    {
      isLoading := true;
      error := None;
    }

    method OnSubmitFulfilled(body: Body, at: string)
      modifies this
      ensures State() == Reduce(old(State()), SubmitFulfilled(body, at))
    {
      isLoading := false;
      applicationData := body.data;
      lastSubmittedAt := Some(at);
      error := None;
    }

    method OnSubmitRejected(message: string)
      modifies this
      ensures State() == Reduce(old(State()), SubmitRejected(message))
    {
      isLoading := false;
      error := Some(message);
    }

    /** Dispatching `submitApplication(payload)`: `pending`, the payload creator, then
        `fulfilled` (at time `settledAt`). With the card-application mock in place the
        request always ends in a body, so the thunk never reaches `rejected`. */
    method Submit(payload: CardApplicationRequest, transport: Transport, now: nat, isoNow: string, settledAt: string)
      returns (r: Settled<Body>)
      modifies this
      ensures r.Fulfilled?
      ensures transport.Reached? ==> r == Fulfilled(transport.response.data)
      ensures transport.Failed? ==> r == Fulfilled(ServicesApi.MockApplicationBody(now, isoNow))
      ensures State() == Reduce(Reduce(old(State()), SubmitPending), SubmitFulfilled(r.value, settledAt))
    {
      OnSubmitPending();
      r := SubmitApplication(payload, transport, now, isoNow);
      OnSubmitFulfilled(r.value, settledAt);
    }
  }
}
