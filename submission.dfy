/**
 * The submit handler `handleForm` of `App` as a transition on the part of
 * the component state it touches. One call is one submit taken as a single
 * step: the presence check, the one archive request, the numeric check of
 * the coordinates, and the `finally` that clears the loading flag. The
 * network is a parameter (`outcome`), and so is the `isNaN(parseFloat(x))`
 * test (`isNumeric`).
 */
module Submission {
  import opened Wrappers
  import opened Validation
  import opened Chart

  /** Form inputs, error object, loading flag and stored response of the component. */
  datatype UiState = UiState(form: Form, errors: map<Field, string>, isLoading: bool,
                             precipitationData: Option<WeatherData>)

  /** The varying query values of the archive request (the coordinates as typed, before `parseFloat`). */
  datatype Request = Request(latitude: string, longitude: string, startDate: string, endDate: string)

  /** What `fetch` followed by `response.json()` gives: a thrown error, or the parsed body. */
  datatype FetchOutcome = FetchFailed | Fetched(data: WeatherData)

  /** The state after the handler has finished, and the request it issued, if any. */
  datatype Submitted = Submitted(after: UiState, request: Option<Request>)

  function RequestFor(form: Form): Request
  {
    Request(form.lat, form.long, form.startDate, form.endDate)
  }

  /** What a successful submit leaves in the form: wilaya and city kept, the other four cleared. */
  function ResetAfterSuccess(form: Form): Form
  {
    form.(long := "", lat := "", startDate := "", endDate := "")
  }

  /** `handleForm`: one submit of the form held in `s`. */
  function Submit(s: UiState, outcome: FetchOutcome, isNumeric: string -> bool): (r: Submitted)
    ensures !r.after.isLoading
    ensures r.request.Some? <==> Complete(s.form)
    ensures r.request.Some? ==> r.request.value == RequestFor(s.form)
    ensures r.after.precipitationData != s.precipitationData ==>
              outcome.Fetched? && r.after.precipitationData == Some(outcome.data)
  {
    ErrorMapEmptyIffComplete(s.form);
    var errors := ErrorMap(s.form);
    if |errors| > 0 then
      Submitted(s.(errors := errors, isLoading := false), None)
    else
      var request := RequestFor(s.form);
      var settled :=
        match outcome
        case FetchFailed => s
        case Fetched(data) =>
          if !isNumeric(request.latitude) || !isNumeric(request.longitude) then s
          else s.(form := ResetAfterSuccess(s.form), errors := map[], precipitationData := Some(data));
      Submitted(settled.(isLoading := false), Some(request))
  }

  /** An empty input: the error object is replaced by the error map, no request is made, and nothing else changes. */
  lemma SubmitIncomplete(s: UiState, outcome: FetchOutcome, isNumeric: string -> bool)
    requires exists f :: Missing(s.form, f)
    ensures |ErrorMap(s.form)| > 0
    ensures Submit(s, outcome, isNumeric)
         == Submitted(UiState(s.form, ErrorMap(s.form), false, s.precipitationData), None)
  {
    ErrorMapEmptyIffComplete(s.form);
  }

  /** The request fails or its body does not parse: only the loading flag changes. */
  lemma SubmitFetchFailed(s: UiState, isNumeric: string -> bool)
    requires Complete(s.form)
    ensures Submit(s, FetchFailed, isNumeric)
         == Submitted(UiState(s.form, s.errors, false, s.precipitationData), Some(RequestFor(s.form)))
  {
  }

  /**
   * The response arrived but a coordinate is not a number: the request has
   * already been made, yet the errors, the form and the stored response are
   * all left as they were.
   */
  lemma SubmitNotNumeric(s: UiState, data: WeatherData, isNumeric: string -> bool)
    requires Complete(s.form)
    requires !isNumeric(s.form.lat) || !isNumeric(s.form.long)
    ensures Submit(s, Fetched(data), isNumeric)
         == Submitted(UiState(s.form, s.errors, false, s.precipitationData), Some(RequestFor(s.form)))
  {
  }

  /** Full success: no errors, four inputs cleared, and the stored response replaced by the new one. */
  lemma SubmitSucceeds(s: UiState, data: WeatherData, isNumeric: string -> bool)
    requires Complete(s.form)
    requires isNumeric(s.form.lat) && isNumeric(s.form.long)
    ensures Submit(s, Fetched(data), isNumeric)
         == Submitted(UiState(Form(s.form.state, s.form.city, "", "", "", ""), map[], false, Some(data)),
                      Some(RequestFor(s.form)))
  {
  }

  /**
   * Right after a success the form cannot be sent again as it is: a second
   * submit makes no request and reports exactly the four cleared inputs.
   */
  lemma {:induction false} ResubmitAfterSuccess(s: UiState, data: WeatherData, isNumeric: string -> bool,
                                                 outcome: FetchOutcome, isNumeric': string -> bool)
    requires Complete(s.form)
    requires isNumeric(s.form.lat) && isNumeric(s.form.long)
    ensures var t := Submit(s, Fetched(data), isNumeric).after;
      && Submit(t, outcome, isNumeric').request == None
      && Submit(t, outcome, isNumeric').after.errors.Keys == {Long, Lat, StartDate, EndDate}
  {
    SubmitSucceeds(s, data, isNumeric);
    var t := Submit(s, Fetched(data), isNumeric).after;
    ClearedInputsMissing(s.form);
    assert Missing(t.form, Long);
    SubmitIncomplete(t, outcome, isNumeric');
  }

  /** The inputs a success clears are exactly the ones a second presence check reports. */
  lemma ClearedInputsMissing(form: Form)
    requires Complete(form)
    ensures ErrorMap(ResetAfterSuccess(form)).Keys == {Long, Lat, StartDate, EndDate}
  {
    var reset := ResetAfterSuccess(form);
    ErrorMapExactlyMissing(reset);
    assert !Missing(form, State) && !Missing(form, City);
    forall f ensures f in ErrorMap(reset) <==> f in {Long, Lat, StartDate, EndDate} {
      assert Missing(reset, f) <==> f in {Long, Lat, StartDate, EndDate};
    }
  }

  /** Submitting an incomplete form twice is the same as submitting it once. */
  lemma RejectionIsIdempotent(s: UiState, outcome: FetchOutcome, isNumeric: string -> bool,
                              outcome': FetchOutcome, isNumeric': string -> bool)
    requires !Complete(s.form)
    ensures var r := Submit(s, outcome, isNumeric);
      Submit(r.after, outcome', isNumeric') == r
  {
  }

  /** Every stored error message is the fixed message of its input. */
  predicate ErrorsConsistent(s: UiState)
  {
    forall f :: f in s.errors ==> s.errors[f] == Message(f)
  }

  /** A submit keeps every stored error message the fixed message of its input. */
  lemma SubmitKeepsErrorsConsistent(s: UiState, outcome: FetchOutcome, isNumeric: string -> bool)
    requires ErrorsConsistent(s)
    ensures ErrorsConsistent(Submit(s, outcome, isNumeric).after)
  {
  }

  /** After a success the chart shows one point per fetched date, rain first and wind second. */
  lemma SuccessShowsChart(s: UiState, data: WeatherData, isNumeric: string -> bool,
                          formatDate: string -> string)
    requires Complete(s.form)
    requires isNumeric(s.form.lat) && isNumeric(s.form.long)
    ensures var chart := RenderBarGraph(Submit(s, Fetched(data), isNumeric).after.precipitationData, formatDate);
      && chart.Some?
      && |chart.value.labels| == |data.daily.time|
      && chart.value.datasets[0].data == data.daily.rainSum
      && chart.value.datasets[1].data == data.daily.windSpeed
  {
  }

  /** A failed request on an idle screen with nothing fetched before still shows no chart. */
  lemma FailureShowsNoChart(s: UiState, isNumeric: string -> bool, formatDate: string -> string)
    requires s.precipitationData == None
    ensures RenderBarGraph(Submit(s, FetchFailed, isNumeric).after.precipitationData, formatDate) == None
  {
  }
}
