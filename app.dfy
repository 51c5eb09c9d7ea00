/**
 * The `App` component as an object whose fields are its `useState` slots.
 * Each handler changes the fields the way the source's setters do; the
 * state one render sees is `View()`.
 */
module AppComponent {
  import opened Wrappers
  import opened Validation
  import opened Cities
  import opened Chart
  import opened Submission

  class App {
    var city: string
    var state: string
    var long: string
    var lat: string
    var startDate: string
    var endDate: string
    var precipitationData: Option<WeatherData>
    var isLoading: bool
    var selectedCity: Option<CityInfo>
    var errors: map<Field, string>

    /** The initial values of every `useState` slot. */
    constructor ()
      ensures View() == UiState(Form("", "", "", "", "", ""), map[], false, None)
      ensures selectedCity == None
    {
      city, state, long, lat, startDate, endDate := "", "", "", "", "", "";
      precipitationData := None;
      isLoading := false;
      selectedCity := None;
      errors := map[];
    }

    function Fields(): Form
      reads this
    {
      Form(state, city, long, lat, startDate, endDate)
    }

    function View(): UiState
      reads this
    {
      UiState(Fields(), errors, isLoading, precipitationData)
    }

    /**
     * `handleForm`: set the loading flag, check the six inputs, then issue
     * the request and handle its outcome; every exit clears the flag.
     */
    method HandleForm(outcome: FetchOutcome, isNumeric: string -> bool) returns (request: Option<Request>)
      modifies this
      ensures Submitted(View(), request) == Submit(old(View()), outcome, isNumeric)
      ensures selectedCity == old(selectedCity)
    {
      ghost var before := View();
      isLoading := true;
      var found := Validate(Fields());
      ErrorMapEmptyIffComplete(before.form);
      if |found| > 0 {
        SubmitIncomplete(before, outcome, isNumeric);
        errors := found;
        isLoading := false;
        request := None;
        return;
      }
      request := Some(RequestFor(Fields()));
      match outcome {
        case FetchFailed =>
          SubmitFetchFailed(before, isNumeric);
        case Fetched(data) =>
          if !isNumeric(lat) || !isNumeric(long) {
            SubmitNotNumeric(before, data, isNumeric);
          } else {
            SubmitSucceeds(before, data, isNumeric);
            errors := map[];
            long := "";
            lat := "";
            startDate := "";
            endDate := "";
            precipitationData := Some(data);
          }
      }
      isLoading := false;
    }

    /**
     * The city drop-down's change handler followed by the effect on
     * `selectedCity`: the effect runs only when the selection changed, and
     * copies the coordinates only when a city was found.
     */
    method SelectCity(cities: seq<CityInfo>, value: string)
      modifies this
      ensures city == value && selectedCity == FindCity(cities, value)
      ensures selectedCity.Some? && selectedCity != old(selectedCity) ==>
                long == selectedCity.value.longitude && lat == selectedCity.value.latitude
      ensures selectedCity.None? || selectedCity == old(selectedCity) ==>
                long == old(long) && lat == old(lat)
      ensures state == old(state) && startDate == old(startDate) && endDate == old(endDate)
      ensures errors == old(errors) && isLoading == old(isLoading)
      ensures precipitationData == old(precipitationData)
    {
      var previous := selectedCity;
      city := value;
      selectedCity := FindCity(cities, value);
      if selectedCity != previous {
        match selectedCity
        case None =>
        case Some(c) =>
          long := c.longitude;
          lat := c.latitude;
      }
    }

    /** The wilaya drop-down's change handler; the chosen city is kept. */
    method ChangeState(value: string)
      modifies this`state
      ensures state == value
    {
      state := value;
    }

    /** The longitude input's change handler. */
    method ChangeLong(value: string)
      modifies this`long
      ensures long == value
    {
      long := value;
    }

    /** The latitude input's change handler. */
    method ChangeLat(value: string)
      modifies this`lat
      ensures lat == value
    {
      lat := value;
    }

    /** The start-date input's change handler. */
    method ChangeStartDate(value: string)
      modifies this`startDate
      ensures startDate == value
    {
      startDate := value;
    }

    /** The end-date input's change handler. */
    method ChangeEndDate(value: string)
      modifies this`endDate
      ensures endDate == value
    {
      endDate := value;
    }
  }

  /**
   * A session of the component: choosing a city in a freshly mounted app
   * fills both coordinates from the city list, and an immediate submit
   * still reports the four other missing inputs without a request.
   */
  method SelectThenSubmit(cities: seq<CityInfo>, value: string, outcome: FetchOutcome,
                          isNumeric: string -> bool) returns (request: Option<Request>, app: App)
    ensures app.city == value
    ensures FindCity(cities, value).Some? ==>
              app.long == FindCity(cities, value).value.longitude && app.lat == FindCity(cities, value).value.latitude
    ensures request == None && !app.isLoading
    ensures Missing(app.Fields(), State) && Missing(app.Fields(), StartDate) && Missing(app.Fields(), EndDate)
    ensures app.errors.Keys == (set f | f in AllFields && Missing(app.Fields(), f))
  {
    app := new App();
    app.SelectCity(cities, value);
    assert Missing(app.Fields(), State);
    SubmitIncomplete(app.View(), outcome, isNumeric);
    ErrorMapExactlyMissing(app.Fields());
    request := app.HandleForm(outcome, isNumeric);
  }
}
