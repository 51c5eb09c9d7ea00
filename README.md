# AquaGraph form-to-chart component, modelled in Dafny

AquaGraph is a single-page app with one component, `App`. The user picks a
wilaya (Algerian region) and a city, which fills in the longitude and
latitude. The user then gives a date range and submits. The app checks that
all six inputs are present, asks the Open-Meteo weather archive for daily
rain sums and maximum wind speeds, and draws both series as a line chart.

This project models that logic:

- `Validation` (validation.dfy): the six inputs, the error keys and their
  fixed French messages, the error map (`ErrorMap`), and the presence check
  as the source writes it, one successive assignment per input (`Validate`).
- `Submission` (submission.dfy): the submit handler `handleForm` as a pure
  transition `Submit` on the state it touches. That state is the form, the
  error object, the loading flag and the stored response. The lemmas state
  what each exit path changes and what it leaves alone.
- `Cities` (cities.dfy): the city list of the chosen wilaya and the
  `cities.find` lookup behind the city drop-down.
- `Chart` (chart.dfy): the stored archive response and `renderBarGraph`,
  which reshapes the response into labels plus two datasets. It also holds
  the tooltip's unit choice and the heading's city-name mapping.
- `AppComponent` (app.dfy): the class `App`. Its fields are the component's
  `useState` slots. `HandleForm` changes them step by step, as the handler
  does, and is proved equal to `Submit`. `SelectCity` is the city
  drop-down's handler together with the effect on `selectedCity`. The other
  input handlers are the `Change…` methods.
- `Wrappers` (wrappers.dfy): `Option`, used for `null`/`undefined`.

Some things are parameters of the model:

- The weather request is the parameter `outcome`. It is either
  `FetchFailed` (the `fetch` or `response.json()` threw) or `Fetched(data)`.
- The test `isNaN(parseFloat(x))` is the parameter `isNumeric`, a predicate
  on strings.
- The `fr-FR` date formatting (`toLocaleDateString`) is the parameter
  `formatDate`.
- The city list from the `country-state-city` library is the parameter
  `cities`.

The presence test `!x && x.length === 0` holds, on a string, exactly when
the string is empty. This is the predicate `Validation.Missing`.

Observed behaviour that is modelled as written:

- The coordinates are checked for being numeric only after the request has
  been made. When a coordinate is not numeric, the handler returns and keeps
  the old error object, the form and the old response.
- A failed request is silent. Only the loading flag changes.
- A success clears the error object, longitude, latitude and both dates,
  and keeps the wilaya and the city. The new response replaces the old one;
  the two are not merged. Because four inputs are now empty, an immediate
  second submit is rejected by the presence check.
- The effect on `selectedCity` runs only when the selection changes. It
  copies the coordinates only when a city was found. Choosing the blank
  option, or a name that does not match a city, leaves the coordinates as
  they were.

## Model

| member | source | states |
|---|---|---|
| `Validation.Validate` | src/App.jsx:59-83 | the error object built by the six successive tests has a key exactly for each empty input, that key holds the input's fixed message, and the object equals `ErrorMap` |
| `Validation.ErrorMapExactlyMissing` | src/App.jsx:59-83 | the error map has a key for exactly the empty inputs, each with its own fixed message |
| `Validation.ErrorMapEmptyIffComplete` | src/App.jsx:85 | `Object.keys(errors).length > 0` holds if and only if some input is empty |
| `Validation.AllEmptyGivesSixErrors` | src/App.jsx:59-83 | the all-empty form gets six errors |
| `Submission.Submit` | src/App.jsx:55-114 | every exit leaves the loading flag false; a request is made if and only if all six inputs are present, and it carries the form's coordinates and dates; the stored response changes only to the data of a successful fetch |
| `Submission.SubmitIncomplete` | src/App.jsx:85-89 | with an empty input the error map is non-empty and replaces the errors, no request is made, the flag ends false, and the form and the stored response are unchanged |
| `Submission.SubmitFetchFailed` | src/App.jsx:91-113 | when the fetch or JSON parse fails, the request was made and only the loading flag changes: errors, form and stored response keep their values |
| `Submission.SubmitNotNumeric` | src/App.jsx:99-102 | when the response arrived but a coordinate is not numeric, the request was made yet errors, form and stored response are all unchanged and the flag ends false |
| `Submission.SubmitSucceeds` | src/App.jsx:103-108 | on full success the errors become empty, longitude, latitude and both dates become "", wilaya and city are kept, and the response replaces the stored one |
| `Submission.ClearedInputsMissing` | src/App.jsx:103-107 | the four inputs a success clears are exactly the ones a later presence check reports |
| `Submission.ResubmitAfterSuccess` | src/App.jsx:59-108 | a submit right after a success makes no request and reports exactly longitude, latitude, start date and end date |
| `Submission.RejectionIsIdempotent` | src/App.jsx:85-89 | submitting an incomplete form twice gives the same state and the same (absent) request as submitting it once |
| `Submission.SubmitKeepsErrorsConsistent` | src/App.jsx:59-108 | if every stored error message is its input's fixed message before a submit, the same holds after it |
| `Submission.SuccessShowsChart` | src/App.jsx:103-152 | after a success the chart exists, has one label per fetched date, shows the fetched rain sums as its first dataset and the wind speeds as its second |
| `Submission.FailureShowsNoChart` | src/App.jsx:109-119 | if nothing was fetched before, a failed submit leaves no chart to render |
| `Cities.FindCity` | src/App.jsx:250 | a city that is found is in the list and has the chosen name; nothing is found if and only if no city in the list has that name |
| `Cities.FindCityIsFirst` | src/App.jsx:250 | when index i holds the first city with the name, the lookup returns exactly that city |
| `Cities.FindCityHasFirstIndex` | src/App.jsx:250 | a found city sits at some index before which no city has that name |
| `Chart.FormatLabels` | src/App.jsx:121-128 | there is one label per date, and label i is the formatted date i |
| `Chart.RenderBarGraph` | src/App.jsx:116-152 | there is no chart if and only if no response is stored; otherwise the labels are index-aligned with `daily.time`, and there are exactly two datasets: "Somme de pluie" with `rain_sum` unchanged, then "Vitesse du vent" with `windspeed_10m_max` unchanged |
| `Chart.TooltipUnit` | src/App.jsx:182 | the unit is " mm" if and only if the series label is "Somme de pluie"; every other label gets " km" |
| `Chart.ChartUnits` | src/App.jsx:136-182 | in a rendered chart the rain series is shown in mm and the wind series in km |
| `Chart.HeadingCity` | src/App.jsx:350 | "Algiers" is shown as "Alger"; every other city name is shown unchanged |
| `AppComponent.App.constructor` | src/App.jsx:28-39 | every input is "", there are no errors, the flag is false, nothing is stored and no city is selected |
| `AppComponent.App.HandleForm` | src/App.jsx:55-114 | the handler's step-by-step updates to the component fields equal `Submit` of the old state, including the request it returns; the selected city is untouched |
| `AppComponent.App.SelectCity` | src/App.jsx:247-251 | the city becomes the chosen value and the selection becomes the first matching city; when the selection changes to a found city, longitude and latitude become exactly its coordinates; otherwise they keep their values; nothing else changes (the effect at src/App.jsx:48-53 is part of this member) |
| `AppComponent.App.ChangeState` | src/App.jsx:226 | the wilaya becomes the chosen code |
| `AppComponent.App.ChangeLong` | src/App.jsx:277 | the longitude becomes the typed text |
| `AppComponent.App.ChangeLat` | src/App.jsx:293 | the latitude becomes the typed text |
| `AppComponent.App.ChangeStartDate` | src/App.jsx:312 | the start date becomes the chosen date |
| `AppComponent.App.ChangeEndDate` | src/App.jsx:331 | the end date becomes the chosen date |
| `AppComponent.SelectThenSubmit` | src/App.jsx:55-89 | in a freshly mounted app, choosing a city fills both coordinates from the list; an immediate submit makes no request, clears the flag, and reports exactly the empty inputs, wilaya and both dates among them |

## Left out

- The HTTP request is not modelled: no URL or query string is built. `parseFloat` of the coordinates and float printing are not modelled either. `Request` records the raw values the query is built from. The fixed endpoint, `daily=rain_sum,windspeed_10m_max`, the `Europe/London` timezone and the `min`/`max` parameters are constants of the URL and are not represented.
- `Submission.Submit` and `AppComponent.App.HandleForm`: one submit is a single atomic step, so the window during the `await` is not modelled. In that window the loading flag is true and the user may still edit the inputs. A stale response arriving after a newer submit is not modelled either; that is concurrency.
- `AppComponent.App.SelectCity`: the effect's dependency check compares the selected city by value. React compares the object's identity.
- Cities whose latitude or longitude is missing (`null` in the library) are not modelled: coordinates are strings.
- The `country-state-city` lookups of the wilayas and cities of "DZ" are an external dataset. The city list is a parameter.
- `toLocaleDateString` with the `fr-FR` options is a locale routine. It is the parameter `formatDate`.
- Chart.js registration, the `<Line>` rendering and the chart options object are library configuration. The tooltip text `label + ": " + value.toFixed(2) + unit` is float formatting; only the unit choice is modelled.
- `Chart.RenderBarGraph`: the response is assumed to have the documented shape. A JSON body without `daily`, `null` entries in the series, and a parsed body that is itself falsy are not modelled.
- JSX markup, the Tailwind class strings, the red-border error display and the `disabled={isLoading}` binding of the button are presentation. The heading is shown only when a response is stored; only its city-name mapping is modelled.
- `console.log` calls and the effect that calls `renderBarGraph` and discards the result have no effect on state.
- A form field that is not a string, where `x.length` would throw, is not modelled: the inputs are strings.
- src/components/Footer.jsx and src/components/Navbar.jsx are static markup and are not part of this model.
