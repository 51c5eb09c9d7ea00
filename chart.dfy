/**
 * The weather-archive response the component keeps, and `renderBarGraph`:
 * the pure reshaping of that response into the data of a two-series line
 * chart, with the unit the tooltip appends and the city name of the heading.
 */
module Chart {
  import opened Wrappers

  /** `daily` of the archive response: dates and two numeric series, position by position. */
  datatype Daily = Daily(time: seq<string>, rainSum: seq<real>, windSpeed: seq<real>)

  /** The parsed JSON body stored as `precipitationData`. */
  datatype WeatherData = WeatherData(daily: Daily)

  /** One chart series with its fixed display styling. */
  datatype Dataset = Dataset(seriesLabel: string, data: seq<real>, borderColor: string,
                             backgroundColor: string, tension: real, fill: bool)

  datatype ChartData = ChartData(labels: seq<string>, datasets: seq<Dataset>)

  const RainLabel: string := "Somme de pluie"
  const WindLabel: string := "Vitesse du vent"

  /** `time.map(formatDate)`: one label per date, in order; `formatDate` stands for the fr-FR locale formatting. */
  function FormatLabels(time: seq<string>, formatDate: string -> string): (labels: seq<string>)
    ensures |labels| == |time|
    ensures forall i :: 0 <= i < |time| ==> labels[i] == formatDate(time[i])
  {
    if |time| == 0 then []
    else [formatDate(time[0])] + FormatLabels(time[1..], formatDate)
  }

  /** The chart of the stored response, or none when nothing has been fetched yet. */
  function RenderBarGraph(precipitationData: Option<WeatherData>, formatDate: string -> string): (r: Option<ChartData>)
    ensures r.None? <==> precipitationData.None?
    ensures r.Some? ==>
      var daily := precipitationData.value.daily;
      && |r.value.labels| == |daily.time|
      && (forall i :: 0 <= i < |daily.time| ==> r.value.labels[i] == formatDate(daily.time[i]))
      && |r.value.datasets| == 2
      && r.value.datasets[0].seriesLabel == RainLabel && r.value.datasets[0].data == daily.rainSum
      && r.value.datasets[1].seriesLabel == WindLabel && r.value.datasets[1].data == daily.windSpeed
  {
    match precipitationData
    case None => None
    case Some(d) =>
      var labels := FormatLabels(d.daily.time, formatDate);
      Some(ChartData(labels, [
        Dataset(RainLabel, d.daily.rainSum, "rgb(20,184,166)", "rgba(20,184,166,0.3)", 0.5, true),
        Dataset(WindLabel, d.daily.windSpeed, "rgb(153,0,255)", "rgba(153,0,255, 0.3)", 0.5, true)
      ]))
  }

  /** The unit the tooltip appends to a value: millimetres for the rain series, kilometres otherwise. */
  function TooltipUnit(datasetLabel: string): (unit: string)
    ensures unit == " mm" <==> datasetLabel == RainLabel
    ensures unit == " mm" || unit == " km"
  {
    if datasetLabel == RainLabel then " mm" else " km"
  }

  /** In a rendered chart the rain series is shown in millimetres and the wind series in kilometres. */
  lemma ChartUnits(precipitationData: Option<WeatherData>, formatDate: string -> string)
    requires precipitationData.Some?
    ensures var c := RenderBarGraph(precipitationData, formatDate).value;
      TooltipUnit(c.datasets[0].seriesLabel) == " mm" && TooltipUnit(c.datasets[1].seriesLabel) == " km"
  {
  }

  /** The city name shown in the heading above the chart: "Algiers" is shown in French, every other name as it is. */
  function HeadingCity(city: string): (shown: string)
    ensures city == "Algiers" ==> shown == "Alger"
    ensures city != "Algiers" ==> shown == city
  {
    if city == "Algiers" then "Alger" else city
  }
}
