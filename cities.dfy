/**
 * The city list of the chosen wilaya, as the geographic lookup library
 * hands it to the component, and the `cities.find` lookup behind the
 * city drop-down.
 */
module Cities {
  import opened Wrappers

  /** The fields of a library city the component uses; coordinates are strings, as the library gives them. */
  datatype CityInfo = CityInfo(name: string, stateCode: string, latitude: string, longitude: string)

  /** `cities.find(c => c.name === name)`: the first city of the list with that name, if any. */
  function FindCity(cities: seq<CityInfo>, name: string): (r: Option<CityInfo>)
    ensures r.Some? ==> r.value in cities && r.value.name == name
    ensures r.None? <==> forall i :: 0 <= i < |cities| ==> cities[i].name != name
  {
    if |cities| == 0 then None
    else if cities[0].name == name then Some(cities[0])
    else FindCity(cities[1..], name)
  }

  /** The city found is the FIRST one carrying the name: any earlier city has another name. */
  lemma {:induction false} FindCityIsFirst(cities: seq<CityInfo>, name: string, i: nat)
    requires i < |cities| && cities[i].name == name
    requires forall j :: 0 <= j < i ==> cities[j].name != name
    ensures FindCity(cities, name) == Some(cities[i])
  {
    if i > 0 {
      assert cities[0].name != name;
      forall j | 0 <= j < i - 1
        ensures cities[1..][j].name != name
      {
        assert cities[1..][j] == cities[j + 1];
      }
      FindCityIsFirst(cities[1..], name, i - 1);
    }
  }

  /** Conversely, a found city sits at an index before which no city has that name. */
  lemma {:induction false} FindCityHasFirstIndex(cities: seq<CityInfo>, name: string)
    requires FindCity(cities, name).Some?
    ensures exists i :: 0 <= i < |cities| && cities[i] == FindCity(cities, name).value
                        && forall j :: 0 <= j < i ==> cities[j].name != name
  {
    if cities[0].name != name {
      FindCityHasFirstIndex(cities[1..], name);
      var k :| 0 <= k < |cities[1..]| && cities[1..][k] == FindCity(cities[1..], name).value
               && forall j :: 0 <= j < k ==> cities[1..][j].name != name;
      assert cities[k + 1] == FindCity(cities, name).value;
      forall j | 0 <= j < k + 1
        ensures cities[j].name != name
      {
        if j > 0 { assert cities[j] == cities[1..][j - 1]; }
      }
    } else {
      assert cities[0] == FindCity(cities, name).value;
    }
  }
}
