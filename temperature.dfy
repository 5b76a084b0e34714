/**
 * The mock temperature service (`getTemperature`): 22 degrees Celsius, shifted
 * by `(city.length % 7) - 3` when the location names a city.
 */
module TemperatureService {
  import opened Wrappers
  import opened JsText

  /** The argument `{city?, region?, country?} | null`: each field may be missing. */
  datatype LocationInfo = LocationInfo(city: Option<JsString>, region: Option<JsString>, country: Option<JsString>)

  datatype Reading = Reading(temperature: int, units: JsString)

  const Base: int := 22
  const Celsius: JsString := [67]  // "C"

  /** `location && location.city ? String(location.city) : ''`. */
  function CityOf(location: Option<LocationInfo>): (c: JsString)
    ensures c == [] <==> (location == None || location.value.city == None || location.value.city == Some([]))
    ensures c != [] ==> location.value.city == Some(c)
  {
    if location.Some? && location.value.city.Some? then location.value.city.value else []
  }

  /** `getTemperature`: always in Celsius, always within 19..25. */
  function GetTemperature(location: Option<LocationInfo>): (r: Reading)
    ensures r.units == Celsius
    ensures Base - 3 <= r.temperature <= Base + 3
  {
    var city := CityOf(location);
    var delta := if city != [] then (|city| % 7) - 3 else 0;
    Reading(Base + delta, Celsius)
  }

  /** No location, no city, or an empty city: the base temperature. */
  lemma NoCityIsBase(location: Option<LocationInfo>)
    requires location == None || location.value.city == None || location.value.city == Some([])
    ensures GetTemperature(location) == Reading(22, Celsius)
  {
  }

  /** A non-empty city shifts the base by its length modulo 7, minus 3. */
  lemma CityShift(location: Option<LocationInfo>, city: JsString)
    requires location.Some? && location.value.city == Some(city) && city != []
    ensures GetTemperature(location).temperature == 22 + (|city| % 7) - 3
  {
  }

  /** Only the city's length matters: region, country and the city's contents do not. */
  lemma EqualLengthsEqualReadings(a: Option<LocationInfo>, b: Option<LocationInfo>)
    requires |CityOf(a)| == |CityOf(b)|
    ensures GetTemperature(a) == GetTemperature(b)
  {
  }

  /** The readings for the classifier's four cities. */
  lemma FixedCityReadings()
    ensures GetTemperature(Some(LocationInfo(Some([84, 111, 107, 121, 111]), None, None))).temperature == 24  // "Tokyo"
    ensures GetTemperature(Some(LocationInfo(Some([76, 111, 110, 100, 111, 110]), None, None))).temperature == 25  // "London"
    ensures GetTemperature(Some(LocationInfo(Some([78, 101, 119, 32, 89, 111, 114, 107]), None, None))).temperature == 20  // "New York"
    ensures GetTemperature(Some(LocationInfo(Some([76, 111, 99, 97, 108, 104, 111, 115, 116]), None, None))).temperature == 21  // "Localhost"
  {
  }
}
