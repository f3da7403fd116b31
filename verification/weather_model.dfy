/**
 * The app's `Weather` value and its `Codable` mapping (rain-app/ContentView.swift):
 * the Swift property `weatherCode` is read from the JSON key `weather_code`, the other
 * two properties from keys of their own name. Unknown keys are ignored.
 */
module WeatherModel {
  import opened Wrappers
  import opened Json

  datatype Coordinate = Coordinate(latitude: real, longitude: real)

  datatype Weather = Weather(raining: bool, weatherCode: string, precipitation: real)

  /** The `CodingKeys` raw values. */
  const RainingKey := "raining"
  const WeatherCodeKey := "weather_code"
  const PrecipitationKey := "precipitation"

  /** The object holds `key` with a value of the expected JSON kind. */
  predicate HasBool(fields: map<string, Json>, key: string) { key in fields && fields[key].JBool? }
  predicate HasString(fields: map<string, Json>, key: string) { key in fields && fields[key].JString? }
  predicate HasNumber(fields: map<string, Json>, key: string) { key in fields && fields[key].JNumber? }

  /** `JSONDecoder().decode(Weather.self, from:)`; `None` stands for a thrown decoding error. */
  function DecodeWeather(j: Json): (r: Option<Weather>)
    ensures r.Some? <==>
              j.JObject? && HasBool(j.fields, RainingKey) &&
              HasString(j.fields, WeatherCodeKey) && HasNumber(j.fields, PrecipitationKey)
    ensures r.Some? ==>
              j.fields[RainingKey] == JBool(r.value.raining) &&
              j.fields[WeatherCodeKey] == JString(r.value.weatherCode) &&
              j.fields[PrecipitationKey] == JNumber(r.value.precipitation)
  {
    if j.JObject? && HasBool(j.fields, RainingKey) &&
       HasString(j.fields, WeatherCodeKey) && HasNumber(j.fields, PrecipitationKey)
    then
      Some(Weather(j.fields[RainingKey].b, j.fields[WeatherCodeKey].s, j.fields[PrecipitationKey].n))
    else
      None
  }

  /** The `Encodable` half of the same `CodingKeys`. */
  function EncodeWeather(w: Weather): (j: Json)
    ensures j.JObject? && j.fields.Keys == {RainingKey, WeatherCodeKey, PrecipitationKey}
  {
    JObject(map[
      RainingKey := JBool(w.raining),
      WeatherCodeKey := JString(w.weatherCode),
      PrecipitationKey := JNumber(w.precipitation)
    ])
  }

  /** The response body handed to the completion handler: `nil` data or an undecodable body give `None`. */
  function DecodeBody(body: Option<Json>): (r: Option<Weather>)
    ensures r.Some? <==>
              body.Some? && body.value.JObject? && HasBool(body.value.fields, RainingKey) &&
              HasString(body.value.fields, WeatherCodeKey) && HasNumber(body.value.fields, PrecipitationKey)
    ensures r.Some? ==>
              body.value.fields[RainingKey] == JBool(r.value.raining) &&
              body.value.fields[WeatherCodeKey] == JString(r.value.weatherCode) &&
              body.value.fields[PrecipitationKey] == JNumber(r.value.precipitation)
  {
    match body
    case None => None
    case Some(j) => DecodeWeather(j)
  }

  lemma DecodeEncode(w: Weather)
    ensures DecodeWeather(EncodeWeather(w)) == Some(w)
  {
  }

  /** Decoding reads exactly the three coded keys: re-encoding what was decoded gives them back. */
  lemma EncodeDecode(j: Json)
    requires DecodeWeather(j).Some?
    ensures forall k :: k in EncodeWeather(DecodeWeather(j).value).fields ==>
              k in j.fields && j.fields[k] == EncodeWeather(DecodeWeather(j).value).fields[k]
  {
  }

  /** An object that spells the code under the Swift property name `weatherCode` does not decode. */
  lemma PropertyNameIsNotTheKey(raining: bool, code: string, precipitation: real)
    ensures DecodeWeather(JObject(map[
              RainingKey := JBool(raining),
              "weatherCode" := JString(code),
              PrecipitationKey := JNumber(precipitation)])) == None
  {
  }
}
