/**
 * The two halves meet on the wire: the backend answers with `extract_info`'s verdict as
 * JSON (or `null`), and the app decodes that body as a `Weather`. These lemmas say what
 * the app's completion handler receives for every forecast the backend can process.
 */
module WireContract {
  import opened Wrappers
  import opened Json
  import opened Processor
  import opened WeatherModel
  import opened RainAlerts

  /** The reading the app decodes from the backend's answer to `data`. */
  function AppReading(data: Forecast): Option<Weather>
    requires Indexable(data)
  {
    DecodeWeather(ResponseBody(ExtractInfo(data)))
  }

  /**
   * A verdict decodes iff its precipitation is a JSON number, and then to the same
   * three values; the `null` answer for a missing key decodes to nothing.
   */
  lemma VerdictDecodes(data: Forecast)
    requires Indexable(data)
    ensures AppReading(data).Some? <==> HasAllKeys(data) && ExtractInfo(data).value.precipitation.JNumber?
    ensures AppReading(data).Some? ==>
              var info := ExtractInfo(data).value;
              AppReading(data).value == Weather(info.raining, info.weatherCode, info.precipitation.n)
  {
  }

  /**
   * A `null` first slot makes the backend answer "raining" with a `null` precipitation,
   * which the app cannot decode as a `Double`: the reading is dropped.
   */
  lemma NullSlotIsDropped(data: Forecast)
    requires Indexable(data) && HasAllKeys(data) && FirstPrecipitation(data) == JNull
    ensures ExtractInfo(data).value.raining
    ensures AppReading(data) == None
  {
  }

  /**
   * Fed by the backend, the app alerts exactly when the first 15-minute slot holds a
   * non-zero number and the remembered status was dry. A forecast missing a key, or
   * whose first slot is some other non-zero value (`null`, a string), produces no update
   * and no alert; no first slot that is not a number ever alerts.
   */
  lemma ForecastDrivesAlert(last: bool, data: Forecast)
    requires Indexable(data)
    ensures var c := Completion(last, AppReading(data));
            && (!HasAllKeys(data) ==> c == Cycle([], last))
            && (HasAllKeys(data) && FirstPrecipitation(data).JNumber? ==>
                  var p := FirstPrecipitation(data).n;
                  c.rainStatus == (p != 0.0) &&
                  AlertsOf(c.events) == if p != 0.0 && !last then [p] else [])
            && (HasAllKeys(data) && !FirstPrecipitation(data).JNumber? ==>
                  AlertsOf(c.events) == [] &&
                  (IsNonZero(FirstPrecipitation(data)) ==> c == Cycle([], last)))
  {
    VerdictDecodes(data);
  }
}
