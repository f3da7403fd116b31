/**
 * The backend's forecast reducer (python-backend/services/processor.py): it reads the
 * first 15-minute slot of an Open-Meteo forecast and turns it into a rain verdict.
 */
module Processor {
  import opened Wrappers
  import opened Json

  /** The fixed table of weather codes the backend can describe. */
  const RainCodes: map<int, string> := map[
    51 := "Light drizzle",
    53 := "Moderate drizzle",
    55 := "Dense drizzle",
    61 := "Slight rain",
    82 := "Rain showers (violent)"
  ]

  const UnknownCode := "Unknown weather code"
  const NoPrecipitation := "No precipitation"

  /**
   * The `minutely_15` object: each key may be absent; each list holds one value per slot.
   * A precipitation slot is any JSON value (the provider writes `null` for a missing
   * value); a code slot is an integer or `null` (`None`).
   */
  datatype Minutely15 = Minutely15(precipitation: Option<seq<Json>>, weathercode: Option<seq<Option<int>>>)

  /** The forecast document; only its `minutely_15` key is consulted. */
  datatype Forecast = Forecast(minutely15: Option<Minutely15>)

  /** The verdict dictionary `{raining, weather_code, precipitation}`; the precipitation is passed through as read. */
  datatype Info = Info(raining: bool, weatherCode: string, precipitation: Json)

  /** The dry verdict's precipitation, the literal `0`. */
  const Zero := JNumber(0.0)

  /**
   * Python's `v != 0`, which never raises: a number compares by value, a boolean as
   * 0 or 1, and every other value (`null`, a string, a list, an object) differs from 0.
   */
  predicate IsNonZero(v: Json)
  {
    match v
    case JNumber(n) => n != 0.0
    case JBool(b) => b
    case _ => true
  }

  /** All three keys `minutely_15`, `precipitation` and `weathercode` are present. */
  predicate HasAllKeys(data: Forecast)
  {
    && data.minutely15.Some?
    && data.minutely15.value.precipitation.Some?
    && data.minutely15.value.weathercode.Some?
  }

  /**
   * Evaluating the two lookups never indexes an empty list. Python evaluates the
   * precipitation lookup first, so an empty code list only matters once the
   * precipitation list was found non-empty; a missing key stops evaluation before any
   * later index.
   */
  predicate Indexable(data: Forecast)
  {
    data.minutely15.Some? ==>
      var m := data.minutely15.value;
      m.precipitation.Some? ==>
        |m.precipitation.value| > 0 && (m.weathercode.Some? ==> |m.weathercode.value| > 0)
  }

  function FirstPrecipitation(data: Forecast): Json
    requires HasAllKeys(data) && Indexable(data)
  {
    data.minutely15.value.precipitation.value[0]
  }

  function FirstCode(data: Forecast): Option<int>
    requires HasAllKeys(data) && Indexable(data)
  {
    data.minutely15.value.weathercode.value[0]
  }

  /** `rain_codes.get(code, "Unknown weather code")`; a `null` code is not in the table. */
  function DescribeCode(code: Option<int>): (d: string)
    ensures code.Some? && code.value in {51, 53, 55, 61, 82} ==> d == RainCodes[code.value]
    ensures d == UnknownCode <==> !(code.Some? && code.value in {51, 53, 55, 61, 82})
    ensures d != NoPrecipitation
  {
    if code.Some? && code.value in RainCodes then RainCodes[code.value] else UnknownCode
  }

  /** `extract_info`: a missing key gives `None` (the caught `KeyError`). */
  function ExtractInfo(data: Forecast): (r: Option<Info>)
    requires Indexable(data)
    ensures r.None? <==> !HasAllKeys(data)
    ensures r.Some? ==> (r.value.raining <==> IsNonZero(r.value.precipitation))
    ensures r.Some? ==> (r.value.raining <==> IsNonZero(FirstPrecipitation(data)))
    ensures r.Some? && r.value.raining ==>
              r.value.precipitation == FirstPrecipitation(data) &&
              r.value.weatherCode == DescribeCode(FirstCode(data))
    ensures r.Some? && !r.value.raining ==> r.value == Info(false, NoPrecipitation, Zero)
  {
    match data.minutely15
    case None => None
    case Some(m) =>
      match m.precipitation
      case None => None
      case Some(precipitations) =>
        var next15Precip := precipitations[0];
        match m.weathercode
        case None => None
        case Some(codes) =>
          var next15Code := codes[0];
          if IsNonZero(next15Precip) then
            Some(Info(true, DescribeCode(next15Code), next15Precip))
          else
            Some(Info(false, NoPrecipitation, Zero))
  }

  /** The code lookup runs before the branch, so a missing `weathercode` loses even a dry verdict. */
  lemma MissingCodeLosesDryVerdict(precipitations: seq<Json>)
    requires |precipitations| > 0 && !IsNonZero(precipitations[0])
    ensures ExtractInfo(Forecast(Some(Minutely15(Some(precipitations), None)))) == None
  {
  }

  /** A `null` first slot is not 0, so the verdict says it rains and carries the `null` along. */
  lemma NullSlotReadsAsRain(data: Forecast)
    requires Indexable(data) && HasAllKeys(data) && FirstPrecipitation(data) == JNull
    ensures ExtractInfo(data) == Some(Info(true, DescribeCode(FirstCode(data)), JNull))
  {
  }

  /** Only element 0 of each list is consulted: forecasts that agree there agree on the verdict. */
  lemma OnlyFirstSlotMatters(a: Forecast, b: Forecast)
    requires Indexable(a) && Indexable(b)
    requires HasAllKeys(a) == HasAllKeys(b)
    requires HasAllKeys(a) ==> FirstPrecipitation(a) == FirstPrecipitation(b) && FirstCode(a) == FirstCode(b)
    ensures ExtractInfo(a) == ExtractInfo(b)
  {
  }

  /** The verdict as the JSON the endpoint sends back: the dictionary literal, or `null` for `None`. */
  function ResponseBody(r: Option<Info>): (j: Json)
    ensures r.None? <==> j == JNull
    ensures r.Some? ==>
              j.JObject? && j.fields.Keys == {"raining", "weather_code", "precipitation"} &&
              j.fields["raining"] == JBool(r.value.raining) &&
              j.fields["weather_code"] == JString(r.value.weatherCode) &&
              j.fields["precipitation"] == r.value.precipitation
  {
    match r
    case None => JNull
    case Some(info) =>
      JObject(map[
        "raining" := JBool(info.raining),
        "weather_code" := JString(info.weatherCode),
        "precipitation" := info.precipitation
      ])
  }
}
