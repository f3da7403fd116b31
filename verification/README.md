# Rain alert: a Dafny model

This project models the two pieces of decision logic in the rain-alert app.

- **The app's `WeatherMonitor`** (`rain-app/ContentView.swift`) polls a weather backend. It runs on a repeating 15-minute timer, on the "Check Now" button and on every location fix. Each decoded reading goes to the `onWeatherUpdate` callback. A rain notification is posted only on a dry-to-rainy edge of the remembered `lastRainStatus`.
- **The backend's `extract_info`** (`python-backend/services/processor.py`) reduces an Open-Meteo forecast to the verdict `{raining, weather_code, precipitation}`. It reads only the first 15-minute slot and describes the code from a fixed table. A missing key gives `None`.

Files:

- `wrappers.dfy` holds `Option`.
- `json.dfy` holds a JSON value.
- `processor.dfy` is the backend reducer, written as pure functions.
- `weather_model.dfy` holds the `Weather` value and its `CodingKeys` decoding.
- `rain_alerts.dfy` specifies the completion handler and the location check as functions. It also has lemmas over whole sequences of readings.
- `weather_monitor.dfy` holds the class `WeatherMonitor`. Its fields change in place, and each method that runs a check or processes a result is proved against the functions of `rain_alerts.dfy`.
- `wire_contract.dfy` connects the backend's answer to what the app decodes.

The user-visible effects of the monitor are recorded in a ghost `trace` of events:

- `Fetch(at)`: a request sent for a location;
- `Update(weather)`: a reading handed to `onWeatherUpdate`;
- `Alert(precipitation)`: a posted rain notification.

The model follows the code as written, including three places where a reader might expect otherwise:

- `stopMonitoring` does not reset `lastRainStatus`. After a restart, continuing rain does not alert again.
- `startMonitoring` has no guard against a second call. It overwrites the timer without invalidating it. The ghost counter `orphanedTimers` counts the timers left firing this way.
- The completion handler never consults `isMonitoring`. Readings that arrive while monitoring is off are still reported, and they can still alert.

## Model

| member | source | states |
|---|---|---|
| Processor.DescribeCode | python-backend/services/processor.py:1-7 | codes 51, 53, 55, 61 and 82 get their table description; every other code, and a `null` code, gets "Unknown weather code". No description is "No precipitation" |
| Processor.ExtractInfo | python-backend/services/processor.py:9-29 | `None` exactly when one of `minutely_15`, `precipitation` or `weathercode` is missing. Otherwise `raining` holds iff the first precipitation slot is non-zero in Python's `!=` sense, where `null` and any non-numeric value count as non-zero. It also holds iff the returned precipitation is non-zero. A rainy verdict carries the first precipitation value unchanged, even a `null`, and the description of the first code. A dry verdict is `{false, "No precipitation", 0}` whatever the code. The requires excludes only the inputs that raise `IndexError` |
| Processor.MissingCodeLosesDryVerdict | python-backend/services/processor.py:10-14 | a missing `weathercode` gives `None` even when the first precipitation is 0, because the code lookup runs before the branch |
| Processor.NullSlotReadsAsRain | python-backend/services/processor.py:11-20 | a `null` first precipitation slot gives a raining verdict whose precipitation is `null` |
| Processor.OnlyFirstSlotMatters | python-backend/services/processor.py:11-12 | two forecasts that agree on key presence and on element 0 of each list get the same verdict |
| Processor.ResponseBody | python-backend/services/processor.py:16-29 | a verdict is sent as an object with exactly the keys `raining`, `weather_code` and `precipitation`, holding the verdict's values; `None` is sent as `null` |
| WeatherModel.DecodeWeather | rain-app/ContentView.swift:232-242 | decoding succeeds iff the body is an object with a boolean `raining`, a string `weather_code` and a number `precipitation`. The result carries those three values |
| WeatherModel.EncodeWeather | rain-app/ContentView.swift:237-241 | encoding writes exactly the three coding keys |
| WeatherModel.DecodeBody | rain-app/ContentView.swift:144-149 | a reading comes through iff the data is non-nil and is an object with a boolean `raining`, a string `weather_code` and a number `precipitation`; the reading carries those three values |
| WeatherModel.DecodeEncode | rain-app/ContentView.swift:237-241 | decoding an encoded `Weather` gives it back |
| WeatherModel.EncodeDecode | rain-app/ContentView.swift:237-241 | a decodable body holds, under each coding key, what re-encoding its reading writes there |
| WeatherModel.PropertyNameIsNotTheKey | rain-app/ContentView.swift:239 | an object that uses the property name `weatherCode` instead of `weather_code` does not decode |
| RainAlerts.Completion | rain-app/ContentView.swift:151-160 | a failed fetch or decode emits nothing and keeps the status. A decoded reading is always reported first. It alerts, carrying its precipitation, iff it is raining and the status was dry. The new status is its `raining` |
| RainAlerts.Check | rain-app/ContentView.swift:130-162 | with no location there is no fetch and no state change. With a location the events are the fetch for that location followed by exactly the completion's events: the update, then any alert. The status is the completion's |
| RainAlerts.EveryReadingIsReported | rain-app/ContentView.swift:151-152 | over any sequence of completions, the updates are exactly the decoded readings, in order, raining or not |
| RainAlerts.StatusFollowsLastReading | rain-app/ContentView.swift:159 | after any sequence of completions, `lastRainStatus` is the `raining` of the last decoded reading, or unchanged if none decoded |
| RainAlerts.AlertsCountTransitions | rain-app/ContentView.swift:155-159 | the number of alerts equals the number of false-to-true pairs in the remembered status followed by the decoded readings' `raining` flags |
| RainAlerts.AlertsFromStart | rain-app/ContentView.swift:82 | from the initial `false` status, the alerts equal the false-to-true transitions counted from `false` |
| RainAlerts.SustainedRain | rain-app/ContentView.swift:155-159 | while every decoded reading rains, there is at most one alert. It is for the first reading, and only if the status was dry |
| RainAlerts.SustainedRainAlertsOnce | rain-app/ContentView.swift:155-159 | rain over many cycles, starting dry, gives exactly one alert, carrying the first rainy reading's precipitation |
| RainAlerts.DryThenRainAlertsAgain | rain-app/ContentView.swift:155-159 | a dry reading followed by a rainy one alerts again, whatever the earlier status |
| RainAlerts.FailuresAreSilent | rain-app/ContentView.swift:144-149 | inserting a failed completion anywhere in a sequence changes neither its events nor its final status |
| RainAlerts.ScenarioFiveCycles | rain-app/ContentView.swift:151-160 | the readings dry, rain, rain, dry, rain (for instance 0, 2.3, 1.1, 0 and 0.5 mm; the two dry readings may differ) give alerts for the second and the fifth reading only, each carrying its precipitation. All five readings are reported in order |
| WeatherMonitoring.WeatherMonitor.constructor | rain-app/ContentView.swift:79-92 | a new monitor is not monitoring, has no timer, remembers `false` and has emitted nothing |
| WeatherMonitoring.WeatherMonitor.ProcessResult | rain-app/ContentView.swift:144-160 | appends the completion's events and sets `lastRainStatus` as `Completion` says. `isMonitoring`, the timer and the orphaned timers are left untouched |
| WeatherMonitoring.WeatherMonitor.CheckWeather | rain-app/ContentView.swift:130-162 | the trace and status change as `Check` says for the given location |
| WeatherMonitoring.WeatherMonitor.CheckWeatherNow | rain-app/ContentView.swift:126-128 | a failed location request changes nothing; a fix runs one check at that location |
| WeatherMonitoring.WeatherMonitor.StartMonitoring | rain-app/ContentView.swift:108-118 | monitoring is on and a timer is set. A timer that was already set is orphaned, not invalidated. One immediate check runs |
| WeatherMonitoring.WeatherMonitor.StopMonitoring | rain-app/ContentView.swift:120-124 | monitoring is off and the owned timer is cleared. `lastRainStatus`, the trace and the orphaned timers are unchanged |
| WireContract.VerdictDecodes | python-backend/services/processor.py:14-29 | a backend answer decodes iff it is a verdict whose precipitation is a JSON number, and then to the same three values. The `null` answer for a missing key decodes to nothing |
| WireContract.NullSlotIsDropped | rain-app/ContentView.swift:144-149 | a `null` first precipitation slot gives a raining verdict that the app cannot decode, so the reading is dropped silently |
| WireContract.ForecastDrivesAlert | rain-app/ContentView.swift:144-159 | fed by the backend, the app alerts iff the first slot holds a non-zero number and the status was dry. It then remembers whether that number was non-zero. A missing key, or a first slot that is a non-zero non-number such as `null`, leaves everything unchanged. A non-number first slot never alerts |

## Left out

- The SwiftUI view, its display strings and the `%.1f`/`%.4f` formatting (rain-app/ContentView.swift:11-76, 244-246) are UI.
- Notification and location permission requests, and posting the notification through `UNUserNotificationCenter`, are platform calls. A posted notification is the `Alert` event. The title and body text are not modelled.
- `LocationManager` and its CoreLocation delegate are platform glue. The result of a location request is the `fix` argument, where `None` is the error callback that only logs. The location stored by the manager is the `location` argument of `CheckWeather`.
- URL construction, `URLSession` and `JSONDecoder` byte parsing are network I/O and library code. The fetched data is an `Option<Json>` body. Non-JSON bytes are taken as the `None` body. The `guard let url` failure is not modelled: `URLComponents` built from the literal base URL plus the `latitude` and `longitude` query items always yields a URL, so the guard cannot fail.
- Asynchrony is left out: `Timer.scheduledTimer`, the `DispatchQueue.main.async` hop, and completions that arrive out of order. Each completion runs right after its request. A timer tick is a call of `CheckWeatherNow`. Out-of-order completions can be expressed by calling `ProcessResult` directly in any order.
- The `[weak self]` captures (a deallocated monitor ignores callbacks) are not modelled.
- `WeatherMonitoring.WeatherMonitor.ProcessResult`: always records the `Update`. In the app, an `onWeatherUpdate` closure that is nil makes the call a no-op.
- `Processor.ExtractInfo`: requires that no list it indexes is empty. An empty list raises `IndexError`, which the function does not catch. A precipitation slot may be any JSON value, compared with 0 as Python does. A code slot is an integer or `null`. A code of another type is not modelled. A float such as `61.0` would match the table, and a list would raise `TypeError` in the lookup.
- Floating-point arithmetic, including NaN, is not modelled: a JSON number is a `real`. Only equality with zero and pass-through matter here.
- `python-backend/main.py` and `python-backend/api/client.py` are HTTP plumbing and are not part of this model. The endpoint ignores its coordinates and always asks for fixed New York coordinates.
