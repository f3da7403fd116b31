/**
 * `WeatherMonitor` (rain-app/ContentView.swift): the monitoring flag, the repeating
 * timer and the remembered rain status, updated in place. The location request and the
 * network fetch are asynchronous in the app; here their outcomes are arguments (`fix`
 * for the location request, `body` for the response data) and the completion runs
 * right after the request. What the user sees is recorded in the ghost `trace`.
 */
module WeatherMonitoring {
  import opened Wrappers
  import opened Json
  import opened WeatherModel
  import opened RainAlerts

  class WeatherMonitor {
    var isMonitoring: bool
    /** `timer != nil`. */
    var timerActive: bool
    var lastRainStatus: bool
    /** Timers that were overwritten while still scheduled: they keep firing and nothing can invalidate them. */
    ghost var orphanedTimers: nat
    /** Requests sent, readings passed to `onWeatherUpdate` and rain notifications posted, in order. */
    ghost var trace: seq<Event>

    /** The owned timer exists exactly while monitoring is on. */
    ghost predicate Valid()
      reads this
    {
      timerActive == isMonitoring
    }

    constructor ()
      ensures Valid()
      ensures !isMonitoring && !timerActive && !lastRainStatus
      ensures orphanedTimers == 0 && trace == []
    {
      isMonitoring := false;
      timerActive := false;
      lastRainStatus := false;
      orphanedTimers := 0;
      trace := [];
    }

    /**
     * The completion handler of the data task. It never looks at `isMonitoring`: a
     * reading that arrives after `StopMonitoring` is still reported and can still alert.
     */
    method ProcessResult(body: Option<Json>)
      requires Valid()
      modifies this`lastRainStatus, this`trace
      ensures Valid()
      ensures var c := Completion(old(lastRainStatus), DecodeBody(body));
              trace == old(trace) + c.events && lastRainStatus == c.rainStatus
    {
      var weather := DecodeBody(body);
      if weather.None? {
        return;
      }
      var w := weather.value;
      trace := trace + [Update(w)];
      if w.raining && !lastRainStatus {
        trace := trace + [Alert(w.precipitation)];
      }
      lastRainStatus := w.raining;
    }

    /** `checkWeather`: returns at once when no location is known, otherwise fetches for it. */
    method CheckWeather(location: Option<Coordinate>, body: Option<Json>)
      requires Valid()
      modifies this`lastRainStatus, this`trace
      ensures Valid()
      ensures var c := Check(location, old(lastRainStatus), DecodeBody(body));
              trace == old(trace) + c.events && lastRainStatus == c.rainStatus
    {
      if location.None? {
        return;
      }
      ghost var before := trace;
      trace := trace + [Fetch(location.value)];
      ProcessResult(body);
      ConcatAssociates(before, [Fetch(location.value)],
                       Completion(old(lastRainStatus), DecodeBody(body)).events);
    }

    /**
     * `checkWeatherNow` asks for one location fix; the delegate runs `checkWeather` only
     * when a fix arrives (`fix == None` is the failure callback, which only logs).
     */
    method CheckWeatherNow(fix: Option<Coordinate>, body: Option<Json>)
      requires Valid()
      modifies this`lastRainStatus, this`trace
      ensures Valid()
      ensures var c := Check(fix, old(lastRainStatus), DecodeBody(body));
              trace == old(trace) + c.events && lastRainStatus == c.rainStatus
    {
      if fix.Some? {
        CheckWeather(fix, body);
      }
    }

    /**
     * Sets the flag, schedules a new 900-second timer over whatever timer was there
     * (without invalidating it) and runs one immediate check. Nothing guards a second call.
     */
    method StartMonitoring(fix: Option<Coordinate>, body: Option<Json>)
      requires Valid()
      modifies this
      ensures Valid() && isMonitoring && timerActive
      ensures orphanedTimers == old(orphanedTimers) + (if old(timerActive) then 1 else 0)
      ensures var c := Check(fix, old(lastRainStatus), DecodeBody(body));
              trace == old(trace) + c.events && lastRainStatus == c.rainStatus
    {
      isMonitoring := true;
      if timerActive {
        orphanedTimers := orphanedTimers + 1;
      }
      timerActive := true;
      CheckWeatherNow(fix, body);
    }

    /** Clears the flag and the owned timer; the remembered rain status is kept. */
    method StopMonitoring()
      requires Valid()
      modifies this`isMonitoring, this`timerActive
      ensures Valid() && !isMonitoring && !timerActive
      ensures lastRainStatus == old(lastRainStatus) && trace == old(trace)
      ensures orphanedTimers == old(orphanedTimers)
    {
      isMonitoring := false;
      timerActive := false;
    }
  }

  /**
   * A client of the class: rain before a stop and rain right after a restart give one
   * notification, not two, because stopping keeps the remembered rain status; a reading
   * processed while stopped still reaches the subscriber; and a second start orphans
   * the running timer.
   */
  method RestartKeepsRainMemory()
  {
    var monitor := new WeatherMonitor();
    var here := Coordinate(40.7128, -74.006);
    var rainy := Weather(true, "Slight rain", 2.3);
    DecodeEncode(rainy);
    monitor.StartMonitoring(Some(here), Some(EncodeWeather(rainy)));
    assert monitor.trace == [Fetch(here), Update(rainy), Alert(2.3)];
    monitor.StopMonitoring();
    monitor.ProcessResult(Some(EncodeWeather(rainy)));
    monitor.StartMonitoring(Some(here), Some(EncodeWeather(rainy)));
    assert monitor.trace == [Fetch(here), Update(rainy), Alert(2.3), Update(rainy), Fetch(here), Update(rainy)];
    assert monitor.isMonitoring && monitor.orphanedTimers == 0;
    monitor.StartMonitoring(None, None);
    assert monitor.orphanedTimers == 1 && |monitor.trace| == 6;
  }
}
