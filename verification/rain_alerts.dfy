/**
 * The rain-alert edge detector of `WeatherMonitor` (rain-app/ContentView.swift), as
 * functions of the remembered `lastRainStatus` and the decoded reading. The class in
 * weather_monitor.dfy is specified by these functions; the lemmas here say what they
 * promise over one completion and over any sequence of completions.
 */
module RainAlerts {
  import opened Wrappers
  import opened WeatherModel

  /** What a check makes observable: the request it sends, the update callback, the notification. */
  datatype Event =
    | Fetch(at: Coordinate)
    | Update(weather: Weather)
    | Alert(precipitation: real)

  /** The events of one step and the `lastRainStatus` it leaves behind. */
  datatype Cycle = Cycle(events: seq<Event>, rainStatus: bool)

  /** The precipitation values of the notifications in `es`, in order. */
  function AlertsOf(es: seq<Event>): seq<real>
  {
    if es == [] then []
    else (if es[0].Alert? then [es[0].precipitation] else []) + AlertsOf(es[1..])
  }

  /** The readings passed to `onWeatherUpdate` in `es`, in order. */
  function UpdatesOf(es: seq<Event>): seq<Weather>
  {
    if es == [] then []
    else (if es[0].Update? then [es[0].weather] else []) + UpdatesOf(es[1..])
  }

  /** The coordinates fetched in `es`, in order. */
  function FetchesOf(es: seq<Event>): seq<Coordinate>
  {
    if es == [] then []
    else (if es[0].Fetch? then [es[0].at] else []) + FetchesOf(es[1..])
  }

  lemma {:induction false} AlertsOfAppend(a: seq<Event>, b: seq<Event>)
    ensures AlertsOf(a + b) == AlertsOf(a) + AlertsOf(b)
  {
    if a != [] {
      assert (a + b)[1..] == a[1..] + b;
      AlertsOfAppend(a[1..], b);
    } else {
      assert a + b == b;
    }
  }

  lemma {:induction false} UpdatesOfAppend(a: seq<Event>, b: seq<Event>)
    ensures UpdatesOf(a + b) == UpdatesOf(a) + UpdatesOf(b)
  {
    if a != [] {
      assert (a + b)[1..] == a[1..] + b;
      UpdatesOfAppend(a[1..], b);
    } else {
      assert a + b == b;
    }
  }

  lemma {:induction false} FetchesOfAppend(a: seq<Event>, b: seq<Event>)
    ensures FetchesOf(a + b) == FetchesOf(a) + FetchesOf(b)
  {
    if a != [] {
      assert (a + b)[1..] == a[1..] + b;
      FetchesOfAppend(a[1..], b);
    } else {
      assert a + b == b;
    }
  }

  lemma FiltersOfOne(e: Event)
    ensures AlertsOf([e]) == if e.Alert? then [e.precipitation] else []
    ensures UpdatesOf([e]) == if e.Update? then [e.weather] else []
    ensures FetchesOf([e]) == if e.Fetch? then [e.at] else []
  {
    assert [e][1..] == [];
  }

  /**
   * The completion body of the data task, given the decoded reading (`None` when the
   * data was nil or did not decode): update the subscriber, alert on a dry-to-rainy
   * edge, then remember the reading's `raining`.
   */
  function Completion(last: bool, reading: Option<Weather>): (c: Cycle)
    ensures reading.None? ==> c == Cycle([], last)
    ensures reading.Some? ==> c.rainStatus == reading.value.raining
    ensures reading.Some? ==> |c.events| > 0 && c.events[0] == Update(reading.value)
    ensures UpdatesOf(c.events) == if reading.Some? then [reading.value] else []
    ensures AlertsOf(c.events) ==
              if reading.Some? && reading.value.raining && !last then [reading.value.precipitation] else []
    ensures FetchesOf(c.events) == []
  {
    match reading
    case None => Cycle([], last)
    case Some(weather) =>
      var alert := if weather.raining && !last then [Alert(weather.precipitation)] else [];
      FiltersOfOne(Update(weather));
      FiltersOfOne(Alert(weather.precipitation));
      AlertsOfAppend([Update(weather)], alert);
      UpdatesOfAppend([Update(weather)], alert);
      FetchesOfAppend([Update(weather)], alert);
      Cycle([Update(weather)] + alert, weather.raining)
  }

  /**
   * `checkWeather`: without a known location nothing is fetched and nothing changes;
   * otherwise one request goes out for that location and its completion is processed.
   */
  function Check(location: Option<Coordinate>, last: bool, reading: Option<Weather>): (c: Cycle)
    ensures location.None? ==> c == Cycle([], last)
    ensures location.Some? ==> FetchesOf(c.events) == [location.value]
    ensures location.Some? ==> |c.events| > 0 && c.events[0] == Fetch(location.value)
    ensures location.Some? ==> c.events == [Fetch(location.value)] + Completion(last, reading).events
    ensures location.Some? ==>
              c.rainStatus == Completion(last, reading).rainStatus &&
              AlertsOf(c.events) == AlertsOf(Completion(last, reading).events) &&
              UpdatesOf(c.events) == UpdatesOf(Completion(last, reading).events)
  {
    match location
    case None => Cycle([], last)
    case Some(at) =>
      var done := Completion(last, reading);
      AlertsOfAppend([Fetch(at)], done.events);
      UpdatesOfAppend([Fetch(at)], done.events);
      FetchesOfAppend([Fetch(at)], done.events);
      Cycle([Fetch(at)] + done.events, done.rainStatus)
  }

  /** Completions processed one after another, starting from `last`. */
  function Run(last: bool, readings: seq<Option<Weather>>): Cycle
    decreases |readings|
  {
    if readings == [] then Cycle([], last)
    else
      var first := Completion(last, readings[0]);
      var rest := Run(first.rainStatus, readings[1..]);
      Cycle(first.events + rest.events, rest.rainStatus)
  }

  /** Unfolding a run by its first completion, as seen by the update and notification channels. */
  lemma RunStep(last: bool, readings: seq<Option<Weather>>)
    requires readings != []
    ensures var first := Completion(last, readings[0]);
            var rest := Run(first.rainStatus, readings[1..]);
            && AlertsOf(Run(last, readings).events) == AlertsOf(first.events) + AlertsOf(rest.events)
            && UpdatesOf(Run(last, readings).events) == UpdatesOf(first.events) + UpdatesOf(rest.events)
  {
    var first := Completion(last, readings[0]);
    var rest := Run(first.rainStatus, readings[1..]);
    AlertsOfAppend(first.events, rest.events);
    UpdatesOfAppend(first.events, rest.events);
  }

  /** The successfully decoded readings among `readings`, in order. */
  function Decoded(readings: seq<Option<Weather>>): seq<Weather>
  {
    if readings == [] then []
    else (if readings[0].Some? then [readings[0].value] else []) + Decoded(readings[1..])
  }

  function RainFlags(ws: seq<Weather>): (flags: seq<bool>)
  {
    seq(|ws|, i requires 0 <= i < |ws| => ws[i].raining)
  }

  /** The number of adjacent false-then-true pairs in `s`, counted from its end. */
  function FalseToTrue(s: seq<bool>): nat
    decreases |s|
  {
    if |s| < 2 then 0
    else FalseToTrue(s[..|s| - 1]) + (if !s[|s| - 2] && s[|s| - 1] then 1 else 0)
  }

  lemma {:induction false} FalseToTrueCons(a: bool, t: seq<bool>)
    requires |t| > 0
    ensures FalseToTrue([a] + t) == (if !a && t[0] then 1 else 0) + FalseToTrue(t)
  {
    var s := [a] + t;
    if |t| == 1 {
      assert s[..|s| - 1] == [a];
    } else {
      assert s[..|s| - 1] == [a] + t[..|t| - 1];
      FalseToTrueCons(a, t[..|t| - 1]);
    }
  }

  /** Every successfully decoded reading reaches `onWeatherUpdate`, raining or not, in order. */
  lemma {:induction false} EveryReadingIsReported(last: bool, readings: seq<Option<Weather>>)
    ensures UpdatesOf(Run(last, readings).events) == Decoded(readings)
    decreases |readings|
  {
    if readings != [] {
      var first := Completion(last, readings[0]);
      EveryReadingIsReported(first.rainStatus, readings[1..]);
      UpdatesOfAppend(first.events, Run(first.rainStatus, readings[1..]).events);
    }
  }

  /** After a run `lastRainStatus` is the `raining` of the last decoded reading, or unchanged if none decoded. */
  lemma {:induction false} StatusFollowsLastReading(last: bool, readings: seq<Option<Weather>>)
    ensures var ws := Decoded(readings);
            Run(last, readings).rainStatus == if ws == [] then last else ws[|ws| - 1].raining
    decreases |readings|
  {
    if readings != [] {
      var first := Completion(last, readings[0]);
      StatusFollowsLastReading(first.rainStatus, readings[1..]);
    }
  }

  /**
   * The number of notifications equals the number of false-to-true transitions in the
   * decoded readings' `raining` flags, counting from the remembered status.
   */
  lemma {:induction false} AlertsCountTransitions(last: bool, readings: seq<Option<Weather>>)
    ensures |AlertsOf(Run(last, readings).events)| == FalseToTrue([last] + RainFlags(Decoded(readings)))
    decreases |readings|
  {
    if readings == [] {
      assert [last] + RainFlags(Decoded(readings)) == [last];
    } else {
      var first := Completion(last, readings[0]);
      RunStep(last, readings);
      AlertsCountTransitions(first.rainStatus, readings[1..]);
      var tail := RainFlags(Decoded(readings[1..]));
      if readings[0].Some? {
        var w := readings[0].value;
        assert Decoded(readings) == [w] + Decoded(readings[1..]);
        RainFlagsCons(w, Decoded(readings[1..]));
        FalseToTrueCons(last, [w.raining] + tail);
        assert |AlertsOf(first.events)| == if w.raining && !last then 1 else 0;
      } else {
        assert Decoded(readings) == Decoded(readings[1..]);
      }
    }
  }

  lemma RainFlagsCons(w: Weather, ws: seq<Weather>)
    ensures RainFlags([w] + ws) == [w.raining] + RainFlags(ws)
  {
  }

  /** Starting from the initial `false`, the count is over `[false]` followed by the flags. */
  lemma AlertsFromStart(readings: seq<Option<Weather>>)
    ensures |AlertsOf(Run(false, readings).events)| == FalseToTrue([false] + RainFlags(Decoded(readings)))
  {
    AlertsCountTransitions(false, readings);
  }

  /** While every decoded reading is rainy, only the first one can alert, and it does iff the status was dry. */
  lemma {:induction false} SustainedRain(last: bool, readings: seq<Option<Weather>>)
    requires forall i :: 0 <= i < |Decoded(readings)| ==> Decoded(readings)[i].raining
    ensures var ws := Decoded(readings);
            AlertsOf(Run(last, readings).events) == if last || ws == [] then [] else [ws[0].precipitation]
    decreases |readings|
  {
    if readings != [] {
      var first := Completion(last, readings[0]);
      var rest := Run(first.rainStatus, readings[1..]);
      AlertsOfAppend(first.events, rest.events);
      match readings[0]
      case None =>
        assert Decoded(readings) == Decoded(readings[1..]);
        SustainedRain(last, readings[1..]);
      case Some(w) =>
        assert Decoded(readings) == [w] + Decoded(readings[1..]);
        assert forall i :: 0 <= i < |Decoded(readings[1..])| ==>
                 Decoded(readings[1..])[i] == Decoded(readings)[i + 1];
        SustainedRain(true, readings[1..]);
    }
  }

  /** Rain over many cycles, starting dry, notifies exactly once, with the first rainy reading's value. */
  lemma SustainedRainAlertsOnce(readings: seq<Option<Weather>>)
    requires Decoded(readings) != []
    requires forall i :: 0 <= i < |Decoded(readings)| ==> Decoded(readings)[i].raining
    ensures AlertsOf(Run(false, readings).events) == [Decoded(readings)[0].precipitation]
  {
    SustainedRain(false, readings);
  }

  /** A dry reading re-arms the detector: the next rainy reading notifies again, whatever came before. */
  lemma DryThenRainAlertsAgain(last: bool, dry: Weather, rainy: Weather)
    requires !dry.raining && rainy.raining
    ensures AlertsOf(Run(last, [Some(dry), Some(rainy)]).events) == [rainy.precipitation]
  {
    var rs := [Some(dry), Some(rainy)];
    RunStep(last, rs);
    assert rs[1..] == [Some(rainy)];
    RunStep(false, rs[1..]);
    assert rs[1..][1..] == [];
  }

  /** A failed fetch or decode in between changes nothing: the run is the run without it. */
  lemma {:induction false} FailuresAreSilent(last: bool, before: seq<Option<Weather>>, after: seq<Option<Weather>>)
    ensures Run(last, before + [None] + after) == Run(last, before + after)
    decreases |before|
  {
    if before == [] {
      assert [None] + after == before + [None] + after;
      assert after == before + after;
      assert ([None] + after)[1..] == after;
    } else {
      var first := Completion(last, before[0]);
      assert (before + [None] + after)[1..] == before[1..] + [None] + after;
      assert (before + after)[1..] == before[1..] + after;
      FailuresAreSilent(first.rainStatus, before[1..], after);
    }
  }

  /** Running two stretches of completions one after the other is the run over both. */
  lemma {:induction false} RunAppend(last: bool, a: seq<Option<Weather>>, b: seq<Option<Weather>>)
    ensures Run(last, a + b).events == Run(last, a).events + Run(Run(last, a).rainStatus, b).events
    ensures Run(last, a + b).rainStatus == Run(Run(last, a).rainStatus, b).rainStatus
    decreases |a|
  {
    if a == [] {
      assert a + b == b;
    } else {
      var first := Completion(last, a[0]);
      var ab := a + b;
      assert ab[1..] == a[1..] + b;
      assert ab[0] == a[0];
      var restA := Run(first.rainStatus, a[1..]);
      var restAB := Run(first.rainStatus, ab[1..]);
      assert Run(last, ab) == Cycle(first.events + restAB.events, restAB.rainStatus);
      assert Run(last, a) == Cycle(first.events + restA.events, restA.rainStatus);
      RunAppend(first.rainStatus, a[1..], b);
      var tail := Run(restA.rainStatus, b).events;
      assert restAB.events == restA.events + tail;
      ConcatAssociates(first.events, restA.events, tail);
    }
  }

  lemma ConcatAssociates(x: seq<Event>, y: seq<Event>, z: seq<Event>)
    ensures x + (y + z) == (x + y) + z
  {
  }

  /**
   * Five readings, dry / rain / rain / dry / rain (for instance 0, 2.3, 1.1, 0 and
   * 0.5 mm): notifications for the second and the fifth reading only, and all five
   * readings reported.
   */
  lemma ScenarioFiveCycles(d1: Weather, a: Weather, b: Weather, d2: Weather, c: Weather)
    requires !d1.raining && !d2.raining && a.raining && b.raining && c.raining
    ensures var rs := [Some(d1), Some(a), Some(b), Some(d2), Some(c)];
            AlertsOf(Run(false, rs).events) == [a.precipitation, c.precipitation] &&
            UpdatesOf(Run(false, rs).events) == [d1, a, b, d2, c]
  {
    var rs := [Some(d1), Some(a), Some(b), Some(d2), Some(c)];
    assert AlertsOf(Run(false, rs).events) == [a.precipitation, c.precipitation] by {
      var head, tail := [Some(d1), Some(a), Some(b)], [Some(d2), Some(c)];
      assert rs == head + tail;
      RunAppend(false, head, tail);
      DryThenSustainedRain(d1, a, b);
      DryThenRainAlertsAgain(true, d2, c);
      AlertsOfAppend(Run(false, head).events, Run(true, tail).events);
    }
    assert UpdatesOf(Run(false, rs).events) == [d1, a, b, d2, c] by {
      EveryReadingIsReported(false, rs);
      DecodedAllSome(rs);
    }
  }

  /** The first three readings of the scenario: one notification, and the status ends rainy. */
  lemma DryThenSustainedRain(dry: Weather, a: Weather, b: Weather)
    requires !dry.raining && a.raining && b.raining
    ensures var r := Run(false, [Some(dry), Some(a), Some(b)]);
            AlertsOf(r.events) == [a.precipitation] && r.rainStatus
  {
    var rs := [Some(dry), Some(a), Some(b)];
    DecodedAllSome(rs);
    assert Decoded(rs) == [dry, a, b];
    StatusFollowsLastReading(false, rs);
    RunStep(false, rs);
    assert rs[1..] == [Some(a), Some(b)];
    DecodedAllSome(rs[1..]);
    SustainedRain(false, rs[1..]);
  }

  /** When every fetch decoded, the decoded readings are all of them. */
  lemma {:induction false} DecodedAllSome(readings: seq<Option<Weather>>)
    requires forall i :: 0 <= i < |readings| ==> readings[i].Some?
    ensures |Decoded(readings)| == |readings|
    ensures forall i :: 0 <= i < |readings| ==> Decoded(readings)[i] == readings[i].value
    decreases |readings|
  {
    if readings != [] {
      DecodedAllSome(readings[1..]);
    }
  }
}
