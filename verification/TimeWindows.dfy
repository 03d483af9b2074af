/** Opening days (C1), opening windows (C2), day bounds (C4) and weather (C5). */
module TimeWindows {
  import opened Prelude
  import opened Models

  const MINUTES_PER_DAY: int := 1440
  const DEFAULT_DURATION_RATIO: real := 0.6
  const DEFAULT_DAY_START_MIN: int := 540
  const DEFAULT_DAY_END_MIN: int := 1260

  datatype EffectiveTimeWindow = EffectiveTimeWindow(
    openMin: int, closeMin: int, lastEntryMin: Option<int>, latestArrivalMin: int)

  datatype WindowResolution = Window(window: EffectiveTimeWindow) | NoWindow(code: RejectionCode)

  /** C1: a one-off closure wins, then a one-off opening, then the weekly closure. */
  predicate IsOpenOn(attraction: Attraction, date: Date) {
    if date in attraction.closedOnDates then false
    else if date in attraction.openOnDates then true
    else IsoWeekday(date) !in attraction.closeDays
  }

  /** C5: only a forecast of extreme weather closes an outdoor attraction. */
  predicate WeatherPermits(attraction: Attraction, weather: DailyWeather) {
    !(weather.basis == Forecast && weather.severity == Extreme && !attraction.isIndoor)
  }

  function MinimumDuration(attraction: Attraction, ratio: real): int {
    Ceil(attraction.suggestedDuration as real * ratio)
  }

  function MatchingRules(rules: seq<TimeRule>, date: Date): seq<TimeRule> {
    if rules == [] then []
    else if Matches(rules[0], date) then [rules[0]] + MatchingRules(rules[1..], date)
    else MatchingRules(rules[1..], date)
  }

  /** The single C2 window that applies on a date. */
  function ResolveEffectiveWindow(attraction: Attraction, date: Date, ratio: real): (r: WindowResolution)
    ensures r.NoWindow? ==> r.code == NoMatchingTimeRule || r.code == TimeRuleConflict
  {
    var required := MinimumDuration(attraction, ratio);
    if attraction.isAlwaysOpen then
      Window(EffectiveTimeWindow(0, MINUTES_PER_DAY, None, MINUTES_PER_DAY - required))
    else
      var matching := MatchingRules(attraction.timeRules, date);
      if matching == [] then NoWindow(NoMatchingTimeRule)
      else if |matching| > 1 then NoWindow(TimeRuleConflict)
      else
        var rule := matching[0];
        Window(EffectiveTimeWindow(
          rule.openMin,
          rule.closeMin,
          rule.lastEntryMin,
          Min(EntryLimit(rule.lastEntryMin, rule.closeMin), rule.closeMin - required)))
  }

  function EntryLimit(lastEntry: Option<int>, close: int): int {
    if lastEntry.Some? then lastEntry.value else close
  }

  /** The window every routing stage uses, at the default duration ratio. */
  function DefaultWindow(attraction: Attraction, date: Date): WindowResolution {
    ResolveEffectiveWindow(attraction, date, DEFAULT_DURATION_RATIO)
  }

  /** Latest arrival that still leaves room for `duration` before closing. */
  function LatestFor(window: EffectiveTimeWindow, duration: int): int {
    Min(EntryLimit(window.lastEntryMin, window.closeMin), window.closeMin - duration)
  }

  /** C2 and C4 together: the arrival lies in the window and the stay in the day. */
  predicate FitsDay(attraction: Attraction, date: Date, bounds: DayTimeBounds, arrival: int, duration: int) {
    var resolution := DefaultWindow(attraction, date);
    && resolution.Window?
    && Max(bounds.startMin, resolution.window.openMin) <= arrival
    && arrival <= Min(LatestFor(resolution.window, duration), bounds.endMin - duration)
  }

  datatype BoundsResolution = Bounds(bounds: DayTimeBounds) | EmptyDay

  /** C4: the first day starts when the traveller reaches the city, the last ends
      in time for the return. */
  function ResolveDayTimeBounds(dayIndex: int, totalDays: int, anchors: TripTimeAnchors): BoundsResolution
    requires 1 <= dayIndex <= totalDays
  {
    var start := if dayIndex == 1 then anchors.arrivalMin + anchors.stationToCityMin else DEFAULT_DAY_START_MIN;
    var end :=
      if dayIndex == totalDays then
        anchors.departureMin - anchors.stationEarlyMin - anchors.lastVisitToStationMin
      else DEFAULT_DAY_END_MIN;
    if start > end then EmptyDay else Bounds(DayTimeBounds(start, end))
  }

  /** C1 and C5 for a date, the two constraints a route cannot break by timing. */
  predicate MayVisitOn(attraction: Attraction, date: Date, weather: Weather) {
    && IsOpenOn(attraction, date)
    && date in weather
    && WeatherPermits(attraction, weather[date])
  }

  /** At most one rule matches exactly when the filter finds at most one. */
  lemma {:induction false} MatchingRulesMembers(rules: seq<TimeRule>, date: Date)
    ensures MatchingRules(rules, date) == [] <==> forall i :: 0 <= i < |rules| ==> !Matches(rules[i], date)
    ensures |MatchingRules(rules, date)| > 1 <==>
      exists i, j :: 0 <= i < j < |rules| && Matches(rules[i], date) && Matches(rules[j], date)
  {
    if rules != [] {
      var rest := rules[1..];
      MatchingRulesMembers(rest, date);
      forall i | 0 <= i < |rest|
        ensures rest[i] == rules[i + 1]
      {
      }
      assert forall i :: 1 <= i < |rules| ==> rules[i] == rest[i - 1];
      if Matches(rules[0], date) && MatchingRules(rest, date) != [] {
        var j :| 0 <= j < |rest| && Matches(rest[j], date);
        assert Matches(rules[0], date) && Matches(rules[j + 1], date);
      }
      if |MatchingRules(rest, date)| > 1 {
        var i, j :| 0 <= i < j < |rest| && Matches(rest[i], date) && Matches(rest[j], date);
        assert Matches(rules[i + 1], date) && Matches(rules[j + 1], date);
      }
    }
  }

  /** Rule `i` is the one rule that covers a date. */
  predicate OnlyMatch(rules: seq<TimeRule>, date: Date, i: nat) {
    && i < |rules| && Matches(rules[i], date)
    && forall j :: 0 <= j < |rules| && Matches(rules[j], date) ==> j == i
  }

  /** A stay that starts at `arrival` is let in by the rule and over by its closing time. */
  predicate AdmitsStay(rule: TimeRule, arrival: int, stay: int) {
    && rule.openMin <= arrival && arrival + stay <= rule.closeMin
    && (rule.lastEntryMin.Some? ==> arrival <= rule.lastEntryMin.value)
  }

  lemma {:induction false} OnlyMatchIsFound(rules: seq<TimeRule>, date: Date, i: nat)
    requires OnlyMatch(rules, date, i)
    ensures MatchingRules(rules, date) == [rules[i]]
  {
    hide Matches;
    MatchingRulesMembers(rules[1..], date);
    if i > 0 {
      var rest := rules[1..];
      forall j | 0 <= j < |rest| && Matches(rest[j], date)
        ensures j == i - 1
      {
        assert rest[j] == rules[j + 1];
      }
      assert !Matches(rules[0], date);
      OnlyMatchIsFound(rest, date, i - 1);
    }
  }

  lemma {:induction false} SomeMatch(rules: seq<TimeRule>, date: Date)
    requires exists j :: 0 <= j < |rules| && Matches(rules[j], date)
    requires !exists i, j :: 0 <= i < j < |rules| && Matches(rules[i], date) && Matches(rules[j], date)
    ensures exists i: nat :: OnlyMatch(rules, date, i)
  {
    hide Matches;
    var i :| 0 <= i < |rules| && Matches(rules[i], date);
    assert OnlyMatch(rules, date, i);
  }

  /** A window is resolved exactly when the attraction is always open or one rule covers the date,
      and then admits exactly the arrivals from which a stay of the minimum length fits the day or
      that rule. */
  lemma {:induction false} EffectiveWindowIsExact(attraction: Attraction, date: Date, ratio: real, arrival: int)
    requires 0.0 < ratio <= 1.0
    ensures attraction.isAlwaysOpen ==>
      var r := ResolveEffectiveWindow(attraction, date, ratio);
      && r.Window?
      && (r.window.openMin <= arrival <= r.window.latestArrivalMin <==>
            0 <= arrival && arrival + MinimumDuration(attraction, ratio) <= MINUTES_PER_DAY)
    ensures !attraction.isAlwaysOpen ==>
      var r, rules := ResolveEffectiveWindow(attraction, date, ratio), attraction.timeRules;
      && (r == NoWindow(NoMatchingTimeRule) <==> forall i :: 0 <= i < |rules| ==> !Matches(rules[i], date))
      && (r == NoWindow(TimeRuleConflict) <==>
            exists i, j :: 0 <= i < j < |rules| && Matches(rules[i], date) && Matches(rules[j], date))
      && (r.Window? <==> exists i: nat :: OnlyMatch(rules, date, i))
      && (forall i: nat :: OnlyMatch(rules, date, i) ==>
            (r.window.openMin <= arrival <= r.window.latestArrivalMin <==>
              AdmitsStay(rules[i], arrival, MinimumDuration(attraction, ratio))))
  {
    hide Matches, MatchingRules;
    var rules := attraction.timeRules;
    MatchingRulesMembers(rules, date);
    forall i: nat | OnlyMatch(rules, date, i)
      ensures MatchingRules(rules, date) == [rules[i]]
    {
      OnlyMatchIsFound(rules, date, i);
    }
    if |MatchingRules(rules, date)| == 1 { SomeMatch(rules, date); }
    CeilScaledPositive(attraction.suggestedDuration, ratio);
    assert MinimumDuration(attraction, ratio) >= 0;
  }

  // ---- the constraints apart from the resolved window ---------------------------------------------

  /** C2 for an arrival and a stay: in the day if the attraction is always open, otherwise under the
      one rule that covers the date. */
  ghost predicate StayAdmitted(attraction: Attraction, date: Date, arrival: int, stay: int) {
    if attraction.isAlwaysOpen then 0 <= arrival && arrival + stay <= 1440
    else exists i: nat :: OnlyMatch(attraction.timeRules, date, i) && AdmitsStay(attraction.timeRules[i], arrival, stay)
  }

  lemma {:induction false} ResolvesOnlyMatch(attraction: Attraction, date: Date, ratio: real, i: nat)
    requires 0.0 < ratio <= 1.0 && !attraction.isAlwaysOpen && OnlyMatch(attraction.timeRules, date, i)
    ensures
      var r, rule := ResolveEffectiveWindow(attraction, date, ratio), attraction.timeRules[i];
      && r.Window? && r.window.openMin == rule.openMin && r.window.closeMin == rule.closeMin
      && r.window.lastEntryMin == rule.lastEntryMin
  {
    hide Matches, MatchingRules;
    OnlyMatchIsFound(attraction.timeRules, date, i);
  }

  /** What every routing stage checks of a visit is that the day's own bounds and the attraction's
      hours admit its whole stay. */
  lemma {:induction false} FitsDayIsExact(attraction: Attraction, date: Date, bounds: DayTimeBounds, arrival: int, stay: nat)
    ensures FitsDay(attraction, date, bounds, arrival, stay) <==>
      && bounds.startMin <= arrival && arrival + stay <= bounds.endMin
      && StayAdmitted(attraction, date, arrival, stay)
  {
    hide Matches, MatchingRules, ResolveEffectiveWindow;
    EffectiveWindowIsExact(attraction, date, DEFAULT_DURATION_RATIO, arrival);
    if attraction.isAlwaysOpen {
      AlwaysOpenWindow(attraction, date);
    } else {
      forall i: nat | OnlyMatch(attraction.timeRules, date, i)
        ensures
          var r, rule := DefaultWindow(attraction, date), attraction.timeRules[i];
          && r.Window? && r.window.openMin == rule.openMin && r.window.closeMin == rule.closeMin
          && r.window.lastEntryMin == rule.lastEntryMin
      {
        ResolvesOnlyMatch(attraction, date, DEFAULT_DURATION_RATIO, i);
      }
    }
  }

  lemma {:induction false} AlwaysOpenWindow(attraction: Attraction, date: Date)
    requires attraction.isAlwaysOpen
    ensures
      var r := DefaultWindow(attraction, date);
      r.Window? && r.window.openMin == 0 && r.window.closeMin == 1440 && r.window.lastEntryMin.None?
  {
  }

  /** C4: a day admits exactly the stretches of time that begin after the traveller has reached the
      city on the first day and at 9:00 on the others, and that leave time for the way to the station
      and the check-in on the last day and are over at 21:00 on the others; a day that admits none is
      no day of the plan. */
  lemma {:induction false} DayBoundsAreExact(dayIndex: int, totalDays: int, anchors: TripTimeAnchors, from: int, to: int)
    requires 1 <= dayIndex <= totalDays && from <= to
    ensures
      var r := ResolveDayTimeBounds(dayIndex, totalDays, anchors);
      (r.Bounds? && r.bounds.startMin <= from && to <= r.bounds.endMin) <==>
        && (if dayIndex == 1 then anchors.arrivalMin + anchors.stationToCityMin <= from else 9 * 60 <= from)
        && (if dayIndex == totalDays then
              to + anchors.lastVisitToStationMin + anchors.stationEarlyMin <= anchors.departureMin
            else to <= 21 * 60)
  {
  }

  /** C1 and C5 in terms of the calendar: a one-off closure closes, a one-off opening opens, and
      otherwise the weekday decides, counted from the Monday that is ordinal 1; and only a forecast of
      extreme weather, for an attraction outdoors, keeps it from being visited. */
  lemma {:induction false} MayVisitIff(attraction: Attraction, date: Date, weather: Weather)
    ensures MayVisitOn(attraction, date, weather) <==>
      && date !in attraction.closedOnDates
      && (date in attraction.openOnDates || forall c :: c in attraction.closeDays ==> (date - c) % 7 != 0)
      && date in weather
      && (attraction.isIndoor || weather[date] != DailyWeather(Forecast, Extreme))
  {
    var weekday := IsoWeekday(date);
    forall c | c in attraction.closeDays
      ensures (date - c) % 7 == 0 <==> c == weekday
    {
      SameWeekday(date, c);
    }
  }

  lemma {:induction false} SameWeekday(date: Date, c: int)
    requires 1 <= c <= 7
    ensures (date - c) % 7 == 0 <==> c == IsoWeekday(date)
  {
    var week := (date - 1) / 7;
    assert date - c == 7 * week + (date - 1) % 7 + 1 - c;
  }

  /** Stays and buffered travel are rounded up to whole minutes. */
  lemma {:induction false} MinutesAreRoundedUp(attraction: Attraction, travel: nat, ratio: real, minutes: int)
    ensures minutes >= MinimumDuration(attraction, ratio) <==>
      minutes as real >= attraction.suggestedDuration as real * ratio
    ensures minutes >= Buffered(travel, ratio) <==> minutes as real >= travel as real * ratio
  {
    CeilIsLeast(attraction.suggestedDuration as real * ratio, minutes);
    CeilIsLeast(travel as real * ratio, minutes);
  }

  lemma {:induction false} CeilIsLeast(x: real, n: int)
    ensures n >= Ceil(x) <==> n as real >= x
  {
    if n < Ceil(x) { assert n as real <= (Ceil(x) - 1) as real; }
  }
}
