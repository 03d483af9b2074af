/** The independent re-check of C1, C2, C4, C5 and C6 on a finished day. */
module Validation {
  import opened Prelude
  import opened Models
  import opened TimeWindows
  import opened Timeline

  // ---- the constraints, as predicates -------------------------------------------

  predicate WindowMet(v: RouteVisit, date: Date) {
    var resolution := DefaultWindow(v.attraction, date);
    && resolution.Window?
    && resolution.window.openMin <= v.arrivalMin <= LatestFor(resolution.window, v.plannedDurationMin)
  }

  predicate DurationMet(v: RouteVisit) {
    && v.plannedDurationMin >= MinimumDuration(v.attraction, DEFAULT_DURATION_RATIO)
    && v.leaveMin == v.arrivalMin + v.plannedDurationMin
  }

  predicate InsideDay(v: RouteVisit, bounds: DayTimeBounds) {
    bounds.startMin <= v.arrivalMin && v.leaveMin <= bounds.endMin
  }

  /** C6 from the provider's data alone, whatever the visits store about their travel. */
  predicate Connected(u: RouteVisit, v: RouteVisit, world: World) {
    var travel := world.provider(u.attraction.id, v.attraction.id);
    travel.Some? && u.leaveMin + Buffered(travel.value, world.bufferRatio) <= v.arrivalMin
  }

  predicate HardFeasible(day: RoutedDay, world: World) {
    && (forall i :: 0 <= i < |day.visits| ==>
          var v := day.visits[i];
          && MayVisitOn(v.attraction, day.visitDate, world.weather)
          && WindowMet(v, day.visitDate)
          && DurationMet(v)
          && InsideDay(v, day.bounds))
    && (forall i :: 1 <= i < |day.visits| ==> Connected(day.visits[i - 1], day.visits[i], world))
  }

  // ---- the violations, in reporting order ---------------------------------------

  function Report(broken: bool, code: RejectionCode, id: int): seq<ConstraintViolation> {
    if broken then [ConstraintViolation(code, Some(id), None)] else []
  }

  function WeatherViolations(v: RouteVisit, date: Date, weather: Weather): seq<ConstraintViolation> {
    if date !in weather then Report(true, WeatherDataMissing, v.attraction.id)
    else Report(!WeatherPermits(v.attraction, weather[date]), ExtremeWeatherOutdoor, v.attraction.id)
  }

  function WindowViolations(v: RouteVisit, date: Date): seq<ConstraintViolation> {
    var resolution := DefaultWindow(v.attraction, date);
    if resolution.NoWindow? then Report(true, resolution.code, v.attraction.id)
    else Report(!WindowMet(v, date), ArrivalAfterLatestArrival, v.attraction.id)
  }

  function VisitViolations(v: RouteVisit, date: Date, weather: Weather): seq<ConstraintViolation> {
    Report(!IsOpenOn(v.attraction, date), ClosedOnDate, v.attraction.id)
    + WeatherViolations(v, date, weather)
    + WindowViolations(v, date)
    + Report(!DurationMet(v), VisitDurationInsufficient, v.attraction.id)
  }

  function VisitReports(visits: seq<RouteVisit>, date: Date, weather: Weather): (r: seq<seq<ConstraintViolation>>)
    ensures |r| == |visits|
    ensures forall i :: 0 <= i < |r| ==> r[i] == VisitViolations(visits[i], date, weather)
  {
    seq(|visits|, i requires 0 <= i < |visits| => VisitViolations(visits[i], date, weather))
  }

  predicate AnchorsBroken(day: RoutedDay) {
    exists i :: 0 <= i < |day.visits| && !InsideDay(day.visits[i], day.bounds)
  }

  function ConnectionViolation(u: RouteVisit, v: RouteVisit, world: World): seq<ConstraintViolation> {
    var code :=
      if world.provider(u.attraction.id, v.attraction.id).None? then OdDataMissing else TransitInfeasible;
    if Connected(u, v, world) then []
    else [ConstraintViolation(code, Some(v.attraction.id), Some(u.attraction.id))]
  }

  /** One report per pair of consecutive visits. */
  function ConnectionReports(visits: seq<RouteVisit>, world: World): (r: seq<seq<ConstraintViolation>>)
    ensures |r| == (if visits == [] then 0 else |visits| - 1)
    ensures forall i :: 0 <= i < |r| ==> r[i] == ConnectionViolation(visits[i], visits[i + 1], world)
  {
    seq(if visits == [] then 0 else |visits| - 1,
        i requires 0 <= i < |visits| - 1 => ConnectionViolation(visits[i], visits[i + 1], world))
  }

  function Violations(day: RoutedDay, world: World): seq<ConstraintViolation> {
    Flatten(VisitReports(day.visits, day.visitDate, world.weather))
    + (if AnchorsBroken(day) then [ConstraintViolation(AnchorViolation, None, None)] else [])
    + Flatten(ConnectionReports(day.visits, world))
  }

  /** Evaluating a connection raises on negative times and on a buffer below one. */
  function ConnectionError(u: RouteVisit, v: RouteVisit, ratio: real): Option<Error> {
    if u.leaveMin < 0 || v.arrivalMin < 0 then Some(NegativeConnectionTime)
    else if ratio < 1.0 then Some(BufferRatioBelowOne)
    else None
  }

  function FirstConnectionError(visits: seq<RouteVisit>, n: nat, ratio: real): Option<Error>
    requires n <= |visits|
  {
    if n < 2 then None
    else
      var earlier := FirstConnectionError(visits, n - 1, ratio);
      if earlier.Some? then earlier else ConnectionError(visits[n - 2], visits[n - 1], ratio)
  }

  function ValidationSpec(day: RoutedDay, world: World): Outcome<RouteValidation> {
    var error := FirstConnectionError(day.visits, |day.visits|, world.bufferRatio);
    if error.Some? then Raised(error.value)
    else Ok(RouteValidation(Violations(day, world) == [], Violations(day, world)))
  }

  method ValidateRoutedDay(day: RoutedDay, world: World) returns (r: Outcome<RouteValidation>)
    ensures r == ValidationSpec(day, world)
  {
    hide VisitViolations, ConnectionViolation, ConnectionError, InsideDay, Flatten;
    var violations, anchors := CheckVisits(day, world);
    violations := violations + (if anchors then [ConstraintViolation(AnchorViolation, None, None)] else []);
    var connections, error := CheckConnections(day.visits, world);
    if error.Some? { return Raised(error.value); }
    violations := violations + connections;
    assert violations == Violations(day, world);
    r := Ok(RouteValidation(violations == [], violations));
  }

  method CheckVisits(day: RoutedDay, world: World) returns (violations: seq<ConstraintViolation>, anchors: bool)
    ensures violations == Flatten(VisitReports(day.visits, day.visitDate, world.weather))
    ensures anchors == AnchorsBroken(day)
  {
    hide VisitViolations, InsideDay;
    violations, anchors := [], false;
    ghost var reports := VisitReports(day.visits, day.visitDate, world.weather);
    for i := 0 to |day.visits|
      invariant violations == Flatten(reports[..i])
      invariant anchors == exists k :: 0 <= k < i && !InsideDay(day.visits[k], day.bounds)
    {
      assert reports[..i + 1] == reports[..i] + [reports[i]];
      FlattenAppend(reports[..i], reports[i]);
      violations := violations + VisitViolations(day.visits[i], day.visitDate, world.weather);
      anchors := anchors || !InsideDay(day.visits[i], day.bounds);
    }
    assert reports[..|day.visits|] == reports;
  }

  method CheckConnections(visits: seq<RouteVisit>, world: World)
    returns (violations: seq<ConstraintViolation>, error: Option<Error>)
    ensures error == FirstConnectionError(visits, |visits|, world.bufferRatio)
    ensures error.None? ==> violations == Flatten(ConnectionReports(visits, world))
  {
    hide ConnectionViolation, ConnectionError;
    violations, error := [], None;
    if visits == [] { return; }
    ghost var reports := ConnectionReports(visits, world);
    for i := 1 to |visits|
      invariant violations == Flatten(reports[..i - 1])
      invariant FirstConnectionError(visits, i, world.bufferRatio).None?
      invariant error.None?
    {
      error := ConnectionError(visits[i - 1], visits[i], world.bufferRatio);
      if error.Some? {
        ErrorIsFirst(visits, i + 1, world.bufferRatio);
        return;
      }
      assert reports[..i] == reports[..i - 1] + [reports[i - 1]];
      FlattenAppend(reports[..i - 1], reports[i - 1]);
      violations := violations + ConnectionViolation(visits[i - 1], visits[i], world);
    }
    assert reports[..|visits| - 1] == reports;
  }

  lemma {:induction false} ErrorIsFirst(visits: seq<RouteVisit>, n: nat, ratio: real)
    requires n <= |visits| && FirstConnectionError(visits, n, ratio).Some?
    ensures FirstConnectionError(visits, |visits|, ratio) == FirstConnectionError(visits, n, ratio)
    decreases |visits| - n
  {
    if n < |visits| { ErrorIsFirst(visits, n + 1, ratio); }
  }

  // ---- what the report means ----------------------------------------------------

  /** A violation is reported exactly when the constraint it names is broken. */
  ghost predicate Broken(day: RoutedDay, world: World, c: ConstraintViolation) {
    || (exists i :: 0 <= i < |day.visits| && BrokenBy(day.visits[i], day.visitDate, world.weather, c))
    || (c == ConstraintViolation(AnchorViolation, None, None) && AnchorsBroken(day))
    || (exists i :: 1 <= i < |day.visits| && BrokenBetween(day.visits[i - 1], day.visits[i], world, c))
  }

  ghost predicate BrokenBy(v: RouteVisit, date: Date, weather: Weather, c: ConstraintViolation) {
    && c.attractionId == Some(v.attraction.id) && c.previousId == None
    && match c.code
       case ClosedOnDate => !IsOpenOn(v.attraction, date)
       case WeatherDataMissing => date !in weather
       case ExtremeWeatherOutdoor => date in weather && !WeatherPermits(v.attraction, weather[date])
       case VisitDurationInsufficient => !DurationMet(v)
       case ArrivalAfterLatestArrival => DefaultWindow(v.attraction, date).Window? && !WindowMet(v, date)
       case NoMatchingTimeRule => DefaultWindow(v.attraction, date) == NoWindow(NoMatchingTimeRule)
       case TimeRuleConflict => DefaultWindow(v.attraction, date) == NoWindow(TimeRuleConflict)
       case _ => false
  }

  ghost predicate BrokenBetween(u: RouteVisit, v: RouteVisit, world: World, c: ConstraintViolation) {
    && c.attractionId == Some(v.attraction.id) && c.previousId == Some(u.attraction.id)
    && match c.code
       case OdDataMissing => world.provider(u.attraction.id, v.attraction.id).None?
       case TransitInfeasible =>
         var travel := world.provider(u.attraction.id, v.attraction.id);
         travel.Some? && v.arrivalMin < u.leaveMin + Buffered(travel.value, world.bufferRatio)
       case _ => false
  }

  lemma {:induction false} VisitViolationsExact(v: RouteVisit, date: Date, weather: Weather, c: ConstraintViolation)
    ensures c in VisitViolations(v, date, weather) <==> BrokenBy(v, date, weather, c)
  {
    hide ResolveEffectiveWindow, DurationMet, IsOpenOn, WeatherPermits;
  }

  lemma {:induction false} ConnectionViolationExact(u: RouteVisit, v: RouteVisit, world: World, c: ConstraintViolation)
    ensures c in ConnectionViolation(u, v, world) <==> BrokenBetween(u, v, world, c)
  {
  }

  lemma {:induction false} VisitReportsExact(visits: seq<RouteVisit>, date: Date, weather: Weather, c: ConstraintViolation)
    ensures c in Flatten(VisitReports(visits, date, weather))
      <==> exists i :: 0 <= i < |visits| && BrokenBy(visits[i], date, weather, c)
  {
    hide BrokenBy, VisitViolations, Flatten;
    FlattenMember(VisitReports(visits, date, weather), c);
    forall i | 0 <= i < |visits|
      ensures c in VisitReports(visits, date, weather)[i] <==> BrokenBy(visits[i], date, weather, c)
    {
      VisitViolationsExact(visits[i], date, weather, c);
    }
  }

  lemma {:induction false} ConnectionReportsExact(visits: seq<RouteVisit>, world: World, c: ConstraintViolation)
    ensures c in Flatten(ConnectionReports(visits, world))
      <==> exists i :: 1 <= i < |visits| && BrokenBetween(visits[i - 1], visits[i], world, c)
  {
    hide BrokenBetween, ConnectionViolation, Flatten;
    FlattenMember(ConnectionReports(visits, world), c);
    forall i | 1 <= i < |visits|
      ensures c in ConnectionReports(visits, world)[i - 1] <==> BrokenBetween(visits[i - 1], visits[i], world, c)
    {
      ConnectionViolationExact(visits[i - 1], visits[i], world, c);
    }
  }

  lemma {:induction false} ViolationsExact(day: RoutedDay, world: World, c: ConstraintViolation)
    ensures c in Violations(day, world) <==> Broken(day, world, c)
  {
    hide BrokenBy, BrokenBetween, VisitViolations, ConnectionViolation, Flatten;
    VisitReportsExact(day.visits, day.visitDate, world.weather, c);
    ConnectionReportsExact(day.visits, world, c);
  }

  /** The report is empty exactly on a hard-feasible day. */
  lemma {:induction false} ValidIffHardFeasible(day: RoutedDay, world: World)
    ensures Violations(day, world) == [] <==> HardFeasible(day, world)
  {
    hide Violations;
    if HardFeasible(day, world) && Violations(day, world) != [] {
      var c := Violations(day, world)[0];
      ViolationsExact(day, world, c);
      assert false;
    }
    if !HardFeasible(day, world) { InfeasibleIsReported(day, world); }
  }

  lemma {:induction false} InfeasibleIsReported(day: RoutedDay, world: World)
    requires !HardFeasible(day, world)
    ensures Violations(day, world) != []
  {
    if i :| 1 <= i < |day.visits| && !Connected(day.visits[i - 1], day.visits[i], world) {
      var u, v := day.visits[i - 1], day.visits[i];
      var c := ConnectionViolation(u, v, world)[0];
      assert BrokenBetween(u, v, world, c);
      ViolationsExact(day, world, c);
    } else if AnchorsBroken(day) {
      ViolationsExact(day, world, ConstraintViolation(AnchorViolation, None, None));
    } else {
      var i :| 0 <= i < |day.visits|
        && !(MayVisitOn(day.visits[i].attraction, day.visitDate, world.weather)
             && WindowMet(day.visits[i], day.visitDate) && DurationMet(day.visits[i]));
      var c := VisitViolations(day.visits[i], day.visitDate, world.weather)[0];
      VisitViolationsExact(day.visits[i], day.visitDate, world.weather, c);
      ViolationsExact(day, world, c);
    }
  }

  lemma {:induction false} NonNegativeTimesDoNotRaise(visits: seq<RouteVisit>, n: nat, ratio: real)
    requires n <= |visits| && ratio >= 1.0
    requires forall i :: 0 <= i < |visits| ==> visits[i].arrivalMin >= 0 && visits[i].leaveMin >= 0
    ensures FirstConnectionError(visits, n, ratio).None?
  {
    if n >= 2 { NonNegativeTimesDoNotRaise(visits, n - 1, ratio); }
  }

  /** The connection to visit `i` cannot be measured. */
  predicate Unmeasurable(visits: seq<RouteVisit>, i: nat, ratio: real)
    requires 1 <= i < |visits|
  {
    visits[i - 1].leaveMin < 0 || visits[i].arrivalMin < 0 || ratio < 1.0
  }

  /** The re-check raises exactly if some connection has a negative time or the buffer is below one,
      which is noticed at the first connection. */
  lemma {:induction false} RaisesIff(visits: seq<RouteVisit>, n: nat, ratio: real)
    requires n <= |visits|
    ensures
      var error := FirstConnectionError(visits, n, ratio);
      && (error.Some? <==>
            exists i :: 1 <= i < n && Unmeasurable(visits, i, ratio))
      && (error == Some(BufferRatioBelowOne) <==>
            n >= 2 && ratio < 1.0 && visits[0].leaveMin >= 0 && visits[1].arrivalMin >= 0)
      && (error.Some? ==> error.value == BufferRatioBelowOne || error.value == NegativeConnectionTime)
  {
    if n >= 2 {
      RaisesIff(visits, n - 1, ratio);
      assert Unmeasurable(visits, n - 1, ratio) <==> ConnectionError(visits[n - 2], visits[n - 1], ratio).Some?;
      if i :| 1 <= i < n && Unmeasurable(visits, i, ratio) {
        assert i < n - 1 || i == n - 1;
      }
    }
  }

  /** The stay of a visit: admitted by the hours of the date, at least three fifths of the suggestion,
      and over when the visit is left. */
  ghost predicate StayMet(v: RouteVisit, date: Date) {
    && StayAdmitted(v.attraction, date, v.arrivalMin, v.plannedDurationMin)
    && v.plannedDurationMin as real >= v.attraction.suggestedDuration as real * 0.6
    && v.leaveMin == v.arrivalMin + v.plannedDurationMin
  }

  lemma {:induction false} StayMetIff(v: RouteVisit, date: Date)
    ensures WindowMet(v, date) && DurationMet(v) <==> StayMet(v, date)
  {
    hide Matches, MatchingRules, ResolveEffectiveWindow, MinimumDuration;
    MinutesAreRoundedUp(v.attraction, 0, DEFAULT_DURATION_RATIO, v.plannedDurationMin);
    MinimumDurationPositive(v.attraction, DEFAULT_DURATION_RATIO);
    EffectiveWindowIsExact(v.attraction, date, DEFAULT_DURATION_RATIO, v.arrivalMin);
    if v.attraction.isAlwaysOpen {
      AlwaysOpenWindow(v.attraction, date);
    } else {
      forall i: nat | OnlyMatch(v.attraction.timeRules, date, i)
        ensures
          var r, rule := DefaultWindow(v.attraction, date), v.attraction.timeRules[i];
          && r.Window? && r.window.openMin == rule.openMin && r.window.closeMin == rule.closeMin
          && r.window.lastEntryMin == rule.lastEntryMin
      {
        ResolvesOnlyMatch(v.attraction, date, DEFAULT_DURATION_RATIO, i);
      }
    }
  }

  /** Hard feasibility spelled out: open, permitted, admitted and long enough stays inside the day, and
      between consecutive visits at least the travel time stretched by the buffer. */
  lemma {:induction false} HardFeasibleIff(day: RoutedDay, world: World)
    ensures HardFeasible(day, world) <==>
      && (forall i :: 0 <= i < |day.visits| ==>
            && MayVisitOn(day.visits[i].attraction, day.visitDate, world.weather)
            && StayMet(day.visits[i], day.visitDate)
            && day.bounds.startMin <= day.visits[i].arrivalMin && day.visits[i].leaveMin <= day.bounds.endMin)
      && (forall i :: 1 <= i < |day.visits| ==>
            var travel := world.provider(day.visits[i - 1].attraction.id, day.visits[i].attraction.id);
            travel.Some?
            && (day.visits[i].arrivalMin - day.visits[i - 1].leaveMin) as real >= travel.value as real * world.bufferRatio)
  {
    hide MayVisitOn, WindowMet, DurationMet, StayMet, Buffered;
    forall i | 0 <= i < |day.visits|
      ensures WindowMet(day.visits[i], day.visitDate) && DurationMet(day.visits[i]) <==> StayMet(day.visits[i], day.visitDate)
    {
      StayMetIff(day.visits[i], day.visitDate);
    }
    forall i | 1 <= i < |day.visits|
      ensures Connected(day.visits[i - 1], day.visits[i], world) <==>
        var travel := world.provider(day.visits[i - 1].attraction.id, day.visits[i].attraction.id);
        travel.Some?
        && (day.visits[i].arrivalMin - day.visits[i - 1].leaveMin) as real >= travel.value as real * world.bufferRatio
    {
      ConnectedIff(day.visits[i - 1], day.visits[i], world);
    }
  }

  lemma {:induction false} ConnectedIff(u: RouteVisit, v: RouteVisit, world: World)
    ensures Connected(u, v, world) <==>
      var travel := world.provider(u.attraction.id, v.attraction.id);
      travel.Some? && (v.arrivalMin - u.leaveMin) as real >= travel.value as real * world.bufferRatio
  {
    hide Buffered;
    var travel := world.provider(u.attraction.id, v.attraction.id);
    if travel.Some? {
      MinutesAreRoundedUp(u.attraction, travel.value, world.bufferRatio, v.arrivalMin - u.leaveMin);
    }
  }

  /** Every route the stages certify passes the re-check, once its attractions may be
      visited on the day at all. */
  lemma {:induction false} SoundRouteIsValid(day: RoutedDay, world: World)
    requires SoundRoute(day, world) && (world.bufferRatio >= 1.0 || day.visits == [])
    requires forall i :: 0 <= i < |day.visits| ==>
      MayVisitOn(day.visits[i].attraction, day.visitDate, world.weather)
    ensures ValidationSpec(day, world) == Ok(RouteValidation(true, []))
  {
    forall i | 0 <= i < |day.visits|
      ensures
        && day.visits[i].arrivalMin >= 0 && day.visits[i].leaveMin >= 0
        && WindowMet(day.visits[i], day.visitDate)
        && DurationMet(day.visits[i])
        && InsideDay(day.visits[i], day.bounds)
    {
      SoundVisitIsValid(day.visits[i], day.visitDate, day.bounds);
    }
    if world.bufferRatio >= 1.0 { NonNegativeTimesDoNotRaise(day.visits, |day.visits|, world.bufferRatio); }
    forall i | 1 <= i < |day.visits|
      ensures Connected(day.visits[i - 1], day.visits[i], world)
    {
      assert SoundEdge(day.visits[i - 1], day.visits[i], world);
    }
    assert HardFeasible(day, world);
    ValidIffHardFeasible(day, world);
  }

  lemma {:induction false} SoundVisitIsValid(v: RouteVisit, date: Date, bounds: DayTimeBounds)
    requires SoundVisit(v, date, bounds)
    ensures v.arrivalMin >= 0 && v.leaveMin >= 0
    ensures WindowMet(v, date) && DurationMet(v) && InsideDay(v, bounds)
  {
    MinimumDurationPositive(v.attraction, DEFAULT_DURATION_RATIO);
  }

  // ---- a valid day is a timeline --------------------------------------------------

  function PlannedTotal(visits: seq<RouteVisit>): int {
    if visits == [] then 0
    else PlannedTotal(visits[..|visits| - 1]) + visits[|visits| - 1].plannedDurationMin
  }

  /** Buffered travel over consecutive visits, from the provider. */
  function TransitTotal(visits: seq<RouteVisit>, world: World): int {
    if |visits| < 2 then 0
    else
      var travel := world.provider(visits[|visits| - 2].attraction.id, visits[|visits| - 1].attraction.id);
      TransitTotal(visits[..|visits| - 1], world)
      + (if travel.Some? then Buffered(travel.value, world.bufferRatio) else 0)
  }

  /** Earlier visits of a valid day end before later ones begin. */
  lemma {:induction false} ValidDayIsOrdered(day: RoutedDay, world: World, i: nat, j: nat)
    requires HardFeasible(day, world) && world.bufferRatio >= 1.0
    requires i < j < |day.visits|
    ensures day.visits[i].arrivalMin < day.visits[i].leaveMin <= day.visits[j].arrivalMin
    decreases j - i
  {
    MinimumDurationPositive(day.visits[i].attraction, DEFAULT_DURATION_RATIO);
    assert Connected(day.visits[i], day.visits[i + 1], world);
    var travel := world.provider(day.visits[i].attraction.id, day.visits[i + 1].attraction.id);
    BufferedNonNegative(travel.value, world.bufferRatio);
    if i + 1 < j { ValidDayIsOrdered(day, world, i + 1, j); }
  }

  lemma {:induction false} PrefixFits(day: RoutedDay, world: World, n: nat)
    requires HardFeasible(day, world)
    requires 1 <= n <= |day.visits|
    ensures
      day.bounds.startMin + PlannedTotal(day.visits[..n]) + TransitTotal(day.visits[..n], world)
      <= day.visits[n - 1].leaveMin
  {
    var prefix := day.visits[..n];
    assert prefix[..n - 1] == day.visits[..n - 1];
    if n > 1 {
      PrefixFits(day, world, n - 1);
      assert Connected(day.visits[n - 2], day.visits[n - 1], world);
    }
  }

  /** All stays and all buffered travel of a valid day fit one after another in the day. */
  lemma {:induction false} ValidDayFitsSpan(day: RoutedDay, world: World)
    requires HardFeasible(day, world)
    ensures PlannedTotal(day.visits) + TransitTotal(day.visits, world) <= day.bounds.endMin - day.bounds.startMin
  {
    if day.visits != [] {
      PrefixFits(day, world, |day.visits|);
      assert day.visits[..|day.visits|] == day.visits;
    }
  }
}
