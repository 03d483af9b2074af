/** The whole itinerary: route every day, move what was dropped to other days, route again. */
module Itinerary {
  import opened Prelude
  import opened Models
  import opened TimeWindows
  import opened Timeline
  import opened Validation
  import opened Routing
  import opened Segments
  import P = SegmentProofs

  datatype RoutingAttempt = RoutingAttempt(visitDate: Date, codes: seq<RejectionCode>)

  datatype ItineraryUnplaced = ItineraryUnplaced(
    attraction: Attraction, preferredDate: Date, code: RejectionCode, attempts: seq<RoutingAttempt>)

  datatype Reassignment = Reassignment(attraction: Attraction, fromDate: Date, toDate: Date)

  datatype ItineraryPlan = ItineraryPlan(
    days: seq<RoutedDay>,
    unplaced: seq<ItineraryUnplaced>,
    dataRejected: seq<RejectedAttraction>,
    reassignments: seq<Reassignment>,
    validations: seq<RouteValidation>,
    valid: bool,
    segmentedDays: seq<SegmentedDay>)

  /** The allocations per date that the three phases rewrite. */
  type Board = map<Date, seq<DayAllocation>>

  datatype Dropped = Dropped(source: Date, allocation: DayAllocation, code: RejectionCode)

  function IdOf(a: Attraction): int { a.id }

  function DroppedAttractions(dropped: seq<Dropped>): seq<Attraction> {
    Map((x: Dropped) => x.allocation.attraction, dropped)
  }

  function LeftOut(unplaced: seq<ItineraryUnplaced>): seq<Attraction> {
    Map((u: ItineraryUnplaced) => u.attraction, unplaced)
  }

  /** All attractions on the board, date by date. */
  function Held(dates: seq<Date>, board: Board): seq<Attraction> {
    if dates == [] then []
    else
      Held(dates[..|dates| - 1], board)
      + (if dates[|dates| - 1] in board then AllocationAttractions(board[dates[|dates| - 1]]) else [])
  }

  function ScheduledOn(days: seq<RoutedDay>): seq<Attraction> {
    if days == [] then []
    else ScheduledOn(days[..|days| - 1]) + VisitAttractions(days[|days| - 1].visits)
  }

  // ---- phase 1: drop what a day's own route does not visit --------------------------------------

  predicate LastCode(unplaced: seq<RouteUnplaced>, id: int, code: RejectionCode) {
    exists i :: 0 <= i < |unplaced| && unplaced[i].attraction.id == id && unplaced[i].code == code
      && forall j :: i < j < |unplaced| ==> unplaced[j].attraction.id != id
  }

  /** The code an attraction was dropped with; a later entry overrides an earlier one. */
  function CodeFor(unplaced: seq<RouteUnplaced>, id: int): (code: Option<RejectionCode>)
    ensures code.Some? <==> exists i :: 0 <= i < |unplaced| && unplaced[i].attraction.id == id
    ensures code.Some? ==> LastCode(unplaced, id, code.value)
  {
    if unplaced == [] then None
    else if unplaced[|unplaced| - 1].attraction.id == id then Some(unplaced[|unplaced| - 1].code)
    else CodeFor(unplaced[..|unplaced| - 1], id)
  }

  function Retained(allocations: seq<DayAllocation>, unplaced: seq<RouteUnplaced>): seq<DayAllocation> {
    if allocations == [] then []
    else
      var front, last := Retained(allocations[..|allocations| - 1], unplaced), allocations[|allocations| - 1];
      if CodeFor(unplaced, last.attraction.id).None? then front + [last] else front
  }

  function DropsOf(source: Date, allocations: seq<DayAllocation>, unplaced: seq<RouteUnplaced>): seq<Dropped> {
    if allocations == [] then []
    else
      var front, last := DropsOf(source, allocations[..|allocations| - 1], unplaced), allocations[|allocations| - 1];
      var code := CodeFor(unplaced, last.attraction.id);
      if code.None? then front else front + [Dropped(source, last, code.value)]
  }

  function ByDateAndId(): (Dropped, Dropped) -> bool {
    (x: Dropped, y: Dropped) =>
      x.source < y.source || (x.source == y.source && x.allocation.attraction.id <= y.allocation.attraction.id)
  }

  method SplitDay(source: Date, allocations: seq<DayAllocation>, unplaced: seq<RouteUnplaced>)
    returns (retained: seq<DayAllocation>, dropped: seq<Dropped>)
    ensures retained == Retained(allocations, unplaced)
    ensures dropped == DropsOf(source, allocations, unplaced)
  {
    retained, dropped := [], [];
    for i := 0 to |allocations|
      invariant retained == Retained(allocations[..i], unplaced)
      invariant dropped == DropsOf(source, allocations[..i], unplaced)
    {
      assert allocations[..i + 1][..i] == allocations[..i];
      var code := CodeFor(unplaced, allocations[i].attraction.id);
      if code.None? {
        retained := retained + [allocations[i]];
      } else {
        dropped := dropped + [Dropped(source, allocations[i], code.value)];
      }
    }
    assert allocations[..|allocations|] == allocations;
  }

  // ---- phase 2: try to move one dropped allocation ------------------------------------------------

  /** Why a date cannot take a moved allocation; empty when routing it is worth a try. */
  function PrecheckReasons(allocation: DayAllocation, target: Date, bounds: DayTimeBounds, weather: Weather): seq<RejectionCode> {
    var attraction := allocation.attraction;
    (if IsOpenOn(attraction, target) then [] else [ClosedOnDate])
    + (if target !in weather then [WeatherDataMissing]
       else if WeatherPermits(attraction, weather[target]) then [] else [ExtremeWeatherOutdoor])
    + (var resolution := DefaultWindow(attraction, target);
       if resolution.NoWindow? then [resolution.code]
       else
         var earliest := Max(bounds.startMin, resolution.window.openMin);
         var latest := Min(bounds.endMin - allocation.requiredDurationMin,
                           LatestFor(resolution.window, allocation.requiredDurationMin));
         if earliest > latest then [ArrivalAfterLatestArrival] else [])
  }

  function Nearest(preferred: Date): (Date, Date) -> bool {
    (d: Date, e: Date) => Abs(d - preferred) < Abs(e - preferred) || (Abs(d - preferred) == Abs(e - preferred) && d <= e)
  }

  function OtherDates(ordered: seq<Date>, source: Date): seq<Date> {
    if ordered == [] then []
    else if ordered[0] == source then OtherDates(ordered[1..], source)
    else [ordered[0]] + OtherDates(ordered[1..], source)
  }

  lemma {:induction false} OtherDatesExact(ordered: seq<Date>, source: Date)
    ensures forall d :: d in OtherDates(ordered, source) <==> d in ordered && d != source
  {
    if ordered != [] {
      assert ordered == [ordered[0]] + ordered[1..];
      OtherDatesExact(ordered[1..], source);
    }
  }

  /** The dates a dropped allocation is tried on: nearest to its preferred date first. */
  function RescueDates(ordered: seq<Date>, x: Dropped): seq<Date> {
    Sort(OtherDates(ordered, x.source), Nearest(x.allocation.preferredDate))
  }

  lemma {:induction false} RescueDatesExact(ordered: seq<Date>, x: Dropped)
    ensures forall d :: d in RescueDates(ordered, x) <==> d in ordered && d != x.source
  {
    OtherDatesExact(ordered, x.source);
    MultisetMembers(OtherDates(ordered, x.source), RescueDates(ordered, x));
  }

  function Moved(allocation: DayAllocation, target: Date): DayAllocation {
    DayAllocation(allocation.attraction, allocation.preferredDate, target, allocation.requiredDurationMin, allocation.visitPeriod)
  }

  function VisitIds(visits: seq<RouteVisit>): set<int> {
    set i | 0 <= i < |visits| :: visits[i].attraction.id
  }

  function AllocationIdSet(allocations: seq<DayAllocation>): set<int> {
    set i | 0 <= i < |allocations| :: allocations[i].attraction.id
  }

  function CodesOf(violations: seq<ConstraintViolation>): (codes: seq<RejectionCode>)
    ensures codes == [] <==> violations == []
    ensures NoDuplicates(codes)
    ensures forall c :: c in codes <==> exists i :: 0 <= i < |violations| && violations[i].code == c
  {
    if violations == [] then []
    else
      var front, code := CodesOf(violations[..|violations| - 1]), violations[|violations| - 1].code;
      if code in front then front else front + [code]
  }

  /** A search with this number visits everything on the day's plan. */
  ghost predicate AllVisited(plan: DayPlan, world: World, oracle: Oracle, k: nat)
    requires OracleObeys(world, oracle)
  {
    var routed := SegmentSpec(plan, world, oracle, k, DEFAULT_SETTINGS);
    routed.Ok? && VisitIds(routed.value.routedDay.visits) == AllocationIdSet(plan.allocations)
  }

  function TargetPlan(base: map<Date, DayPlan>, board: Board, x: Dropped, target: Date): DayPlan
    requires target in base && target in board
  {
    RebuildDayPlan(base[target], board[target] + [Moved(x.allocation, target)])
  }

  /** What a successful rescue found: a day that passes the pre-check and whose route, with
      the newcomer, visits everything on it and passes the re-check. */
  ghost predicate RescueFound(
    base: map<Date, DayPlan>, board: Board, x: Dropped, target: Date, world: World, oracle: Oracle, at: nat)
    requires OracleObeys(world, oracle)
  {
    && target in base && target in board && target != x.source
    && PrecheckReasons(x.allocation, target, base[target].bounds, world.weather) == []
    && AllVisited(TargetPlan(base, board, x, target), world, oracle, at)
    && var routed := SegmentSpec(TargetPlan(base, board, x, target), world, oracle, at, DEFAULT_SETTINGS).value.routedDay;
       ValidationSpec(routed, world).Ok? && ValidationSpec(routed, world).value.valid
  }

  /** What one date answers for one dropped allocation: its reasons for refusing it, and none
      when it takes it. */
  ghost function Trial(
    x: Dropped, target: Date, base: map<Date, DayPlan>, board: Board, world: World, oracle: Oracle, k: nat): Outcome<seq<RejectionCode>>
    requires OracleObeys(world, oracle) && target in base && target in board
  {
    var reasons := PrecheckReasons(x.allocation, target, base[target].bounds, world.weather);
    if reasons != [] then Ok(reasons)
    else
      var plan := TargetPlan(base, board, x, target);
      var segmented := SegmentSpec(plan, world, oracle, k, DEFAULT_SETTINGS);
      if segmented.Raised? then Raised(segmented.error)
      else
        var routed := segmented.value.routedDay;
        if VisitIds(routed.visits) != AllocationIdSet(plan.allocations) then
          var code := CodeFor(routed.unplaced, x.allocation.attraction.id);
          Ok([if code.Some? then code.value else ReassignmentDisplacesExisting])
        else
          var validation := ValidationSpec(routed, world);
          if validation.Raised? then Raised(validation.error) else Ok(CodesOf(validation.value.violations))
  }

  /** A date takes the newcomer exactly when everything on it, newcomer included, is visited on
      a route that passes the re-check. */
  lemma {:induction false} TrialIsExact(
    x: Dropped, target: Date, base: map<Date, DayPlan>, board: Board, world: World, oracle: Oracle, k: nat)
    requires OracleObeys(world, oracle) && target in base && target in board && target != x.source
    ensures Trial(x, target, base, board, world, oracle, k) == Ok([]) <==>
      RescueFound(base, board, x, target, world, oracle, k)
  {
    hide SegmentSpec, ObeysModel, OracleObeys, ValidationSpec, PrecheckReasons, TargetPlan, VisitIds, AllocationIdSet;
    var segmented := SegmentSpec(TargetPlan(base, board, x, target), world, oracle, k, DEFAULT_SETTINGS);
    if segmented.Ok? { ValidMeansNoViolations(segmented.value.routedDay, world); }
  }

  lemma {:induction false} TrialSucceeds(
    x: Dropped, target: Date, base: map<Date, DayPlan>, board: Board, world: World, oracle: Oracle, k: nat)
    requires OracleObeys(world, oracle) && target in base && target in board
    requires world.bufferRatio >= 1.0 && Loadable(TargetPlan(base, board, x, target))
    ensures Trial(x, target, base, board, world, oracle, k).Ok?
  {
    hide SegmentSpec, ObeysModel, OracleObeys, ValidationSpec, Loadable, PrecheckReasons, TargetPlan;
    PlanSucceeds(TargetPlan(base, board, x, target), world, oracle, k);
  }

  method TryTarget(x: Dropped, target: Date, base: map<Date, DayPlan>, board: Board, world: World, oracle: Oracle, k: nat)
    returns (r: Outcome<seq<RejectionCode>>)
    requires OracleObeys(world, oracle) && target in base && target in board
    ensures r == Trial(x, target, base, board, world, oracle, k)
  {
    hide SegmentSpec, ObeysModel, OracleObeys, ValidationSpec, PrecheckReasons;
    var reasons := PrecheckReasons(x.allocation, target, base[target].bounds, world.weather);
    if reasons != [] { return Ok(reasons); }
    var plan := TargetPlan(base, board, x, target);
    var segmented := RouteSegmentedDay(plan, world, oracle, k, DEFAULT_SETTINGS);
    if segmented.Raised? { return Raised(segmented.error); }
    var routed := segmented.value.routedDay;
    if VisitIds(routed.visits) != AllocationIdSet(plan.allocations) {
      var code := CodeFor(routed.unplaced, x.allocation.attraction.id);
      return Ok([if code.Some? then code.value else ReassignmentDisplacesExisting]);
    }
    var validation := ValidateRoutedDay(routed, world);
    if validation.Raised? { return Raised(validation.error); }
    ValidMeansNoViolations(routed, world);
    r := Ok(if validation.value.valid then [] else CodesOf(validation.value.violations));
  }

  lemma {:induction false} ValidMeansNoViolations(day: RoutedDay, world: World)
    ensures ValidationSpec(day, world).Ok? ==>
      (ValidationSpec(day, world).value.valid <==> ValidationSpec(day, world).value.violations == [])
  {
    hide Violations;
  }

  lemma {:induction false} PlanSucceeds(plan: DayPlan, world: World, oracle: Oracle, k: nat)
    requires OracleObeys(world, oracle) && Routable(plan, world)
    ensures SegmentSpec(plan, world, oracle, k, DEFAULT_SETTINGS).Ok?
    ensures
      var day := SegmentSpec(plan, world, oracle, k, DEFAULT_SETTINGS).value;
      ValidationSpec(day.routedDay, world) == Ok(day.validation)
  {
    hide SegmentSpec, ObeysModel, OracleObeys, ValidationSpec, Loadable, SoundRoute, PeriodsCurrent;
    P.SegmentedDaySucceeds(plan, world, oracle, k, DEFAULT_SETTINGS);
    P.SegmentedDayIsSafe(plan, world, oracle, k, DEFAULT_SETTINGS);
  }

  /** The outcome of trying dates: the one that took the allocation, and the refusals before it. */
  datatype Rescue = Rescue(target: Option<Date>, attempts: seq<RoutingAttempt>, k: nat)

  /** The first `n` dates tried in turn, stopping at the first that takes the allocation. */
  ghost function RescueUpTo(
    x: Dropped, dates: seq<Date>, n: nat, base: map<Date, DayPlan>, board: Board, world: World, oracle: Oracle, start: nat): (r: Outcome<Rescue>)
    requires OracleObeys(world, oracle) && n <= |dates|
    requires forall d :: d in dates ==> d in base && d in board
    ensures r.Ok? && r.value.target.Some? ==> r.value.target.value in dates
  {
    if n == 0 then Ok(Rescue(None, [], start))
    else
      var before := RescueUpTo(x, dates, n - 1, base, board, world, oracle, start);
      if before.Raised? || before.value.target.Some? then before
      else
        var trial := Trial(x, dates[n - 1], base, board, world, oracle, before.value.k);
        if trial.Raised? then Raised(trial.error)
        else if trial.value == [] then Ok(Rescue(Some(dates[n - 1]), before.value.attempts, before.value.k + 2))
        else
          Ok(Rescue(None, before.value.attempts + [RoutingAttempt(dates[n - 1], trial.value)], before.value.k + 2))
  }

  lemma {:induction false} RescueStopsEarly(
    x: Dropped, dates: seq<Date>, n: nat, m: nat, base: map<Date, DayPlan>, board: Board, world: World, oracle: Oracle, start: nat)
    requires OracleObeys(world, oracle) && n <= m <= |dates|
    requires forall d :: d in dates ==> d in base && d in board
    requires
      var r := RescueUpTo(x, dates, n, base, board, world, oracle, start);
      r.Raised? || r.value.target.Some?
    ensures RescueUpTo(x, dates, m, base, board, world, oracle, start)
      == RescueUpTo(x, dates, n, base, board, world, oracle, start)
  {
    hide OracleObeys, Trial;
    if n < m { RescueStopsEarly(x, dates, n, m - 1, base, board, world, oracle, start); }
  }

  ghost predicate Refused(
    x: Dropped, date: Date, attempt: RoutingAttempt, base: map<Date, DayPlan>, board: Board, world: World, oracle: Oracle, k: nat)
    requires OracleObeys(world, oracle) && date in base && date in board
  {
    && attempt.visitDate == date && attempt.codes != []
    && Trial(x, date, base, board, world, oracle, k) == Ok(attempt.codes)
  }

  /** The allocation goes to the first date that takes it; the record names every date tried
      before with exactly its reasons, and all dates when none takes it. */
  lemma {:induction false} RescueTakesFirstDate(
    x: Dropped, dates: seq<Date>, n: nat, base: map<Date, DayPlan>, board: Board, world: World, oracle: Oracle, start: nat)
    requires OracleObeys(world, oracle) && n <= |dates|
    requires forall d :: d in dates ==> d in base && d in board
    requires RescueUpTo(x, dates, n, base, board, world, oracle, start).Ok?
    ensures
      var rescue := RescueUpTo(x, dates, n, base, board, world, oracle, start).value;
      var refused := |rescue.attempts|;
      && (forall i :: 0 <= i < refused && i < |dates| ==>
            Refused(x, dates[i], rescue.attempts[i], base, board, world, oracle, start + 2 * i))
      && (if rescue.target.None? then refused == n && rescue.k == start + 2 * n
          else
            && refused < n && rescue.k == start + 2 * (refused + 1)
            && rescue.target.value == dates[refused]
            && Trial(x, dates[refused], base, board, world, oracle, start + 2 * refused) == Ok([]))
  {
    hide OracleObeys, Trial;
    if n > 0 { RescueTakesFirstDate(x, dates, n - 1, base, board, world, oracle, start); }
  }

  ghost function RescueSpec(
    x: Dropped, ordered: seq<Date>, base: map<Date, DayPlan>, board: Board, world: World, oracle: Oracle, start: nat): (r: Outcome<Rescue>)
    requires OracleObeys(world, oracle) && forall d :: d in ordered ==> d in base && d in board
    ensures r.Ok? && r.value.target.Some? ==> r.value.target.value in ordered && r.value.target.value != x.source
  {
    RescueDatesExact(ordered, x);
    var dates := RescueDates(ordered, x);
    RescueUpTo(x, dates, |dates|, base, board, world, oracle, start)
  }

  lemma {:induction false} RescueFinds(
    x: Dropped, ordered: seq<Date>, base: map<Date, DayPlan>, board: Board, world: World, oracle: Oracle, start: nat)
    requires OracleObeys(world, oracle) && forall d :: d in ordered ==> d in base && d in board
    requires RescueSpec(x, ordered, base, board, world, oracle, start).Ok?
    requires RescueSpec(x, ordered, base, board, world, oracle, start).value.target.Some?
    ensures
      var rescue := RescueSpec(x, ordered, base, board, world, oracle, start).value;
      rescue.k >= 2 && RescueFound(base, board, x, rescue.target.value, world, oracle, rescue.k - 2)
  {
    hide OracleObeys, Trial, RescueFound, RescueDates, RescueUpTo;
    RescueDatesExact(ordered, x);
    var dates := RescueDates(ordered, x);
    RescueTakesFirstDate(x, dates, |dates|, base, board, world, oracle, start);
    var rescue := RescueSpec(x, ordered, base, board, world, oracle, start).value;
    TrialIsExact(x, rescue.target.value, base, board, world, oracle, rescue.k - 2);
  }

  lemma {:induction false} RescueSucceeds(
    x: Dropped, dates: seq<Date>, n: nat, base: map<Date, DayPlan>, board: Board, world: World, oracle: Oracle, start: nat)
    requires OracleObeys(world, oracle) && n <= |dates|
    requires forall d :: d in dates ==> d in base && d in board
    requires world.bufferRatio >= 1.0 && forall d :: d in dates ==> Loadable(TargetPlan(base, board, x, d))
    ensures RescueUpTo(x, dates, n, base, board, world, oracle, start).Ok?
  {
    hide OracleObeys, Trial, Loadable, TargetPlan;
    if n > 0 {
      RescueSucceeds(x, dates, n - 1, base, board, world, oracle, start);
      var before := RescueUpTo(x, dates, n - 1, base, board, world, oracle, start).value;
      assert dates[n - 1] in dates;
      TrialSucceeds(x, dates[n - 1], base, board, world, oracle, before.k);
    }
  }

  /** Tries every other date in turn, nearest to the preferred date first. */
  method RescueOne(
    x: Dropped, ordered: seq<Date>, base: map<Date, DayPlan>, board: Board, world: World, oracle: Oracle, start: nat)
    returns (r: Outcome<Rescue>)
    requires OracleObeys(world, oracle)
    requires forall d :: d in ordered ==> d in base && d in board
    ensures r == RescueSpec(x, ordered, base, board, world, oracle, start)
  {
    hide ObeysModel, OracleObeys, RescueDates, Trial;
    var dates := RescueDates(ordered, x);
    RescueDatesExact(ordered, x);
    var attempts, k := [], start;
    for i := 0 to |dates|
      invariant RescueUpTo(x, dates, i, base, board, world, oracle, start) == Ok(Rescue(None, attempts, k))
    {
      assert dates[i] in dates;
      var trial := TryTarget(x, dates[i], base, board, world, oracle, k);
      k := k + 2;
      if trial.Raised? || trial.value == [] {
        RescueStopsEarly(x, dates, i + 1, |dates|, base, board, world, oracle, start);
        return if trial.Raised? then Raised(trial.error) else Ok(Rescue(Some(dates[i]), attempts, k));
      }
      attempts := attempts + [RoutingAttempt(dates[i], trial.value)];
    }
    r := Ok(Rescue(None, attempts, k));
  }
}
