/** Exactly until when a full dinner between the segments survives refinement: until the end of
    the dinner window. */
module DinnerLimit {
  import opened Prelude
  import opened Models
  import opened TimeWindows
  import opened Routing
  import opened Validation
  import opened Refinement
  import opened Segments
  import opened SegmentProofs
  import opened SmallRuns

  /** A buffer the routing accepts, and travel that takes time between different attractions. */
  ghost predicate RealTravel(world: World) {
    world.bufferRatio >= 1.0 && forall a, b :: a != b ==> world.provider(a, b) != Some(0)
  }

  /** The merged day leaves its daytime for the evening at `e`, with room for a full dinner before. */
  ghost predicate DinesBefore(day: SegmentedDay, world: World, e: int) {
    var merged, count := MergedOf(day, world), |VisitsOf(day.daytimeRoute)|;
    && 0 < count < |merged.day.visits|
    && var gap := MealIntervals(merged.day, count, merged.cross)[0];
       gap.end == e && Admits(gap, DEFAULT_SETTINGS.fullDinnerMin, DEFAULT_SETTINGS)
  }

  /** Every day that is merged with room for a full dinner before leaving at `e` ends up with one. */
  ghost predicate FullDinnerBefore(e: int) {
    forall plan: DayPlan, world: World, oracle: Oracle, k: nat ::
      && OracleObeys(world, oracle) && RealTravel(world)
      && SegmentSpec(plan, world, oracle, k, DEFAULT_SETTINGS).Ok?
      && DinesBefore(SegmentSpec(plan, world, oracle, k, DEFAULT_SETTINGS).value, world, e)
      ==>
      var meal := SegmentSpec(plan, world, oracle, k, DEFAULT_SETTINGS).value.mealPlan;
      meal.Scheduled? && meal.status == Full
  }

  // ---- a day that leaves later -------------------------------------------------------------------------

  /** A long stay that is always open. */
  function Park(): DayAllocation {
    DayAllocation(Always(1, 800), 1, 1, 480, None)
  }

  function NightRule(e: int): TimeRule {
    TimeRule(MonthDay(1, 1), MonthDay(12, 31), 1020, e + 42, None)
  }

  /** A short stay that opens in the evening, every day of the year. */
  function Show(e: int): DayAllocation {
    DayAllocation(AttractionRecord(2, {}, {}, {}, 30, [NightRule(e)], false, false, 1, true, false, true), 1, 1, 18, None)
  }

  function LatePlan(e: int): DayPlan
    requires e >= 1321
  {
    DayPlan(1, DayTimeBounds(540, e + 42), [Park(), Show(e)], 0, 0)
  }

  function Only(e: int, allocation: DayAllocation): DayPlan
    requires e >= 1321
  {
    RebuildDayPlan(LatePlan(e), [allocation])
  }

  /** Visits the park at nine and the show as late as it can be reached from a departure at `e`. */
  function LateOracle(e: int): Oracle
    requires e >= 1321
  {
    (k: nat, plan: DayPlan, terminal: Option<int>) =>
      if plan == Only(e, Show(e)) then AloneAt(plan, e + 12)
      else if plan == Only(e, Park()) then AloneAt(plan, 540)
      else NoSolution(false)
  }

  lemma {:induction false} ShowWindow(e: int, ratio: real)
    requires e >= 1321
    ensures
      ResolveEffectiveWindow(Show(e).attraction, 1, ratio)
      == Window(EffectiveTimeWindow(
           1020, e + 42, None, Min(e + 42, e + 42 - MinimumDuration(Show(e).attraction, ratio))))
  {
    hide MonthDayOf, MinimumDuration;
    var rules := Show(e).attraction.timeRules;
    assert Matches(rules[0], 1) by { EveryDayMatches(MonthDayOf(1), e); }
    assert rules[1..] == [] && MatchingRules(rules, 1) == [rules[0]] + MatchingRules([], 1);
  }

  lemma {:induction false} EveryDayMatches(md: MonthDay, e: int)
    requires ValidMonthDay(md)
    ensures MatchesMonthDay(NightRule(e), md)
  {
  }

  lemma {:induction false} StaysAreLongEnough(e: int)
    requires e >= 1321
    ensures MinimumDuration(Park().attraction, DEFAULT_DURATION_RATIO) == 480 && Fitting(Park(), 1)
    ensures MinimumDuration(Show(e).attraction, DEFAULT_DURATION_RATIO) == 18 && Fitting(Show(e), 1)
  {
  }

  lemma {:induction false} StopsFit(e: int)
    requires e >= 1321
    ensures FitsAlone(Only(e, Park()), 540) && FitsAlone(Only(e, Show(e)), e + 12)
    ensures !IsEvening(Park(), 1, DEFAULT_SETTINGS.eveningOpenMin) && IsEvening(Show(e), 1, DEFAULT_SETTINGS.eveningOpenMin)
  {
    hide MatchingRules;
    StaysAreLongEnough(e);
    ShowWindow(e, DEFAULT_DURATION_RATIO);
  }

  lemma {:induction false} LateOracleObeys(e: int)
    requires e >= 1321
    ensures OracleObeys(CITY, LateOracle(e)) && RealTravel(CITY)
  {
    hide FitsAlone;
    StopsFit(e);
    AloneObeys(Only(e, Park()), CITY, 540);
    AloneObeys(Only(e, Show(e)), CITY, e + 12);
  }

  lemma {:induction false} LateSegments(e: int)
    requires e >= 1321
    ensures SegmentOf(LatePlan(e).allocations, 1, DEFAULT_SETTINGS.eveningOpenMin, true) == [Show(e)]
    ensures SegmentOf(LatePlan(e).allocations, 1, DEFAULT_SETTINGS.eveningOpenMin, false) == [Park()]
  {
    hide IsEvening;
    StopsFit(e);
    var allocations := LatePlan(e).allocations;
    assert allocations[..1] == [Park()] && [Park()][..0] == [];
    assert SegmentOf([Park()], 1, DEFAULT_SETTINGS.eveningOpenMin, true) == [];
    assert SegmentOf([Park()], 1, DEFAULT_SETTINGS.eveningOpenMin, false) == [Park()];
  }

  // ---- what becomes of it ----------------------------------------------------------------------------------

  function ParkRoute(e: int): RoutedDay
    requires e >= 1321
  {
    RoutedDay(
      1, DayTimeBounds(540, e + 42), [RouteVisit(Park().attraction, 540, 1020, 480, None, 0, None)], [], 0, 0)
  }

  function ShowRoute(e: int): RoutedDay
    requires e >= 1321
  {
    RoutedDay(
      1, DayTimeBounds(540, e + 42), [RouteVisit(Show(e).attraction, e + 12, e + 30, 18, None, 0, None)], [], 0, 0)
  }

  /** The merged day: the park, twelve buffered minutes of travel, the show. */
  function LateDay(e: int): RoutedDay
    requires e >= 1321
  {
    RoutedDay(
      1, DayTimeBounds(540, e + 42),
      [RouteVisit(Park().attraction, 540, 1020, 480, None, 0, None),
       RouteVisit(Show(e).attraction, e + 12, e + 30, 18, Some(10), 12, None)],
      [], 10, 12)
  }

  lemma {:induction false} LateRoutes(e: int)
    requires e >= 1321 && OracleObeys(CITY, LateOracle(e))
    ensures EveningSpec(LatePlan(e), CITY, LateOracle(e), 0, DEFAULT_SETTINGS) == Ok(Some(ShowRoute(e)))
    ensures DaytimeSpec(LatePlan(e), CITY, LateOracle(e), 0, DEFAULT_SETTINGS, TerminalOf(Some(ShowRoute(e))))
      == Ok(Some(ParkRoute(e)))
  {
    hide FitsAlone, SegmentRouteSpec, ObeysModel, SegmentOf, MakeVisit, AloneAt, OracleObeys;
    LateSegments(e);
    StopsFit(e);
    AloneSegment(LatePlan(e), Park(), CITY, 540);
    AloneSegment(LatePlan(e), Show(e), CITY, e + 12);
    FirstStop(Park(), 540);
    FirstStop(Show(e), e + 12);
    DifferentStops(e);
  }

  lemma {:induction false} DifferentStops(e: int)
    requires e >= 1321
    ensures Only(e, Park()) != Only(e, Show(e))
  {
    assert Only(e, Park()).allocations[0].attraction.id != Only(e, Show(e)).allocations[0].attraction.id;
  }

  lemma {:induction false} FirstStop(a: DayAllocation, t: int)
    requires a.visitPeriod.None?
    ensures MakeVisit(None, a, t, CITY)
      == RouteVisit(a.attraction, t, t + a.requiredDurationMin, a.requiredDurationMin, None, 0, None)
  {
  }

  lemma {:induction false} LateMerge(e: int)
    requires e >= 1321
    ensures
      MergeSegments(LatePlan(e), Some(ParkRoute(e)), Some(ShowRoute(e)), CITY) == Merged(LateDay(e), None, 12)
  {
    hide ResolveEffectiveWindow;
    StaysAreLongEnough(e);
    ShowWindow(e, DEFAULT_DURATION_RATIO);
    ParkWindow();
    CityTravel();
    assert TimesFit(LateDay(e));
    var shifted := ShiftAll(ShowRoute(e).visits, 0);
    assert shifted == ShowRoute(e).visits;
    var combined := CombinedRoute(LatePlan(e), Some(ParkRoute(e)), Some(ShowRoute(e)), shifted, 10, 12);
    assert combined.visits == LateDay(e).visits;
  }

  lemma {:induction false} ParkWindow()
    ensures DefaultWindow(Park().attraction, 1) == Window(EffectiveTimeWindow(0, 1440, None, 960))
  {
    StaysAreLongEnough(1321);
  }

  /** Refinement stretches the park until ninety minutes before the departure, or to its full
      suggested stay. */
  lemma {:induction false} LateRefined(e: int)
    requires e >= 1321
    ensures
      var r := Refined(LateDay(e), 1, 12, 90);
      && |r.visits| == 2 && r.bounds == DayTimeBounds(540, e + 42)
      && r.visits[0].arrivalMin == 540 && r.visits[0].leaveMin == Min(1340, e - 90)
      && r.visits[1].arrivalMin == e + 12 && r.visits[1].leaveMin == e + 42
  {
    hide ResolveEffectiveWindow, MinimumDuration;
    StaysAreLongEnough(e);
    ShowWindow(e, DEFAULT_DURATION_RATIO);
    ParkWindow();
    var day := LateDay(e);
    assert ExpandedVisit(day, 1) == Reschedule(day.visits[1], e + 12, 30);
    var evening := ExpandedEvening(day, 1);
    assert evening.visits == [day.visits[0], Reschedule(day.visits[1], e + 12, 30)];
    var duration := Min(800, Min(1440, e - 90) - 540);
    var expanded := ReplaceFirst(evening, 540, duration);
    assert TimesFit(expanded);
    assert ExpandedSingle(evening, 12, 90) == expanded;
  }

  lemma {:induction false} LateDinner(e: int)
    requires e >= 1321
    ensures
      var meal := MealSpec(Refined(LateDay(e), 1, 12, 90), 1, 12, DEFAULT_SETTINGS);
      !(meal.Scheduled? && meal.status == Full)
  {
    LateRefined(e);
    hide Refined, MealSpec, FirstFit;
    var r, s := Refined(LateDay(e), 1, 12, 90), DEFAULT_SETTINGS;
    var gaps := MealIntervals(r, 1, 12);
    DinnerIsComplete(r, 1, 12, s);
    assert gaps == [
      MealInterval(BetweenSegments, Min(1340, e - 90), e, true), MealInterval(AfterLastVisit, e + 42, e + 42, false),
      MealInterval(BeforeFirstVisit, 540, 540, true)];
    forall i | 0 <= i < |gaps|
      ensures !Admits(gaps[i], s.fullDinnerMin, s)
    {
    }
  }

  lemma {:induction false} LateDayIsNotServed(e: int)
    requires e >= 1321
    ensures !FullDinnerBefore(e)
  {
    hide OracleObeys, SegmentOf, SegmentRouteSpec, ValidationSpec, Refined, TimesFit, LateOracle, EveningSpec, DaytimeSpec,
         MealSpec, MergeSegments, RealTravel;
    LateOracleObeys(e);
    LateRoutes(e);
    LateMerge(e);
    LateDinner(e);
    var plan, oracle, s := LatePlan(e), LateOracle(e), DEFAULT_SETTINGS;
    RoutedSegmentsFinish(plan, CITY, oracle, 0, s);
    MergeIgnoresAllocations(plan, Some(ParkRoute(e)), Some(ShowRoute(e)), CITY);
    var day := SegmentSpec(plan, CITY, oracle, 0, s).value;
    assert MergedOf(day, CITY) == Merged(LateDay(e), None, 12);
    var gap := MealIntervals(LateDay(e), 1, 12)[0];
    assert MealAt(gap, 90, s, 1020);
    assert DinesBefore(day, CITY, e);
  }

  /** Every day that has room for a full dinner before it leaves for the evening is served one,
      whatever the search answers, if and only if it leaves by the end of the dinner window. */
  lemma {:induction false} FullDinnerIffInTime(e: int)
    ensures FullDinnerBefore(e) <==> e <= DEFAULT_SETTINGS.dinnerLatestEndMin
  {
    hide FullDinnerBefore;
    if e > DEFAULT_SETTINGS.dinnerLatestEndMin { LateDayIsNotServed(e); } else { DinnerInTime(e); }
  }

  lemma {:induction false} DinnerInTime(e: int)
    requires e <= DEFAULT_SETTINGS.dinnerLatestEndMin
    ensures FullDinnerBefore(e)
  {
    hide OracleObeys, SegmentSpec, RealTravel, MergedOf, MealIntervals, Admits;
    forall plan: DayPlan, world: World, oracle: Oracle, k: nat
      | && OracleObeys(world, oracle) && RealTravel(world)
        && SegmentSpec(plan, world, oracle, k, DEFAULT_SETTINGS).Ok?
        && DinesBefore(SegmentSpec(plan, world, oracle, k, DEFAULT_SETTINGS).value, world, e)
      ensures
        var meal := SegmentSpec(plan, world, oracle, k, DEFAULT_SETTINGS).value.mealPlan;
        meal.Scheduled? && meal.status == Full
    {
      SegmentedDayIsSafe(plan, world, oracle, k, DEFAULT_SETTINGS);
      ServedInTime(SegmentSpec(plan, world, oracle, k, DEFAULT_SETTINGS).value, world, e);
    }
  }

  lemma {:induction false} ServedInTime(day: SegmentedDay, world: World, e: int)
    requires FullDinnerKept(day, world, DEFAULT_SETTINGS) && DinesBefore(day, world, e)
    requires e <= DEFAULT_SETTINGS.dinnerLatestEndMin
    ensures day.mealPlan.Scheduled? && day.mealPlan.status == Full
  {
    hide MergedOf, MealIntervals, Admits;
  }
}
