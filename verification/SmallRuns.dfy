/** Searches that visit one or two stops: the smallest runs with which to show what a stage can do. */
module SmallRuns {
  import opened Prelude
  import opened Models
  import opened TimeWindows
  import opened Timeline
  import opened Routing
  import opened Validation
  import opened Refinement
  import opened RefinementProofs
  import opened Segments
  import opened SegmentProofs

  /** Ten minutes between any two attractions, the default buffer, and two days of fair weather. */
  const CITY: World := World(
    (a: int, b: int) => if a == b then Some(0) else Some(10),
    map[1 := DailyWeather(Forecast, Normal), 2 := DailyWeather(Forecast, Normal)],
    1.2)

  lemma {:induction false} CityTravel()
    ensures Buffered(10, CITY.bufferRatio) == 12
  {
  }

  /** An attraction that is always open. */
  function Always(id: int, suggested: int): Attraction
    requires suggested > 0
  {
    AttractionRecord(id, {}, {}, {}, suggested, [], true, false, 1, true, false, true)
  }

  function FitsAt(plan: DayPlan, i: nat, t: int): bool
    requires i < |plan.allocations|
  {
    var a := plan.allocations[i];
    Fitting(a, plan.visitDate) && FitsDay(a.attraction, plan.visitDate, plan.bounds, t, a.requiredDurationMin)
  }

  lemma {:induction false} FitsInsideDay(plan: DayPlan, i: nat, t: int)
    requires i < |plan.allocations| && FitsAt(plan, i, t)
    ensures plan.bounds.startMin <= t && t + plan.allocations[i].requiredDurationMin <= plan.bounds.endMin
  {
  }

  // ---- one stop --------------------------------------------------------------------------------------

  /** The one allocation of a plan visited at `t`. */
  function AloneAt(plan: DayPlan, t: int): SearchAnswer {
    Solution([1, 2], [plan.bounds.startMin, t, plan.bounds.endMin])
  }

  predicate FitsAlone(plan: DayPlan, t: int) {
    |plan.allocations| == 1 && FitsAt(plan, 0, t)
  }

  lemma {:induction false} AloneObeys(plan: DayPlan, world: World, t: int)
    requires FitsAlone(plan, t)
    ensures ObeysModel(plan, world, AloneAt(plan, t))
  {
    hide FitsDay, Fitting;
    var answer := AloneAt(plan, t);
    FitsInsideDay(plan, 0, t);
    assert NodeObeys(plan, world, answer.next, answer.cumul, 1);
  }

  /** What such an answer is decoded to. */
  lemma {:induction false} AloneIsRouted(plan: DayPlan, world: World, t: int)
    requires FitsAlone(plan, t) && world.bufferRatio >= 1.0
    ensures ObeysModel(plan, world, AloneAt(plan, t))
    ensures RouteSpec(plan, world, AloneAt(plan, t))
      == Ok(RoutedDay(plan.visitDate, plan.bounds, [MakeVisit(None, plan.allocations[0], t, world)], [], 0, 0))
  {
    hide FitsDay, Fitting, ObeysModel;
    AloneObeys(plan, world, t);
    var answer := AloneAt(plan, t);
    assert Decodable(plan, world, answer);
    FirstErrorIffNotLoadable(plan, 0);
    StartIsRoutable(plan, world, answer);
    StepAdvances(plan, world, answer, 1);
    assert Walk(plan, world, answer, 2) == [];
    assert Tour(plan, world, answer) == [1];
    var visits := DecodedVisits(plan, world, answer);
    assert visits == [MakeVisit(None, plan.allocations[0], t, world)];
    assert DroppedFrom(answer.next, 2) == [] && DroppedFrom(answer.next, 1) == [];
    assert DropNodes(plan.allocations, DroppedFrom(answer.next, 1)) == [];
    TotalsOfOne(visits[0]);
    assert TravelTotal(visits) == 0 && BufferedTotal(visits) == 0;
    assert FirstAllocationError(plan, 0).None?;
    assert NoDuplicates(AllocationIds(plan.allocations));
  }

  /** The same for a segment of one allocation. */
  lemma {:induction false} AloneSegment(plan: DayPlan, a: DayAllocation, world: World, t: int)
    requires FitsAlone(RebuildDayPlan(plan, [a]), t) && world.bufferRatio >= 1.0
    ensures ObeysModel(RebuildDayPlan(plan, [a]), world, AloneAt(RebuildDayPlan(plan, [a]), t))
    ensures SegmentRouteSpec(plan, [a], world, AloneAt(RebuildDayPlan(plan, [a]), t))
      == Ok(Some(RoutedDay(plan.visitDate, plan.bounds, [MakeVisit(None, a, t, world)], [], 0, 0)))
  {
    hide FitsAlone, RouteSpec, ObeysModel;
    AloneIsRouted(RebuildDayPlan(plan, [a]), world, t);
  }

  // ---- two stops -------------------------------------------------------------------------------------

  /** The two allocations of a plan visited in order, at `t` and at `u`. */
  function PairAt(plan: DayPlan, t: int, u: int): SearchAnswer {
    Solution([1, 2, 3], [plan.bounds.startMin, t, u, plan.bounds.endMin])
  }

  predicate FitsPair(plan: DayPlan, world: World, t: int, u: int) {
    && |plan.allocations| == 2 && FitsAt(plan, 0, t) && FitsAt(plan, 1, u)
    && plan.allocations[0].attraction.id != plan.allocations[1].attraction.id
    && var travel := world.provider(plan.allocations[0].attraction.id, plan.allocations[1].attraction.id);
       travel.Some? && t + plan.allocations[0].requiredDurationMin + Buffered(travel.value, world.bufferRatio) <= u
  }

  lemma {:induction false} PairObeys(plan: DayPlan, world: World, t: int, u: int)
    requires FitsPair(plan, world, t, u)
    ensures ObeysModel(plan, world, PairAt(plan, t, u))
  {
    hide FitsDay, Fitting, Buffered;
    var answer := PairAt(plan, t, u);
    FitsInsideDay(plan, 0, t);
    FitsInsideDay(plan, 1, u);
    assert NodeObeys(plan, world, answer.next, answer.cumul, 1);
    assert NodeObeys(plan, world, answer.next, answer.cumul, 2);
  }

  function PairVisits(plan: DayPlan, world: World, t: int, u: int): seq<RouteVisit>
    requires |plan.allocations| == 2
  {
    [MakeVisit(None, plan.allocations[0], t, world), MakeVisit(Some(plan.allocations[0]), plan.allocations[1], u, world)]
  }

  lemma {:induction false} PairTour(plan: DayPlan, world: World, t: int, u: int)
    requires FitsPair(plan, world, t, u) && world.bufferRatio >= 1.0
    ensures Decodable(plan, world, PairAt(plan, t, u))
    ensures Tour(plan, world, PairAt(plan, t, u)) == [1, 2]
  {
    hide FitsDay, Fitting, ObeysModel, Buffered;
    PairObeys(plan, world, t, u);
    var answer := PairAt(plan, t, u);
    assert Decodable(plan, world, answer);
    StartIsRoutable(plan, world, answer);
    StepAdvances(plan, world, answer, 1);
    StepAdvances(plan, world, answer, 2);
    assert Walk(plan, world, answer, 3) == [];
    assert Walk(plan, world, answer, 2) == [2];
    assert Walk(plan, world, answer, 1) == [1, 2];
  }

  lemma {:induction false} PairIsRouted(plan: DayPlan, world: World, t: int, u: int)
    requires FitsPair(plan, world, t, u) && world.bufferRatio >= 1.0
    ensures ObeysModel(plan, world, PairAt(plan, t, u))
    ensures
      var visits := PairVisits(plan, world, t, u);
      RouteSpec(plan, world, PairAt(plan, t, u))
      == Ok(RoutedDay(plan.visitDate, plan.bounds, visits, [], TravelOf(visits[1]), visits[1].bufferedTravelMin))
  {
    hide FitsDay, Fitting, ObeysModel, Buffered, Walk, Tour;
    PairTour(plan, world, t, u);
    var answer := PairAt(plan, t, u);
    FirstErrorIffNotLoadable(plan, 0);
    var visits := DecodedVisits(plan, world, answer);
    assert visits == PairVisits(plan, world, t, u);
    assert DroppedFrom(answer.next, 3) == [] && DroppedFrom(answer.next, 2) == [] && DroppedFrom(answer.next, 1) == [];
    assert DropNodes(plan.allocations, DroppedFrom(answer.next, 1)) == [];
    TotalsOfTwo(visits[0], visits[1]);
    assert FirstAllocationError(plan, 0).None?;
    assert NoDuplicates(AllocationIds(plan.allocations));
  }

  lemma {:induction false} PairSegment(plan: DayPlan, world: World, t: int, u: int)
    requires FitsPair(RebuildDayPlan(plan, plan.allocations), world, t, u) && world.bufferRatio >= 1.0
    ensures
      var rebuilt := RebuildDayPlan(plan, plan.allocations);
      && ObeysModel(rebuilt, world, PairAt(rebuilt, t, u))
      && |plan.allocations| == 2
      && var visits := PairVisits(rebuilt, world, t, u);
         SegmentRouteSpec(plan, plan.allocations, world, PairAt(rebuilt, t, u))
         == Ok(Some(RoutedDay(plan.visitDate, plan.bounds, visits, [], TravelOf(visits[1]), visits[1].bufferedTravelMin)))
  {
    hide RouteSpec, ObeysModel, PairVisits, FitsAt;
    PairIsRouted(RebuildDayPlan(plan, plan.allocations), world, t, u);
  }

  lemma {:induction false} TotalsOfTwo(v: RouteVisit, w: RouteVisit)
    ensures TravelTotal([v, w]) == TravelOf(v) + TravelOf(w)
    ensures BufferedTotal([v, w]) == v.bufferedTravelMin + w.bufferedTravelMin
  {
    assert [v, w] == [v] + [w];
    TotalsConcat([v], [w]);
    TotalsOfOne(v);
    TotalsOfOne(w);
  }

  // ---- days without an evening -----------------------------------------------------------------------

  lemma {:induction false} AllDaytime(allocations: seq<DayAllocation>, date: Date)
    requires forall a :: a in allocations ==> !IsEvening(a, date, DEFAULT_SETTINGS.eveningOpenMin)
    ensures SegmentOf(allocations, date, DEFAULT_SETTINGS.eveningOpenMin, true) == []
    ensures SegmentOf(allocations, date, DEFAULT_SETTINGS.eveningOpenMin, false) == allocations
  {
    hide IsEvening;
    if allocations != [] {
      var front, last := allocations[..|allocations| - 1], allocations[|allocations| - 1];
      assert allocations == front + [last];
      AllDaytime(front, date);
    }
  }

  /** A day without evening keeps the attractions of its daytime route. */
  lemma {:induction false} DaytimeVisitsStay(plan: DayPlan, daytime: Option<RoutedDay>, world: World)
    requires SegmentRoute(daytime, plan, world) && world.bufferRatio >= 1.0
    requires FinishDay(plan, daytime, None, world, DEFAULT_SETTINGS).Ok?
    ensures
      VisitAttractions(FinishDay(plan, daytime, None, world, DEFAULT_SETTINGS).value.routedDay.visits)
      == VisitAttractions(VisitsOf(daytime))
  {
    hide SoundRoute, PeriodsCurrent, Refined, ValidationSpec, CrossStored, DinnerGap, MealSpec, SameStop;
    MergeIsCorrect(plan, daytime, None, world);
    var merged := MergeSegments(plan, daytime, None, world);
    RefinementIsSafe(merged.day, |VisitsOf(daytime)|, merged.cross, DEFAULT_SETTINGS.fullDinnerMin, world);
    assert VisitsOf(daytime) + [] == VisitsOf(daytime);
  }

  lemma {:induction false} SameLength(a: seq<RouteVisit>, b: seq<RouteVisit>)
    requires VisitAttractions(a) == VisitAttractions(b)
    ensures |a| == |b|
  {
    assert |VisitAttractions(a)| == |a| && |VisitAttractions(b)| == |b|;
  }

  /** A day without evening whose search finds no solution has no visits. */
  lemma {:induction false} UnsolvedDay(plan: DayPlan, world: World, oracle: Oracle, k: nat)
    requires OracleObeys(world, oracle) && world.bufferRatio >= 1.0
    requires SegmentOf(plan.allocations, plan.visitDate, DEFAULT_SETTINGS.eveningOpenMin, true) == []
    requires
      var daytime := SegmentOf(plan.allocations, plan.visitDate, DEFAULT_SETTINGS.eveningOpenMin, false);
      oracle(k + 1, RebuildDayPlan(plan, daytime), None).NoSolution?
    requires SegmentSpec(plan, world, oracle, k, DEFAULT_SETTINGS).Ok?
    ensures SegmentSpec(plan, world, oracle, k, DEFAULT_SETTINGS).value.routedDay.visits == []
  {
    hide ObeysModel, FinishDay, SegmentRoute, VisitAttractions;
    var allocations := SegmentOf(plan.allocations, plan.visitDate, DEFAULT_SETTINGS.eveningOpenMin, false);
    var daytime := DaytimeSpec(plan, world, oracle, k, DEFAULT_SETTINGS, None).value;
    SegmentRouteOutcome(plan, allocations, world, oracle(k + 1, RebuildDayPlan(plan, allocations), None));
    assert VisitsOf(daytime) == [];
    DaytimeVisitsStay(plan, daytime, world);
    SameLength(SegmentSpec(plan, world, oracle, k, DEFAULT_SETTINGS).value.routedDay.visits, VisitsOf(daytime));
  }

  lemma {:induction false} OracleObeysAt(world: World, oracle: Oracle, k: nat, plan: DayPlan, terminal: Option<int>)
    requires OracleObeys(world, oracle)
    ensures ObeysModel(plan, world, oracle(k, plan, terminal))
  {
  }

  lemma {:induction false} NothingToRoute(plan: DayPlan, world: World, answer: SearchAnswer)
    requires ObeysModel(RebuildDayPlan(plan, []), world, answer)
    ensures SegmentRouteSpec(plan, [], world, answer) == Ok(None)
  {
  }

  /** A plan of one allocation, which is no evening one and which the search visits at `t`. */
  ghost predicate VisitsAlone(plan: DayPlan, a: DayAllocation, world: World, oracle: Oracle, k: nat, t: int) {
    && OracleObeys(world, oracle) && world.bufferRatio >= 1.0 && plan.allocations == [a]
    && !IsEvening(a, plan.visitDate, DEFAULT_SETTINGS.eveningOpenMin) && FitsAlone(RebuildDayPlan(plan, [a]), t)
    && oracle(k + 1, RebuildDayPlan(plan, [a]), None) == AloneAt(RebuildDayPlan(plan, [a]), t)
  }

  lemma {:induction false} AloneRoutes(plan: DayPlan, a: DayAllocation, world: World, oracle: Oracle, k: nat, t: int)
    requires VisitsAlone(plan, a, world, oracle, k, t)
    ensures EveningSpec(plan, world, oracle, k, DEFAULT_SETTINGS) == Ok(None)
    ensures DaytimeSpec(plan, world, oracle, k, DEFAULT_SETTINGS, None)
      == Ok(Some(RoutedDay(plan.visitDate, plan.bounds, [MakeVisit(None, a, t, world)], [], 0, 0)))
    ensures SegmentRoute(DaytimeSpec(plan, world, oracle, k, DEFAULT_SETTINGS, None).value, plan, world)
  {
    hide OracleObeys, FitsAlone, SegmentRouteSpec, ObeysModel, SegmentOf, SegmentRoute, IsEvening, AloneAt, MakeVisit;
    AllDaytime(plan.allocations, plan.visitDate);
    AloneSegment(plan, a, world, t);
    OracleObeysAt(world, oracle, k, RebuildDayPlan(plan, []), None);
    NothingToRoute(plan, world, oracle(k, RebuildDayPlan(plan, []), None));
    SegmentRouteOutcome(plan, [a], world, AloneAt(RebuildDayPlan(plan, [a]), t));
  }

  /** Its one visit is the whole day's. */
  lemma {:induction false} AloneDay(plan: DayPlan, a: DayAllocation, world: World, oracle: Oracle, k: nat, t: int)
    requires VisitsAlone(plan, a, world, oracle, k, t)
    ensures
      var routed := SegmentSpec(plan, world, oracle, k, DEFAULT_SETTINGS);
      && routed.Ok? && |routed.value.routedDay.visits| == 1
      && routed.value.routedDay.visits[0].attraction == a.attraction
  {
    AloneRoutes(plan, a, world, oracle, k, t);
    hide OracleObeys, FinishDay, SegmentRoute, EveningSpec, DaytimeSpec, FitsAlone, IsEvening, AloneAt, DayOutcome;
    RoutedSegmentsFinish(plan, world, oracle, k, DEFAULT_SETTINGS);
    var daytime := DaytimeSpec(plan, world, oracle, k, DEFAULT_SETTINGS, None).value;
    DaytimeVisitsStay(plan, daytime, world);
    var visits := SegmentSpec(plan, world, oracle, k, DEFAULT_SETTINGS).value.routedDay.visits;
    SameStops(visits, VisitsOf(daytime));
  }

  lemma {:induction false} SameStops(a: seq<RouteVisit>, b: seq<RouteVisit>)
    requires VisitAttractions(a) == VisitAttractions(b)
    ensures |a| == |b| && forall i :: 0 <= i < |a| ==> a[i].attraction == b[i].attraction
  {
    SameLength(a, b);
    forall i | 0 <= i < |a|
      ensures a[i].attraction == b[i].attraction
    {
      assert VisitAttractions(a)[i] == VisitAttractions(b)[i];
    }
  }
}
