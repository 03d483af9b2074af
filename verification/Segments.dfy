/** One segmented day: daytime and evening routed apart, joined by the real travel between
    them, refined, given a dinner and re-checked. */
module Segments {
  import opened Prelude
  import opened Models
  import opened TimeWindows
  import opened Timeline
  import opened Routing
  import opened Validation
  import opened Refinement

  datatype Settings = Settings(
    eveningOpenMin: int,
    dinnerEarliestMin: int,
    dinnerLatestEndMin: int,
    fullDinnerMin: int,
    reducedDinnerMin: int)

  const DEFAULT_SETTINGS: Settings := Settings(1020, 990, 1320, 90, 60)

  predicate ValidSettings(s: Settings) {
    && s.eveningOpenMin >= 0 && s.dinnerEarliestMin >= 0
    && s.dinnerLatestEndMin > s.dinnerEarliestMin
    && 0 < s.reducedDinnerMin <= s.fullDinnerMin
  }

  // ---- the search as an oracle ------------------------------------------------------------

  /** The search behind the executor: its answer may depend on how often it was asked
      before, on the plan and on the attraction the route should end near. */
  type Oracle = (nat, DayPlan, Option<int>) -> SearchAnswer

  /** All that is assumed of the search. */
  ghost predicate OracleObeys(world: World, oracle: Oracle) {
    forall k: nat, plan: DayPlan, terminal: Option<int> :: ObeysModel(plan, world, oracle(k, plan, terminal))
  }

  // ---- splitting the day ------------------------------------------------------------------

  predicate IsEvening(allocation: DayAllocation, date: Date, eveningOpen: int) {
    var resolution := DefaultWindow(allocation.attraction, date);
    resolution.Window? && resolution.window.openMin >= eveningOpen
  }

  /** The allocations of one segment, in the plan's order. */
  function SegmentOf(allocations: seq<DayAllocation>, date: Date, eveningOpen: int, evening: bool): seq<DayAllocation> {
    if allocations == [] then []
    else
      var front := SegmentOf(allocations[..|allocations| - 1], date, eveningOpen, evening);
      var last := allocations[|allocations| - 1];
      if IsEvening(last, date, eveningOpen) == evening then front + [last] else front
  }

  // ---- joining the segments ---------------------------------------------------------------

  function VisitsOf(route: Option<RoutedDay>): seq<RouteVisit> {
    if route.Some? then route.value.visits else []
  }

  function UnplacedOf(route: Option<RoutedDay>): seq<RouteUnplaced> {
    if route.Some? then route.value.unplaced else []
  }

  function TravelOfRoute(route: Option<RoutedDay>): int {
    if route.Some? then route.value.totalTravelMin else 0
  }

  function BufferedOfRoute(route: Option<RoutedDay>): int {
    if route.Some? then route.value.totalBufferedMin else 0
  }

  function ShiftVisit(v: RouteVisit, shift: int): RouteVisit {
    v.(arrivalMin := v.arrivalMin + shift,
       leaveMin := v.leaveMin + shift,
       visitPeriod := Reevaluate(v.visitPeriod, v.arrivalMin + shift))
  }

  function ShiftAll(visits: seq<RouteVisit>, shift: int): (r: seq<RouteVisit>)
    ensures |r| == |visits|
    ensures forall i :: 0 <= i < |r| ==> r[i] == if shift == 0 then visits[i] else ShiftVisit(visits[i], shift)
  {
    if shift == 0 then visits else Map((v: RouteVisit) => ShiftVisit(v, shift), visits)
  }

  function RejectVisits(visits: seq<RouteVisit>, code: RejectionCode): seq<RouteUnplaced> {
    Map((v: RouteVisit) => RouteUnplaced(v.attraction, code), visits)
  }

  datatype Merged = Merged(day: RoutedDay, rejection: Option<RejectionCode>, cross: int)

  function RejectEvening(
    plan: DayPlan, daytime: Option<RoutedDay>, evening: Option<RoutedDay>, rejected: seq<RouteVisit>, code: RejectionCode): Merged
  {
    Merged(
      RoutedDay(
        plan.visitDate,
        plan.bounds,
        VisitsOf(daytime),
        UnplacedOf(daytime) + UnplacedOf(evening) + RejectVisits(rejected, code),
        TravelOfRoute(daytime),
        BufferedOfRoute(daytime)),
      Some(code),
      0)
  }

  /** The minutes the evening has to wait for the daytime to end and the travel to be done. */
  function CrossShift(lastDaytime: RouteVisit, firstEvening: RouteVisit, cross: int): int {
    Max(0, lastDaytime.leaveMin + cross - firstEvening.arrivalMin)
  }

  /** Daytime followed by the shifted evening, whose first visit now stores the crossing. */
  function CombinedRoute(
    plan: DayPlan, daytime: Option<RoutedDay>, evening: Option<RoutedDay>, shifted: seq<RouteVisit>, travel: nat, cross: int): RoutedDay
    requires shifted != []
  {
    var first := shifted[0].(travelFromPrevious := Some(travel), bufferedTravelMin := cross);
    RoutedDay(
      plan.visitDate,
      plan.bounds,
      VisitsOf(daytime) + shifted[0 := first],
      UnplacedOf(daytime) + UnplacedOf(evening),
      TravelOfRoute(daytime) + TravelOfRoute(evening) + travel,
      BufferedOfRoute(daytime) + BufferedOfRoute(evening) + cross)
  }

  function MergeSegments(plan: DayPlan, daytime: Option<RoutedDay>, evening: Option<RoutedDay>, world: World): Merged {
    var daytimeVisits, eveningVisits := VisitsOf(daytime), VisitsOf(evening);
    if daytimeVisits == [] || eveningVisits == [] then
      Merged(
        RoutedDay(
          plan.visitDate,
          plan.bounds,
          daytimeVisits + eveningVisits,
          UnplacedOf(daytime) + UnplacedOf(evening),
          TravelOfRoute(daytime) + TravelOfRoute(evening),
          BufferedOfRoute(daytime) + BufferedOfRoute(evening)),
        None,
        0)
    else
      var last := daytimeVisits[|daytimeVisits| - 1];
      var travel := world.provider(last.attraction.id, eveningVisits[0].attraction.id);
      if travel.None? then RejectEvening(plan, daytime, evening, eveningVisits, OdDataMissing)
      else
        var cross := Buffered(travel.value, world.bufferRatio);
        var shifted := ShiftAll(eveningVisits, CrossShift(last, eveningVisits[0], cross));
        var candidate := CombinedRoute(plan, daytime, evening, shifted, travel.value, cross);
        if TimesFit(candidate) then Merged(candidate, None, cross)
        else RejectEvening(plan, daytime, evening, shifted, TransitInfeasible)
  }

  // ---- dinner -------------------------------------------------------------------------------

  datatype MealPlacement = BetweenSegments | BeforeFirstVisit | AfterLastVisit

  datatype MealStatus = Full | Reduced

  datatype MealPlan =
    | Unscheduled
    | Scheduled(status: MealStatus, placement: MealPlacement, startMin: int, endMin: int)

  datatype MealInterval = MealInterval(placement: MealPlacement, start: int, end: int, late: bool)

  /** The gaps considered for dinner, in order of preference. */
  function MealIntervals(day: RoutedDay, count: nat, cross: int): seq<MealInterval> {
    var visits := day.visits;
    if visits == [] then [MealInterval(AfterLastVisit, day.bounds.startMin, day.bounds.endMin, false)]
    else
      (if 0 < count < |visits| then
         [MealInterval(BetweenSegments, visits[count - 1].leaveMin, visits[count].arrivalMin - cross, true)]
       else [])
      + [MealInterval(AfterLastVisit, visits[|visits| - 1].leaveMin, day.bounds.endMin, false),
         MealInterval(BeforeFirstVisit, day.bounds.startMin, visits[0].arrivalMin, true)]
  }

  function MealLength(status: MealStatus, s: Settings): int {
    if status.Full? then s.fullDinnerMin else s.reducedDinnerMin
  }

  function FitMeal(interval: MealInterval, status: MealStatus, s: Settings): MealPlan {
    var startBound := Max(interval.start, s.dinnerEarliestMin);
    var endBound := Min(interval.end, s.dinnerLatestEndMin);
    var duration := MealLength(status, s);
    if endBound - startBound < duration then Unscheduled
    else if interval.late then Scheduled(status, interval.placement, endBound - duration, endBound)
    else Scheduled(status, interval.placement, startBound, startBound + duration)
  }

  /** The first interval that fits. */
  function FirstFit(intervals: seq<MealInterval>, status: MealStatus, s: Settings): MealPlan {
    if intervals == [] then Unscheduled
    else
      var meal := FitMeal(intervals[0], status, s);
      if meal.Scheduled? then meal else FirstFit(intervals[1..], status, s)
  }

  function MealSpec(day: RoutedDay, count: nat, cross: int, s: Settings): MealPlan {
    var intervals := MealIntervals(day, count, cross);
    var full := FirstFit(intervals, Full, s);
    if full.Scheduled? then full else FirstFit(intervals, Reduced, s)
  }

  method ScheduleMeal(day: RoutedDay, count: nat, cross: int, s: Settings) returns (meal: MealPlan)
    ensures meal == MealSpec(day, count, cross, s)
  {
    var intervals: seq<MealInterval> := [];
    var visits := day.visits;
    if count != 0 && |visits| > count {
      intervals := intervals + [
        MealInterval(BetweenSegments, visits[count - 1].leaveMin, visits[count].arrivalMin - cross, true)];
    }
    if visits != [] {
      intervals := intervals + [MealInterval(AfterLastVisit, visits[|visits| - 1].leaveMin, day.bounds.endMin, false)];
      intervals := intervals + [MealInterval(BeforeFirstVisit, day.bounds.startMin, visits[0].arrivalMin, true)];
    } else {
      intervals := intervals + [MealInterval(AfterLastVisit, day.bounds.startMin, day.bounds.endMin, false)];
    }
    assert intervals == MealIntervals(day, count, cross);
    meal := Unscheduled;
    var statuses := [Full, Reduced];
    for k := 0 to 2
      invariant meal.Unscheduled?
      invariant k >= 1 ==> FirstFit(intervals, Full, s).Unscheduled?
      invariant k >= 2 ==> FirstFit(intervals, Reduced, s).Unscheduled?
    {
      for i := 0 to |intervals|
        invariant meal.Unscheduled?
        invariant FirstFit(intervals, statuses[k], s) == FirstFit(intervals[i..], statuses[k], s)
      {
        var fitted := FitMeal(intervals[i], statuses[k], s);
        if fitted.Scheduled? { return fitted; }
      }
    }
  }

  // ---- the segmented day ----------------------------------------------------------------------

  datatype SegmentedDay = SegmentedDay(
    routedDay: RoutedDay,
    daytimeRoute: Option<RoutedDay>,
    eveningRoute: Option<RoutedDay>,
    mealPlan: MealPlan,
    crossRejection: Option<RejectionCode>,
    validation: RouteValidation)

  ghost function SegmentRouteSpec(plan: DayPlan, allocations: seq<DayAllocation>, world: World, answer: SearchAnswer): Outcome<Option<RoutedDay>>
    requires ObeysModel(RebuildDayPlan(plan, allocations), world, answer)
  {
    if allocations == [] then Ok(None)
    else
      var routed := RouteSpec(RebuildDayPlan(plan, allocations), world, answer);
      if routed.Raised? then Raised(routed.error) else Ok(Some(routed.value))
  }

  function TerminalOf(evening: Option<RoutedDay>): Option<int> {
    if VisitsOf(evening) == [] then None else Some(VisitsOf(evening)[0].attraction.id)
  }

  ghost function EveningSpec(plan: DayPlan, world: World, oracle: Oracle, k: nat, s: Settings): Outcome<Option<RoutedDay>>
    requires OracleObeys(world, oracle)
  {
    var allocations := SegmentOf(plan.allocations, plan.visitDate, s.eveningOpenMin, true);
    SegmentRouteSpec(plan, allocations, world, oracle(k, RebuildDayPlan(plan, allocations), None))
  }

  /** The daytime search is the one after the evening search, and knows where it starts. */
  ghost function DaytimeSpec(plan: DayPlan, world: World, oracle: Oracle, k: nat, s: Settings, terminal: Option<int>): Outcome<Option<RoutedDay>>
    requires OracleObeys(world, oracle)
  {
    var allocations := SegmentOf(plan.allocations, plan.visitDate, s.eveningOpenMin, false);
    SegmentRouteSpec(plan, allocations, world, oracle(k + 1, RebuildDayPlan(plan, allocations), terminal))
  }

  /** Merge, refinement, dinner and re-check of two routed segments. */
  function FinishDay(plan: DayPlan, daytime: Option<RoutedDay>, evening: Option<RoutedDay>, world: World, s: Settings): Outcome<SegmentedDay> {
    var merged := MergeSegments(plan, daytime, evening, world);
    var count := |VisitsOf(daytime)|;
    var refined := Refined(merged.day, count, merged.cross, s.fullDinnerMin);
    var validation := ValidationSpec(refined, world);
    if validation.Raised? then Raised(validation.error)
    else
      Ok(SegmentedDay(
        refined, daytime, evening, MealSpec(refined, count, merged.cross, s), merged.rejection, validation.value))
  }

  ghost function SegmentSpec(plan: DayPlan, world: World, oracle: Oracle, k: nat, s: Settings): Outcome<SegmentedDay>
    requires OracleObeys(world, oracle)
  {
    if !ValidSettings(s) then Raised(SettingsInvalid)
    else
      var evening := EveningSpec(plan, world, oracle, k, s);
      if evening.Raised? then Raised(evening.error)
      else
        var daytime := DaytimeSpec(plan, world, oracle, k, s, TerminalOf(evening.value));
        if daytime.Raised? then Raised(daytime.error)
        else FinishDay(plan, daytime.value, evening.value, world, s)
  }

  method RouteAllocations(plan: DayPlan, allocations: seq<DayAllocation>, world: World, answer: SearchAnswer)
    returns (r: Outcome<Option<RoutedDay>>)
    requires ObeysModel(RebuildDayPlan(plan, allocations), world, answer)
    ensures r == SegmentRouteSpec(plan, allocations, world, answer)
  {
    hide RouteSpec, ObeysModel;
    if allocations == [] { return Ok(None); }
    var routed := RouteDay(RebuildDayPlan(plan, allocations), world, answer);
    r := if routed.Raised? then Raised(routed.error) else Ok(Some(routed.value));
  }

  /** Routes one day; the searches it makes are numbered `k` (evening) and `k + 1` (daytime). */
  method RouteSegmentedDay(plan: DayPlan, world: World, oracle: Oracle, k: nat, s: Settings)
    returns (r: Outcome<SegmentedDay>)
    requires OracleObeys(world, oracle)
    ensures r == SegmentSpec(plan, world, oracle, k, s)
  {
    hide RouteSpec, ObeysModel, IsEvening, MergeSegments, Refined, MealSpec, ValidationSpec, SegmentRouteSpec;
    if !ValidSettings(s) { return Raised(SettingsInvalid); }
    var daytimeAllocations: seq<DayAllocation>, eveningAllocations: seq<DayAllocation> := [], [];
    for i := 0 to |plan.allocations|
      invariant daytimeAllocations == SegmentOf(plan.allocations[..i], plan.visitDate, s.eveningOpenMin, false)
      invariant eveningAllocations == SegmentOf(plan.allocations[..i], plan.visitDate, s.eveningOpenMin, true)
    {
      var allocation := plan.allocations[i];
      assert plan.allocations[..i + 1][..i] == plan.allocations[..i];
      if IsEvening(allocation, plan.visitDate, s.eveningOpenMin) {
        eveningAllocations := eveningAllocations + [allocation];
      } else {
        daytimeAllocations := daytimeAllocations + [allocation];
      }
    }
    assert plan.allocations[..|plan.allocations|] == plan.allocations;
    var evening := RouteAllocations(plan, eveningAllocations, world,
                                    oracle(k, RebuildDayPlan(plan, eveningAllocations), None));
    if evening.Raised? { return Raised(evening.error); }
    var daytime := RouteAllocations(plan, daytimeAllocations, world,
                                    oracle(k + 1, RebuildDayPlan(plan, daytimeAllocations), TerminalOf(evening.value)));
    if daytime.Raised? { return Raised(daytime.error); }
    r := FinishSegments(plan, daytime.value, evening.value, world, s);
  }

  method FinishSegments(plan: DayPlan, daytime: Option<RoutedDay>, evening: Option<RoutedDay>, world: World, s: Settings)
    returns (r: Outcome<SegmentedDay>)
    ensures r == FinishDay(plan, daytime, evening, world, s)
  {
    hide MergeSegments, Refined, MealSpec, ValidationSpec;
    var merged := MergeSegments(plan, daytime, evening, world);
    var count := |VisitsOf(daytime)|;
    var refined := RefineDaytimeSchedule(merged.day, count, merged.cross, s.fullDinnerMin);
    var meal := ScheduleMeal(refined, count, merged.cross, s);
    var validation := ValidateRoutedDay(refined, world);
    if validation.Raised? { return Raised(validation.error); }
    r := Ok(SegmentedDay(refined, daytime, evening, meal, merged.rejection, validation.value));
  }
}
