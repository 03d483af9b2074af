/** Exactly which plans the itinerary stage conserves whatever the search answers: those in which
    no id is both allocated and unplaced. */
module ConservationLimit {
  import opened Prelude
  import opened Models
  import opened TimeWindows
  import opened Timeline
  import opened Routing
  import opened Validation
  import opened Segments
  import opened SegmentProofs
  import opened SmallRuns
  import opened Itinerary
  import opened BoardFacts
  import opened Phases
  import opened FinalPhase
  import opened AssignmentProofs
  import opened Planner
  import A = Assignment

  function UnplacedIds(step1: Step1Plan): seq<int> {
    Map(IdOf, A.UnplacedAttractionsOf(step1.unplaced))
  }

  ghost predicate Conserved(step1: Step1Plan, world: World, oracle: Oracle)
    requires OracleObeys(world, oracle)
  {
    ItinerarySpec(step1, world, oracle).Ok? ==>
      multiset(Outcomes(ItinerarySpec(step1, world, oracle).value)) == multiset(Step1Attractions(step1))
  }

  /** Every plan with these ids is conserved in every world by every search. */
  ghost predicate AlwaysConserved(placed: seq<int>, unplaced: seq<int>) {
    forall step1: Step1Plan, world: World, oracle: Oracle ::
      OracleObeys(world, oracle) && AllocatedIds(step1.days) == placed && UnplacedIds(step1) == unplaced
      ==> Conserved(step1, world, oracle)
  }

  // ---- a plan that loses an attraction ----------------------------------------------------------------

  /** An attraction that is always open and takes an hour. */
  function Spot(id: int): Attraction {
    Always(id, 60)
  }

  function SpotAllocation(id: int): DayAllocation { DayAllocation(Spot(id), 1, 1, 60, None) }

  function SpotDay(ids: seq<int>): DayPlan {
    DayPlan(1, DayTimeBounds(540, 1260), Map(SpotAllocation, ids), 0, 0)
  }

  function SpotPlan(placed: seq<int>, unplaced: seq<int>): Step1Plan {
    Step1Plan(
      [SpotDay(placed)], Map((id: int) => UnplacedAttraction(Spot(id), 1, NoMatchingTimeRule, []), unplaced), [], Leisure)
  }

  /** Visits node `i` of `n` alone, at ten. */
  function VisitOnly(n: nat, i: nat): SearchAnswer
    requires 1 <= i <= n
  {
    Solution(
      seq(n + 1, j requires 0 <= j <= n => if j == 0 then i else if j == i then n + 1 else j),
      seq(n + 2, j requires 0 <= j <= n + 1 => if j == 0 then 540 else if j == n + 1 then 1260 else 600))
  }

  /** The first time the day is searched it visits one attraction, later none. */
  function SpotOracle(ids: seq<int>, p: nat): Oracle
    requires p < |ids|
  {
    (k: nat, plan: DayPlan, terminal: Option<int>) =>
      if k < 2 && plan == RebuildDayPlan(SpotDay(ids), SpotDay(ids).allocations) then VisitOnly(|ids|, p + 1)
      else NoSolution(false)
  }

  lemma {:induction false} SpotFits(id: int, bounds: DayTimeBounds)
    requires bounds == DayTimeBounds(540, 1260)
    ensures FitsDay(Spot(id), 1, bounds, 600, 60)
    ensures !IsEvening(SpotAllocation(id), 1, DEFAULT_SETTINGS.eveningOpenMin)
    ensures Fitting(SpotAllocation(id), 1)
  {
  }

  lemma {:induction false} VisitOnlyObeys(ids: seq<int>, p: nat)
    requires p < |ids|
    ensures ObeysModel(RebuildDayPlan(SpotDay(ids), SpotDay(ids).allocations), CITY, VisitOnly(|ids|, p + 1))
  {
    hide FitsDay;
    var plan := RebuildDayPlan(SpotDay(ids), SpotDay(ids).allocations);
    var answer := VisitOnly(|ids|, p + 1);
    SpotFits(ids[p], plan.bounds);
    assert NodeObeys(plan, CITY, answer.next, answer.cumul, p + 1);
  }

  lemma {:induction false} SpotOracleObeys(ids: seq<int>, p: nat)
    requires p < |ids|
    ensures OracleObeys(CITY, SpotOracle(ids, p))
  {
    VisitOnlyObeys(ids, p);
  }

  lemma {:induction false} SpotsAreDaytime(ids: seq<int>)
    ensures SegmentOf(SpotDay(ids).allocations, 1, DEFAULT_SETTINGS.eveningOpenMin, true) == []
    ensures SegmentOf(SpotDay(ids).allocations, 1, DEFAULT_SETTINGS.eveningOpenMin, false) == SpotDay(ids).allocations
    ensures AllFitting(SpotDay(ids).allocations, 1)
  {
    hide IsEvening, Fitting;
    forall a | a in SpotDay(ids).allocations
      ensures !IsEvening(a, 1, DEFAULT_SETTINGS.eveningOpenMin) && Fitting(a, 1)
    {
      var i :| 0 <= i < |ids| && SpotDay(ids).allocations[i] == a;
      SpotFits(ids[i], DayTimeBounds(540, 1260));
    }
    AllDaytime(SpotDay(ids).allocations, 1);
  }

  /** The node the search visits is among the visits it is decoded to. */
  lemma {:induction false} RoutedSpot(ids: seq<int>, p: nat)
    requires p < |ids|
    ensures
      var plan := RebuildDayPlan(SpotDay(ids), SpotDay(ids).allocations);
      && ObeysModel(plan, CITY, VisitOnly(|ids|, p + 1))
      && var routed := RouteSpec(plan, CITY, VisitOnly(|ids|, p + 1));
         routed.Ok? ==> Spot(ids[p]) in VisitAttractions(routed.value.visits)
  {
    VisitOnlyObeys(ids, p);
    var plan := RebuildDayPlan(SpotDay(ids), SpotDay(ids).allocations);
    var answer := VisitOnly(|ids|, p + 1);
    hide ObeysModel, FirstAllocationError;
    assert Decodable(plan, CITY, answer);
    ActiveIsVisited(plan, CITY, answer, p + 1);
    var tour := Tour(plan, CITY, answer);
    var k :| 0 <= k < |tour| && tour[k] == p + 1;
    var visits := DecodedVisits(plan, CITY, answer);
    assert visits[k].attraction == Spot(ids[p]);
    assert VisitAttractions(visits)[k] == Spot(ids[p]);
  }

  lemma {:induction false} FirstSearchVisits(ids: seq<int>, p: nat)
    requires p < |ids| && NoDuplicates(ids)
    ensures OracleObeys(CITY, SpotOracle(ids, p))
    ensures
      var routed := SegmentSpec(SpotDay(ids), CITY, SpotOracle(ids, p), 0, DEFAULT_SETTINGS);
      && routed.Ok?
      && Spot(ids[p]) in VisitAttractions(routed.value.routedDay.visits)
      && multiset(Accounted(routed.value.routedDay)) == multiset(AllocationAttractions(SpotDay(ids).allocations))
  {
    hide OracleObeys, ObeysModel, FinishDay, RouteSpec, AllFitting, DinnerServed, FullDinnerKept, SoundRoute, PeriodsCurrent,
         ValidationSpec, SegmentRoute, VisitAttractions, Accounted, VisitOnly;
    SpotOracleObeys(ids, p);
    SpotsAreDaytime(ids);
    var day, oracle := SpotDay(ids), SpotOracle(ids, p);
    assert AllocationIds(day.allocations) == ids;
    SegmentedDayRoutesIff(day, CITY, oracle, 0, DEFAULT_SETTINGS);
    SegmentedDayIsSafe(day, CITY, oracle, 0, DEFAULT_SETTINGS);
    RoutedSpot(ids, p);
    var daytime := DaytimeSpec(day, CITY, oracle, 0, DEFAULT_SETTINGS, None).value;
    SegmentRouteOutcome(day, day.allocations, CITY, VisitOnly(|ids|, p + 1));
    DaytimeVisitsStay(day, daytime, CITY);
  }

  /** Later searches visit nobody. */
  lemma {:induction false} LaterSearchVisitsNobody(ids: seq<int>, p: nat, plan: DayPlan, k: nat)
    requires p < |ids| && k >= 2 && OracleObeys(CITY, SpotOracle(ids, p))
    requires plan.visitDate == 1 && SegmentOf(plan.allocations, 1, DEFAULT_SETTINGS.eveningOpenMin, true) == []
    requires SegmentSpec(plan, CITY, SpotOracle(ids, p), k, DEFAULT_SETTINGS).Ok?
    ensures SegmentSpec(plan, CITY, SpotOracle(ids, p), k, DEFAULT_SETTINGS).value.routedDay.visits == []
  {
    hide OracleObeys, SegmentSpec, VisitOnly;
    UnsolvedDay(plan, CITY, SpotOracle(ids, p), k);
  }

  // ---- what becomes of the day -----------------------------------------------------------------------------

  lemma {:induction false} RetainedKeeps(allocations: seq<DayAllocation>, unplaced: seq<RouteUnplaced>, a: DayAllocation)
    requires a in allocations && CodeFor(unplaced, a.attraction.id).None?
    ensures a in Retained(allocations, unplaced)
  {
    hide CodeFor;
    var front, last := allocations[..|allocations| - 1], allocations[|allocations| - 1];
    assert allocations == front + [last];
    if a != last { RetainedKeeps(front, unplaced, a); }
  }

  lemma {:induction false} SplitLengths(source: Date, allocations: seq<DayAllocation>, unplaced: seq<RouteUnplaced>)
    ensures |Retained(allocations, unplaced)| + |DropsOf(source, allocations, unplaced)| == |allocations|
  {
    hide CodeFor;
    if allocations != [] { SplitLengths(source, allocations[..|allocations| - 1], unplaced); }
  }

  /** An attraction that is visited is not unplaced as well. */
  lemma {:induction false} VisitedIsNotUnplaced(ids: seq<int>, day: RoutedDay, p: nat)
    requires p < |ids| && NoDuplicates(ids)
    requires multiset(Accounted(day)) == multiset(AllocationAttractions(SpotDay(ids).allocations))
    requires Spot(ids[p]) in VisitAttractions(day.visits)
    ensures CodeFor(day.unplaced, ids[p]).None?
  {
    var spots := AllocationAttractions(SpotDay(ids).allocations);
    assert Map(IdOf, spots) == ids;
    DistinctIdsPermute(spots, Accounted(day));
    var k :| 0 <= k < |day.visits| && VisitAttractions(day.visits)[k] == Spot(ids[p]);
    var all := Map(IdOf, Accounted(day));
    forall i | 0 <= i < |day.unplaced|
      ensures day.unplaced[i].attraction.id != ids[p]
    {
      assert all[k] != all[|day.visits| + i];
    }
  }

  /** With a single date there is nowhere to rescue anyone to. */
  lemma {:induction false} NobodyIsRescued(
    dropped: seq<Dropped>, n: nat, base: map<Date, DayPlan>, start: Settlement, world: World, oracle: Oracle)
    requires OracleObeys(world, oracle) && n <= |dropped| && 1 in base && 1 in start.board
    requires forall i :: 0 <= i < |dropped| ==> dropped[i].source == 1
    ensures
      var r := RescuesUpTo(dropped, n, [1], base, start, world, oracle);
      && r.Ok? && r.value.board == start.board && r.value.k == start.k
      && |r.value.unplaced| == |start.unplaced| + n && r.value.unplaced[..|start.unplaced|] == start.unplaced
  {
    hide OracleObeys, Trial;
    if n > 0 {
      NobodyIsRescued(dropped, n - 1, base, start, world, oracle);
      NoOtherDate(dropped[n - 1]);
    }
  }

  lemma {:induction false} NoOtherDate(x: Dropped)
    requires x.source == 1
    ensures RescueDates([1], x) == []
  {
    RescueDatesExact([1], x);
    HasMember(RescueDates([1], x));
  }

  /** A drop that is listed already is skipped. */
  lemma {:induction false} ListedIsSkipped(
    allocations: seq<DayAllocation>, drops: seq<RouteUnplaced>, n: nat, before: seq<ItineraryUnplaced>, i: nat)
    requires n <= |drops| && i < |drops| && HasId(before, drops[i].attraction.id)
    requires DropsAdded(allocations, drops, n, before).Ok?
    ensures
      var after := DropsAdded(allocations, drops, n, before).value;
      && |after| <= |before| + n - (if i < n then 1 else 0)
      && HasId(after, drops[i].attraction.id)
  {
    hide PreferredOf, HasId;
    if n > 0 {
      ListedIsSkipped(allocations, drops, n - 1, before, i);
      var front := DropsAdded(allocations, drops, n - 1, before).value;
      var after := DropsAdded(allocations, drops, n, before).value;
      if after != front { AppendHasId(front, after[|front|], drops[i].attraction.id); }
    }
  }

  lemma {:induction false} SpotTables(placed: seq<int>, unplaced: seq<int>)
    ensures
      var step1 := SpotPlan(placed, unplaced);
      && AllocatedIds(step1.days) == placed && UnplacedIds(step1) == unplaced
      && DatesOf(step1.days) == [1]
      && BaseOf(step1.days) == map[1 := SpotDay(placed)]
      && BoardOf(step1.days) == map[1 := SpotDay(placed).allocations]
      && |Step1Attractions(step1)| == |placed| + |unplaced|
      && |InitialUnplaced(step1.unplaced)| == |unplaced|
      && (NoDuplicates(placed) ==> CheckOf(step1.days).None?)
  {
    var days := [SpotDay(placed)];
    assert days[..0] == [];
    assert PlannedAttractions(days) == AllocationAttractions(SpotDay(placed).allocations);
    assert Map(PlanDate, days) == [1] && [1][1..] == [];
  }

  /** After the first two phases the visited attraction is still on the board. */
  lemma {:induction false} SpotIsRetained(placed: seq<int>, unplaced: seq<int>, p: nat)
    requires p < |placed| && NoDuplicates(placed)
    ensures OracleObeys(CITY, SpotOracle(placed, p)) && CheckOf(SpotPlan(placed, unplaced).days).None?
    ensures
      var step1 := SpotPlan(placed, unplaced);
      var r := RescuedSpec(step1, CITY, SpotOracle(placed, p));
      && r.Ok? && 1 in r.value.board && SpotAllocation(placed[p]) in r.value.board[1] && r.value.k >= 2
      && |r.value.unplaced| + |r.value.board[1]| == |placed| + |unplaced|
      && |unplaced| <= |r.value.unplaced| && r.value.unplaced[..|unplaced|] == InitialUnplaced(step1.unplaced)
      && (forall a :: a in r.value.board[1] ==> a in SpotDay(placed).allocations)
  {
    hide OracleObeys, SegmentSpec, AllFitting, Accounted, SpotDay, RescuesUpTo, Sort, VisitAttractions, AllocatedIds,
         PlannedAttractions, CodeFor, InitialUnplaced, InitialReassignments;
    FirstSearchVisits(placed, p);
    SpotTables(placed, unplaced);
    var step1, oracle, day := SpotPlan(placed, unplaced), SpotOracle(placed, p), SpotDay(placed);
    var routed := SegmentSpec(day, CITY, oracle, 0, DEFAULT_SETTINGS).value.routedDay;
    VisitedIsNotUnplaced(placed, routed, p);
    SpotIsAllocated(placed, p);
    RetainedKeeps(day.allocations, routed.unplaced, SpotAllocation(placed[p]));
    SplitLengths(1, day.allocations, routed.unplaced);
    SplitMembers(1, day.allocations, routed.unplaced);
    var base, initial := BaseOf(step1.days), BoardOf(step1.days);
    var routes: map<Date, RoutedDay> := map[1 := routed];
    OneDayRouted(day, oracle);
    var board, unsorted := initial[1 := Retained(day.allocations, routed.unplaced)], DropsOf(1, day.allocations, routed.unplaced);
    OneDayCollected(initial, routes);
    var dropped := Sort(unsorted, ByDateAndId());
    MultisetMembers(dropped, unsorted);
    assert |dropped| == |unsorted| by { assert |multiset(dropped)| == |multiset(unsorted)|; }
    assert forall i :: 0 <= i < |dropped| ==> dropped[i] in dropped;
    var start := Settlement(board, InitialUnplaced(step1.unplaced), InitialReassignments(step1.days), 2);
    NobodyIsRescued(dropped, |dropped|, base, start, CITY, oracle);
  }

  lemma {:induction false} SpotIsAllocated(ids: seq<int>, p: nat)
    requires p < |ids|
    ensures |SpotDay(ids).allocations| == |ids| && SpotAllocation(ids[p]) in SpotDay(ids).allocations
  {
    assert SpotDay(ids).allocations[p] == SpotAllocation(ids[p]);
  }

  lemma {:induction false} OneDayRouted(day: DayPlan, oracle: Oracle)
    requires OracleObeys(CITY, oracle) && SegmentSpec(day, CITY, oracle, 0, DEFAULT_SETTINGS).Ok?
    ensures RoutesUpTo([1], 1, map[1 := day], CITY, oracle)
      == Ok(map[1 := SegmentSpec(day, CITY, oracle, 0, DEFAULT_SETTINGS).value.routedDay])
  {
    hide OracleObeys, SegmentSpec;
    assert RoutesUpTo([1], 0, map[1 := day], CITY, oracle) == Ok(map[]);
  }

  lemma {:induction false} OneDayCollected(initial: Board, routes: map<Date, RoutedDay>)
    requires 1 in initial && 1 in routes
    ensures CollectedUpTo([1], 1, initial, routes)
      == (initial[1 := Retained(initial[1], routes[1].unplaced)], DropsOf(1, initial[1], routes[1].unplaced))
  {
    hide Retained, DropsOf;
    assert CollectedUpTo([1], 0, initial, routes) == (initial, []);
    var drops := DropsOf(1, initial[1], routes[1].unplaced);
    assert [] + drops == drops;
  }

  /** The final phase drops it, finds its id listed, and skips it: the books are one short. */
  lemma {:induction false} SpotIsLost(placed: seq<int>, unplaced: seq<int>, p: nat)
    requires p < |placed| && NoDuplicates(placed) && placed[p] in unplaced
    ensures OracleObeys(CITY, SpotOracle(placed, p))
    ensures !Conserved(SpotPlan(placed, unplaced), CITY, SpotOracle(placed, p))
  {
    hide OracleObeys, AllFitting, SpotDay, RescuedSpec, PlannedAttractions, AllocatedIds, FinalUpTo, Fitting,
         InitialUnplaced, NothingPlanned, SpotPlan, SpotOracle;
    SpotIsRetained(placed, unplaced, p);
    SpotTables(placed, unplaced);
    var step1, oracle := SpotPlan(placed, unplaced), SpotOracle(placed, p);
    RescuedOutcome(step1, CITY, oracle);
    ItineraryRoutesIff(step1, CITY, oracle);
    var s := RescuedSpec(step1, CITY, oracle).value;
    ListedSpot(placed, unplaced, p, s.unplaced);
    LastPhaseIsShort(placed, p, BaseOf(step1.days), s.board, s.unplaced, s.k);
    var plan := ItinerarySpec(step1, CITY, oracle).value;
    assert |multiset(Outcomes(plan))| == |Outcomes(plan)|;
    assert |multiset(Step1Attractions(step1))| == |Step1Attractions(step1)|;
    NothingRejected(placed, unplaced, plan);
  }

  lemma {:induction false} NothingRejected(placed: seq<int>, unplaced: seq<int>, plan: ItineraryPlan)
    requires plan.dataRejected == SpotPlan(placed, unplaced).dataRejected
    ensures |Outcomes(plan)| == |ScheduledOn(plan.days)| + |plan.unplaced|
  {
    assert |LeftOut(plan.unplaced)| == |plan.unplaced|;
    assert A.RejectedAttractionsOf([]) == [];
  }

  lemma {:induction false} ListedSpot(placed: seq<int>, unplaced: seq<int>, p: nat, listed: seq<ItineraryUnplaced>)
    requires p < |placed| && placed[p] in unplaced
    requires |unplaced| <= |listed| && listed[..|unplaced|] == InitialUnplaced(SpotPlan(placed, unplaced).unplaced)
    ensures HasId(listed, placed[p])
  {
    var i :| 0 <= i < |unplaced| && unplaced[i] == placed[p];
    assert listed[..|unplaced|][i].attraction == Spot(unplaced[i]);
    assert listed[i].attraction.id == placed[p];
  }

  lemma {:induction false} LastPhaseIsShort(
    ids: seq<int>, p: nat, base: map<Date, DayPlan>, board: Board, listed: seq<ItineraryUnplaced>, start: nat)
    requires p < |ids| && OracleObeys(CITY, SpotOracle(ids, p)) && start >= 2
    requires 1 in base && 1 in board && base[1].visitDate == 1
    requires SpotAllocation(ids[p]) in board[1] && HasId(listed, ids[p])
    requires forall a :: a in board[1] ==> a in SpotDay(ids).allocations
    requires FinalUpTo([1], 1, base, board, listed, CITY, SpotOracle(ids, p), start).Ok?
    ensures
      var f := FinalUpTo([1], 1, base, board, listed, CITY, SpotOracle(ids, p), start).value;
      |ScheduledOn(RoutedDays(f.segmented))| + |f.unplaced| < |listed| + |board[1]|
  {
    hide OracleObeys, SegmentSpec, ValidationSpec, SpotOracle, SpotDay, DropsAdded, PreferredOf, HasId, Accounted,
         AllocationAttractions, DinnerServed, FullDinnerKept, SoundRoute, PeriodsCurrent;
    var oracle := SpotOracle(ids, p);
    var plan := PlanOn(base, board, 1);
    assert FinalUpTo([1], 0, base, board, listed, CITY, oracle, start) == Ok(Finished([], [], listed));
    var routed := SegmentSpec(plan, CITY, oracle, start, DEFAULT_SETTINGS).value;
    var day := routed.routedDay;
    BoardIsDaytime(ids, board[1]);
    LaterSearchVisitsNobody(ids, p, plan, start);
    FinalDayDrops(plan, CITY, oracle, start);
    var i := DroppedSpot(plan, day, ids, p);
    ListedIsSkipped(plan.allocations, day.unplaced, |day.unplaced|, listed, i);
    OneDayScheduled(routed);
  }

  lemma {:induction false} BoardIsDaytime(ids: seq<int>, allocations: seq<DayAllocation>)
    requires forall a :: a in allocations ==> a in SpotDay(ids).allocations
    ensures SegmentOf(allocations, 1, DEFAULT_SETTINGS.eveningOpenMin, true) == []
  {
    hide IsEvening;
    forall a | a in allocations
      ensures !IsEvening(a, 1, DEFAULT_SETTINGS.eveningOpenMin)
    {
      var i :| 0 <= i < |ids| && SpotDay(ids).allocations[i] == a;
      SpotFits(ids[i], DayTimeBounds(540, 1260));
    }
    AllDaytime(allocations, 1);
  }

  lemma {:induction false} OneDayScheduled(routed: SegmentedDay)
    requires routed.routedDay.visits == []
    ensures ScheduledOn(RoutedDays([routed])) == [] && RoutedDays([] + [routed]) == RoutedDays([routed])
  {
    var days := RoutedDays([routed]);
    assert days[..0] == [] && VisitAttractions([]) == [];
  }

  lemma {:induction false} DroppedSpot(plan: DayPlan, day: RoutedDay, ids: seq<int>, p: nat) returns (i: nat)
    requires p < |ids| && SpotAllocation(ids[p]) in plan.allocations && day.visits == []
    requires multiset(Accounted(day)) == multiset(AllocationAttractions(plan.allocations))
    ensures i < |day.unplaced| && day.unplaced[i].attraction.id == ids[p]
    ensures |day.unplaced| == |plan.allocations|
  {
    var k :| 0 <= k < |plan.allocations| && plan.allocations[k] == SpotAllocation(ids[p]);
    assert AllocationAttractions(plan.allocations)[k] == Spot(ids[p]);
    assert |multiset(Accounted(day))| == |Accounted(day)|;
    assert |multiset(AllocationAttractions(plan.allocations))| == |plan.allocations|;
    MultisetMembers(Accounted(day), AllocationAttractions(plan.allocations));
    assert Spot(ids[p]) in AllocationAttractions(plan.allocations) && Spot(ids[p]) in Accounted(day);
    i :| 0 <= i < |Accounted(day)| && Accounted(day)[i] == Spot(ids[p]);
    assert VisitAttractions([]) == [];
  }

  // ---- the exact condition ------------------------------------------------------------------------------------

  /** Whether the itinerary stage conserves a plan whatever the search answers is decided by its
      ids: it does if and only if no id is both allocated and unplaced. */
  lemma {:induction false} ConservedIffIdsApart(placed: seq<int>, unplaced: seq<int>)
    requires NoDuplicates(placed)
    ensures AlwaysConserved(placed, unplaced) <==> forall x :: x in placed ==> x !in unplaced
  {
    hide Conserved, NoDuplicates, AllocatedIds, UnplacedIds, OracleObeys;
    if x :| x in placed && x in unplaced {
      var p :| 0 <= p < |placed| && placed[p] == x;
      SpotIsLost(placed, unplaced, p);
      SpotTables(placed, unplaced);
    }
    if forall x :: x in placed ==> x !in unplaced {
      forall step1: Step1Plan, world: World, oracle: Oracle
        | OracleObeys(world, oracle) && AllocatedIds(step1.days) == placed && UnplacedIds(step1) == unplaced
        ensures Conserved(step1, world, oracle)
      {
        ApartIsConserved(step1, world, oracle);
      }
    }
  }

  lemma {:induction false} ApartIsConserved(step1: Step1Plan, world: World, oracle: Oracle)
    requires OracleObeys(world, oracle)
    requires forall x :: x in AllocatedIds(step1.days) ==> x !in UnplacedIds(step1)
    ensures Conserved(step1, world, oracle)
  {
    hide OracleObeys, ItinerarySpec, Outcomes, Step1Attractions, PlannedAttractions, A.UnplacedAttractionsOf;
    var planned, left := PlannedAttractions(step1.days), A.UnplacedAttractionsOf(step1.unplaced);
    forall a, u | a in planned && u in left
      ensures a.id != u.id
    {
      var i :| 0 <= i < |planned| && planned[i] == a;
      var j :| 0 <= j < |left| && left[j] == u;
      assert AllocatedIds(step1.days)[i] == a.id && UnplacedIds(step1)[j] == u.id;
      assert a.id in AllocatedIds(step1.days) && u.id in UnplacedIds(step1);
    }
    if ItinerarySpec(step1, world, oracle).Ok? { ItineraryConserves(step1, world, oracle); }
  }
}
