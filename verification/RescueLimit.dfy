/** A search that changes its mind: what it rescued to another date it drops there in the end. */
module RescueLimit {
  import opened Prelude
  import opened Models
  import opened TimeWindows
  import opened Timeline
  import opened Routing
  import opened Validation
  import opened Segments
  import opened SegmentProofs
  import opened SmallRuns
  import opened Itinerary
  import opened Phases
  import opened FinalPhase
  import opened AssignmentProofs
  import opened Planner

  function Stop(date: Date): DayAllocation { DayAllocation(Always(1, 60), 1, date, 60, None) }

  function FirstDay(): DayPlan { DayPlan(1, DayTimeBounds(540, 1260), [Stop(1)], 0, 0) }

  function SecondDay(): DayPlan { DayPlan(2, DayTimeBounds(540, 1260), [], 0, 0) }

  /** One attraction on the first of two days. */
  function TwoDays(): Step1Plan { Step1Plan([FirstDay(), SecondDay()], [], [], Speed) }

  function Newcomer(): DayPlan { RebuildDayPlan(SecondDay(), [Stop(2)]) }

  /** Visits the attraction when asked to take it on the second day, and never else. */
  function FickleOracle(): Oracle {
    (k: nat, plan: DayPlan, terminal: Option<int>) =>
      if k < 6 && plan == Newcomer() then AloneAt(plan, 600) else NoSolution(false)
  }

  lemma {:induction false} StopFits(date: Date)
    ensures FitsDay(Always(1, 60), date, DayTimeBounds(540, 1260), 600, 60)
    ensures !IsEvening(Stop(date), date, DEFAULT_SETTINGS.eveningOpenMin) && Fitting(Stop(date), date)
    ensures date == 1 || date == 2 ==> MayVisitOn(Always(1, 60), date, CITY.weather)
    ensures date == 1 || date == 2 ==>
      PrecheckReasons(Stop(1), date, DayTimeBounds(540, 1260), CITY.weather) == []
  {
    assert MinimumDuration(Always(1, 60), DEFAULT_DURATION_RATIO) == 36;
  }

  lemma {:induction false} FickleOracleObeys()
    ensures OracleObeys(CITY, FickleOracle()) && FitsAlone(Newcomer(), 600)
  {
    hide FitsDay, Fitting;
    StopFits(2);
    AloneObeys(Newcomer(), CITY, 600);
  }

  lemma {:induction false} OnlyDaytime(allocations: seq<DayAllocation>, date: Date)
    requires forall a :: a in allocations ==> a == Stop(date)
    ensures SegmentOf(allocations, date, DEFAULT_SETTINGS.eveningOpenMin, true) == []
    ensures SegmentOf(allocations, date, DEFAULT_SETTINGS.eveningOpenMin, false) == allocations
  {
    hide IsEvening;
    StopFits(date);
    AllDaytime(allocations, date);
  }

  /** A day of that attraction, routed without a solution: nobody is visited, everybody unplaced. */
  lemma {:induction false} Unsolved(plan: DayPlan, k: nat)
    requires OracleObeys(CITY, FickleOracle())
    requires |plan.allocations| <= 1 && forall a :: a in plan.allocations ==> a == Stop(plan.visitDate)
    requires k >= 5 || RebuildDayPlan(plan, plan.allocations) != Newcomer()
    ensures
      var routed := SegmentSpec(plan, CITY, FickleOracle(), k, DEFAULT_SETTINGS);
      && routed.Ok? && routed.value.routedDay.visits == []
      && |routed.value.routedDay.unplaced| == |plan.allocations|
      && (plan.allocations != [] ==> routed.value.routedDay.unplaced[0].attraction == Always(1, 60))
  {
    hide OracleObeys, SegmentSpec, Fitting, SoundRoute, PeriodsCurrent, DinnerServed, FullDinnerKept, ValidationSpec;
    OnlyDaytime(plan.allocations, plan.visitDate);
    StopFits(plan.visitDate);
    assert AllFitting(plan.allocations, plan.visitDate);
    SegmentedDayRoutesIff(plan, CITY, FickleOracle(), k, DEFAULT_SETTINGS);
    UnsolvedDay(plan, CITY, FickleOracle(), k);
    SegmentedDayIsSafe(plan, CITY, FickleOracle(), k, DEFAULT_SETTINGS);
    EverybodyIsUnplaced(plan, SegmentSpec(plan, CITY, FickleOracle(), k, DEFAULT_SETTINGS).value.routedDay);
    assert plan.allocations != [] ==> plan.allocations[0] in plan.allocations;
  }

  lemma {:induction false} EverybodyIsUnplaced(plan: DayPlan, day: RoutedDay)
    requires day.visits == [] && multiset(Accounted(day)) == multiset(AllocationAttractions(plan.allocations))
    requires |plan.allocations| <= 1
    ensures |day.unplaced| == |plan.allocations|
    ensures plan.allocations != [] ==> day.unplaced[0].attraction == plan.allocations[0].attraction
  {
    assert VisitAttractions([]) == [] && Accounted(day) == UnplacedAttractions(day.unplaced);
    assert |multiset(Accounted(day))| == |day.unplaced|;
    assert |multiset(AllocationAttractions(plan.allocations))| == |plan.allocations|;
    MultisetMembers(Accounted(day), AllocationAttractions(plan.allocations));
    if plan.allocations != [] { assert Accounted(day)[0] in Accounted(day); }
  }

  // ---- the three phases -----------------------------------------------------------------------------------

  lemma {:induction false} Tables()
    ensures
      var days := TwoDays().days;
      && CheckOf(days).None? && DatesOf(days) == [1, 2]
      && BaseOf(days) == map[1 := FirstDay(), 2 := SecondDay()]
      && BoardOf(days) == map[1 := [Stop(1)], 2 := []]
      && InitialReassignments(days) == [] && InitialUnplaced([]) == []
  {
    var days := TwoDays().days;
    assert days[..1] == [FirstDay()] && [FirstDay()][..0] == [];
    assert BaseOf([FirstDay()]) == map[1 := FirstDay()] && BoardOf([FirstDay()]) == map[1 := [Stop(1)]];
    assert PlannedAttractions([FirstDay()]) == [Always(1, 60)];
    assert PlannedAttractions(days) == [Always(1, 60)];
    assert InitialReassignments([FirstDay()]) == [];
    assert Map(PlanDate, days) == [1, 2] && [1, 2][1..] == [2] && [2][1..] == [];
    assert SortedSet([2]) == [2];
  }

  /** Phase 1 drops the attraction from the first day. */
  lemma {:induction false} FirstPhase() returns (routes: map<Date, RoutedDay>, x: Dropped)
    requires OracleObeys(CITY, FickleOracle())
    ensures 1 in routes && 2 in routes
    ensures RoutesUpTo([1, 2], 2, map[1 := FirstDay(), 2 := SecondDay()], CITY, FickleOracle()) == Ok(routes)
    ensures x.source == 1 && x.allocation == Stop(1)
    ensures CollectedUpTo([1, 2], 2, map[1 := [Stop(1)], 2 := []], routes) == (map[1 := [], 2 := []], [x])
  {
    hide OracleObeys, SegmentSpec, FickleOracle;
    var base: map<Date, DayPlan> := map[1 := FirstDay(), 2 := SecondDay()];
    NotTheNewcomer();
    Unsolved(FirstDay(), 0);
    Unsolved(SecondDay(), 2);
    var first := SegmentSpec(FirstDay(), CITY, FickleOracle(), 0, DEFAULT_SETTINGS).value.routedDay;
    var second := SegmentSpec(SecondDay(), CITY, FickleOracle(), 2, DEFAULT_SETTINGS).value.routedDay;
    routes := map[1 := first, 2 := second];
    assert RoutesUpTo([1, 2], 0, base, CITY, FickleOracle()) == Ok(map[]);
    assert RoutesUpTo([1, 2], 1, base, CITY, FickleOracle()) == Ok(map[1 := first]);
    x := Dropped(1, Stop(1), first.unplaced[0].code);
    OneDrop(first.unplaced);
    var initial: Board := map[1 := [Stop(1)], 2 := []];
    assert CollectedUpTo([1, 2], 0, initial, routes) == (initial, []);
    var left: Board := map[1 := [], 2 := []];
    assert initial[1 := []] == left && left[2 := []] == left;
    assert [] + [x] == [x] && [x] + [] == [x];
    assert CollectedUpTo([1, 2], 1, initial, routes) == (left, [x]);
    assert Retained([], second.unplaced) == [] && DropsOf(2, [], second.unplaced) == [];
  }

  lemma {:induction false} NotTheNewcomer()
    ensures FirstDay() != Newcomer() && RebuildDayPlan(FirstDay(), FirstDay().allocations) != Newcomer()
    ensures RebuildDayPlan(SecondDay(), []) != Newcomer()
  {
    assert Newcomer().allocations == [Stop(2)] && Newcomer().visitDate == 2;
  }

  lemma {:induction false} OneDrop(unplaced: seq<RouteUnplaced>)
    requires |unplaced| == 1 && unplaced[0].attraction == Always(1, 60)
    ensures Retained([Stop(1)], unplaced) == [] && DropsOf(1, [Stop(1)], unplaced) == [Dropped(1, Stop(1), unplaced[0].code)]
  {
    assert [Stop(1)][..0] == [];
    assert CodeFor(unplaced, 1) == Some(unplaced[0].code);
  }

  /** When asked, the search takes it on the second day. */
  lemma {:induction false} SecondDayTakesIt(x: Dropped)
    requires OracleObeys(CITY, FickleOracle()) && x.source == 1 && x.allocation == Stop(1)
    ensures
      Trial(x, 2, map[1 := FirstDay(), 2 := SecondDay()], map[1 := [], 2 := []], CITY, FickleOracle(), 4) == Ok([])
  {
    hide OracleObeys, SegmentSpec, Fitting, SoundRoute, PeriodsCurrent, DinnerServed, FullDinnerKept, ValidationSpec,
         PrecheckReasons, FitsAlone, RouteSpec, ObeysModel, FickleOracle, MayVisitOn, Trial;
    var base: map<Date, DayPlan> := map[1 := FirstDay(), 2 := SecondDay()];
    var board: Board := map[1 := [], 2 := []];
    StopFits(2);
    assert Moved(x.allocation, 2) == Stop(2) && board[2] + [Stop(2)] == [Stop(2)];
    assert TargetPlan(base, board, x, 2) == Newcomer();
    NewcomerIsVisited();
    SegmentedDayIsSafe(Newcomer(), CITY, FickleOracle(), 4, DEFAULT_SETTINGS);
    var day := SegmentSpec(Newcomer(), CITY, FickleOracle(), 4, DEFAULT_SETTINGS).value.routedDay;
    SoundRouteIsValid(day, CITY);
    TrialIsExact(x, 2, base, board, CITY, FickleOracle(), 4);
  }

  lemma {:induction false} NewcomerIsVisited()
    requires OracleObeys(CITY, FickleOracle())
    ensures
      var routed := SegmentSpec(Newcomer(), CITY, FickleOracle(), 4, DEFAULT_SETTINGS);
      && routed.Ok? && |routed.value.routedDay.visits| == 1
      && routed.value.routedDay.visits[0].attraction == Always(1, 60)
  {
    hide OracleObeys, SegmentSpec, FitsAlone, IsEvening;
    FickleOracleObeys();
    StopFits(2);
    AloneDay(Newcomer(), Stop(2), CITY, FickleOracle(), 4, 600);
  }

  lemma {:induction false} OnlyOtherDate(x: Dropped)
    requires x.source == 1
    ensures RescueDates([1, 2], x) == [2]
  {
    assert [1, 2][1..] == [2] && [2][1..] == [];
    assert OtherDates([2], 1) == [2] && OtherDates([1, 2], 1) == [2];
    assert Sort([2], Nearest(x.allocation.preferredDate)) == [2];
  }

  /** So phase 2 moves it there. */
  lemma {:induction false} SecondPhase(x: Dropped, start: Settlement)
    requires OracleObeys(CITY, FickleOracle()) && x.source == 1 && x.allocation == Stop(1)
    requires start == Settlement(map[1 := [], 2 := []], [], [], 4)
    ensures RescuesUpTo([x], 1, [1, 2], map[1 := FirstDay(), 2 := SecondDay()], start, CITY, FickleOracle())
      == Ok(Settlement(map[1 := [], 2 := [Stop(2)]], [], [Reassignment(Always(1, 60), 1, 2)], 6))
  {
    hide OracleObeys, Trial, FickleOracle;
    var base: map<Date, DayPlan> := map[1 := FirstDay(), 2 := SecondDay()];
    OnlyOtherDate(x);
    SecondDayTakesIt(x);
    assert RescueUpTo(x, [2], 0, base, start.board, CITY, FickleOracle(), 4) == Ok(Rescue(None, [], 4));
    assert RescueUpTo(x, [2], 1, base, start.board, CITY, FickleOracle(), 4) == Ok(Rescue(Some(2), [], 6));
    assert RescuesUpTo([x], 0, [1, 2], base, start, CITY, FickleOracle()) == Ok(start);
    assert Moved(x.allocation, 2) == Stop(2) && [] + [Stop(2)] == [Stop(2)];
    assert RescueSpec(x, [1, 2], base, start.board, CITY, FickleOracle(), 4) == Ok(Rescue(Some(2), [], 6));
    var after: Board := map[1 := [], 2 := [Stop(2)]];
    assert start.board[2 := [Stop(2)]] == after;
    assert [] + [Reassignment(Always(1, 60), 1, 2)] == [Reassignment(Always(1, 60), 1, 2)];
  }

  /** And phase 3, asked again, drops it. */
  lemma {:induction false} ThirdPhase()
    requires OracleObeys(CITY, FickleOracle())
    ensures
      var f := FinalUpTo(
        [1, 2], 2, map[1 := FirstDay(), 2 := SecondDay()], map[1 := [], 2 := [Stop(2)]], [], CITY, FickleOracle(), 6);
      f.Ok? ==>
        && |f.value.segmented| == 2
        && f.value.segmented[0].routedDay.visits == [] && f.value.segmented[1].routedDay.visits == []
  {
    hide OracleObeys, SegmentSpec, ValidationSpec, DropsAdded, FickleOracle;
    var base: map<Date, DayPlan> := map[1 := FirstDay(), 2 := SecondDay()];
    var board: Board := map[1 := [], 2 := [Stop(2)]];
    Unsolved(PlanOn(base, board, 1), 6);
    Unsolved(PlanOn(base, board, 2), 8);
    assert FinalUpTo([1, 2], 0, base, board, [], CITY, FickleOracle(), 6) == Ok(Finished([], [], []));
    assert FinalUpTo([1, 2], 1, base, board, [], CITY, FickleOracle(), 6)
        == AfterFinal(PlanOn(base, board, 1), Finished([], [], []), CITY, FickleOracle(), 6);
  }

  lemma {:induction false} TwoDaysRescued()
    requires OracleObeys(CITY, FickleOracle()) && CheckOf(TwoDays().days).None?
    ensures RescuedSpec(TwoDays(), CITY, FickleOracle())
      == Ok(Settlement(map[1 := [], 2 := [Stop(2)]], [], [Reassignment(Always(1, 60), 1, 2)], 6))
  {
    hide OracleObeys, SegmentSpec, FickleOracle, RoutesUpTo, CollectedUpTo, RescuesUpTo, BaseOf, BoardOf, DatesOf,
         InitialReassignments, InitialUnplaced;
    Tables();
    var routes, x := FirstPhase();
    SecondPhase(x, Settlement(map[1 := [], 2 := []], [], [], 4));
    OneIsSorted(x);
  }

  lemma {:induction false} OneIsSorted(x: Dropped)
    ensures Sort([x], ByDateAndId()) == [x]
  {
    assert [x][1..] == [];
  }

  lemma {:induction false} NobodyIsVisited()
    requires OracleObeys(CITY, FickleOracle()) && ItinerarySpec(TwoDays(), CITY, FickleOracle()).Ok?
    ensures
      var plan := ItinerarySpec(TwoDays(), CITY, FickleOracle()).value;
      && plan.reassignments == [Reassignment(Always(1, 60), 1, 2)]
      && forall i :: 0 <= i < |plan.days| ==> plan.days[i].visits == []
  {
    hide OracleObeys, SegmentSpec, RescuedSpec, FinalUpTo, BaseOf, BoardOf, DatesOf, CheckOf, FickleOracle, TwoDays,
         InitialReassignments, InitialUnplaced;
    Tables();
    TwoDaysRescued();
    ThirdPhase();
  }

  lemma {:induction false} EmptyDaysAreNotDurable(plan: ItineraryPlan, r: Reassignment)
    requires forall i :: 0 <= i < |plan.days| ==> plan.days[i].visits == []
    ensures !Durable(plan, r)
  {
    assert VisitAttractions([]) == [];
  }

  /** A rescue need not last if the search may answer the same question differently: this one obeys
      the model, has an attraction moved to the second day, and leaves it unvisited there. */
  lemma {:induction false} FickleSearchUndoesRescue()
    ensures OracleObeys(CITY, FickleOracle()) && WellFormed(TwoDays(), CITY) && !Deterministic(FickleOracle())
    ensures
      var plan := ItinerarySpec(TwoDays(), CITY, FickleOracle());
      && plan.Ok? && plan.value.reassignments == [Reassignment(Always(1, 60), 1, 2)]
      && !Durable(plan.value, plan.value.reassignments[0])
  {
    hide OracleObeys, ItinerarySpec, CheckOf, WellFormed, FickleOracle, TwoDays, HardSafe, Durable;
    FickleOracleObeys();
    Tables();
    TwoDaysAreWellFormed();
    ItineraryIsSafe(TwoDays(), CITY, FickleOracle());
    NobodyIsVisited();
    var plan := ItinerarySpec(TwoDays(), CITY, FickleOracle()).value;
    EmptyDaysAreNotDurable(plan, plan.reassignments[0]);
    ChangesItsMind();
  }

  lemma {:induction false} ChangesItsMind()
    ensures !Deterministic(FickleOracle())
  {
    assert FickleOracle()(5, Newcomer(), None) == AloneAt(Newcomer(), 600);
    assert FickleOracle()(6, Newcomer(), None) == NoSolution(false);
  }

  lemma {:induction false} TwoDaysAreWellFormed()
    requires CheckOf(TwoDays().days).None?
    ensures WellFormed(TwoDays(), CITY)
  {
    hide Fitting, MayVisitOn, CheckOf;
    StopFits(1);
  }
}
