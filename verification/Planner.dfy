/** `route_itinerary`: the three phases put together, and the end-to-end promises. */
module Planner {
  import opened Prelude
  import opened Models
  import opened TimeWindows
  import opened Timeline
  import opened Validation
  import opened Routing
  import opened Segments
  import opened Itinerary
  import opened BoardFacts
  import opened Phases
  import opened FinalPhase
  import opened AssignmentProofs
  import A = Assignment
  import P = SegmentProofs

  // ---- a first-step plan as the itinerary stage reads it --------------------------------------

  function PlanDate(day: DayPlan): Date { day.visitDate }

  /** The plans by date; a later plan of the same date would override. */
  function BaseOf(days: seq<DayPlan>): map<Date, DayPlan> {
    if days == [] then map[]
    else BaseOf(days[..|days| - 1])[days[|days| - 1].visitDate := days[|days| - 1]]
  }

  function BoardOf(days: seq<DayPlan>): Board {
    if days == [] then map[]
    else BoardOf(days[..|days| - 1])[days[|days| - 1].visitDate := days[|days| - 1].allocations]
  }

  function AllocatedIds(days: seq<DayPlan>): seq<int> {
    Map(IdOf, PlannedAttractions(days))
  }

  /** Moves that step 1 itself made away from the preferred date. */
  function InitialReassignments(days: seq<DayPlan>): seq<Reassignment> {
    if days == [] then []
    else InitialReassignments(days[..|days| - 1]) + MovesOf(days[|days| - 1].allocations)
  }

  function MovesOf(allocations: seq<DayAllocation>): seq<Reassignment> {
    if allocations == [] then []
    else
      var front, last := MovesOf(allocations[..|allocations| - 1]), allocations[|allocations| - 1];
      if last.preferredDate == last.assignedDate then front
      else front + [Reassignment(last.attraction, last.preferredDate, last.assignedDate)]
  }

  function AttemptsOf(rejections: seq<DateRejection>): seq<RoutingAttempt> {
    if rejections == [] then []
    else
      var front, last := AttemptsOf(rejections[..|rejections| - 1]), rejections[|rejections| - 1];
      if last.reasons == [] then front else front + [RoutingAttempt(last.visitDate, last.reasons)]
  }

  function InitialUnplaced(unplaced: seq<UnplacedAttraction>): seq<ItineraryUnplaced> {
    Map((u: UnplacedAttraction) =>
          ItineraryUnplaced(u.attraction, u.preferredDate, u.rejectionCode, AttemptsOf(u.dateRejections)),
        unplaced)
  }

  // ---- what the itinerary promises ---------------------------------------------------------------

  /** Everything an itinerary accounts for: scheduled, unplaced, rejected by the data gate. */
  function Outcomes(plan: ItineraryPlan): seq<Attraction> {
    ScheduledOn(plan.days) + LeftOut(plan.unplaced) + A.RejectedAttractionsOf(plan.dataRejected)
  }

  /** No allocated attraction has the id of one step 1 left unplaced. */
  predicate SeparateInput(step1: Step1Plan) {
    forall a, u :: a in PlannedAttractions(step1.days) && u in A.UnplacedAttractionsOf(step1.unplaced) ==> a.id != u.id
  }

  predicate NothingPlanned(days: seq<DayPlan>) {
    forall i :: 0 <= i < |days| ==> days[i].allocations == []
  }

  /** A plan the itinerary stage can route: one plan per date, distinct attractions, every
      allocation on its own date and long enough, and a buffer of at least one if there is
      anything to route. */
  predicate CanRoute(step1: Step1Plan, world: World) {
    && CheckOf(step1.days).None?
    && (world.bufferRatio >= 1.0 || NothingPlanned(step1.days))
    && forall i :: 0 <= i < |step1.days| ==> AllFitting(step1.days[i].allocations, step1.days[i].visitDate)
  }

  /** A plan as step 1 makes them: it can be routed and keeps C1 and C5. */
  predicate WellFormed(step1: Step1Plan, world: World) {
    && CanRoute(step1, world)
    && forall i, j :: 0 <= i < |step1.days| && 0 <= j < |step1.days[i].allocations| ==>
         MayVisitOn(step1.days[i].allocations[j].attraction, step1.days[i].visitDate, world.weather)
  }

  /** The itinerary's own record invariant. */
  predicate RecordConsistent(plan: ItineraryPlan) {
    && |plan.validations| == |plan.days| == |plan.segmentedDays|
    && (plan.valid <==> forall i :: 0 <= i < |plan.validations| ==> plan.validations[i].valid)
    && forall i :: 0 <= i < |plan.days| ==> plan.segmentedDays[i].routedDay == plan.days[i]
  }

  /** Every day is hard-feasible, was found so by the independent re-check, and has the best
      dinner its gaps admit. */
  ghost predicate HardSafe(plan: ItineraryPlan, world: World) {
    && plan.valid && |plan.validations| == |plan.days| == |plan.segmentedDays|
    && forall i :: 0 <= i < |plan.days| ==>
         && plan.validations[i] == RouteValidation(true, [])
         && HardFeasible(plan.days[i], world)
         && SoundRoute(plan.days[i], world)
         && PeriodsCurrent(plan.days[i].visits)
         && plan.segmentedDays[i].routedDay == plan.days[i]
         && P.DinnerServed(plan.segmentedDays[i], DEFAULT_SETTINGS)
         && P.FullDinnerKept(plan.segmentedDays[i], world, DEFAULT_SETTINGS)
  }

  /** Where a rescue moved an attraction to, it is visited, and nothing on that day is unplaced. */
  ghost predicate Durable(plan: ItineraryPlan, r: Reassignment) {
    exists i :: 0 <= i < |plan.days|
      && plan.days[i].visitDate == r.toDate
      && r.attraction in VisitAttractions(plan.days[i].visits)
      && plan.days[i].unplaced == []
  }

  // ---- from days to board --------------------------------------------------------------------------

  lemma {:induction false} BoardHoldsDays(days: seq<DayPlan>)
    requires NoDuplicates(Map(PlanDate, days))
    ensures forall d :: d in BaseOf(days) <==> d in Map(PlanDate, days)
    ensures forall d :: d in BoardOf(days) <==> d in Map(PlanDate, days)
    ensures forall i :: 0 <= i < |days| ==> days[i].visitDate in BaseOf(days) && BaseOf(days)[days[i].visitDate] == days[i]
    ensures forall i :: 0 <= i < |days| ==>
      days[i].visitDate in BoardOf(days) && BoardOf(days)[days[i].visitDate] == days[i].allocations
  {
    if days != [] {
      var front, last := days[..|days| - 1], days[|days| - 1];
      var dates := Map(PlanDate, days);
      assert Map(PlanDate, front) == dates[..|front|];
      BoardHoldsDays(front);
      assert dates == Map(PlanDate, front) + [last.visitDate];
      forall i | 0 <= i < |front|
        ensures days[i] == front[i] && days[i].visitDate != last.visitDate
      {
        assert dates[i] != dates[|front|];
      }
    }
  }

  lemma {:induction false} HeldByDays(days: seq<DayPlan>, board: Board)
    requires forall i :: 0 <= i < |days| ==> days[i].visitDate in board && board[days[i].visitDate] == days[i].allocations
    ensures Held(Map(PlanDate, days), board) == PlannedAttractions(days)
  {
    if days != [] {
      hide AllocationAttractions;
      var front := days[..|days| - 1];
      assert forall i :: 0 <= i < |front| ==> front[i] == days[i];
      HeldByDays(front, board);
      assert Map(PlanDate, days)[..|days| - 1] == Map(PlanDate, front);
    }
  }

  /** Date order or not, the board holds what the days hold. */
  lemma {:induction false} BoardHoldsPlanned(days: seq<DayPlan>, ordered: seq<Date>)
    requires NoDuplicates(Map(PlanDate, days)) && ordered == SortedSet(Map(PlanDate, days))
    ensures Consistent(ordered, BaseOf(days), BoardOf(days))
    ensures multiset(Held(ordered, BoardOf(days))) == multiset(PlannedAttractions(days))
  {
    hide Held, SortedSet, BaseOf, BoardOf;
    BoardHoldsDays(days);
    HeldByDays(days, BoardOf(days));
    SameElements(Map(PlanDate, days), ordered);
    HeldPermutes(Map(PlanDate, days), ordered, BoardOf(days));
    forall d | d in ordered
      ensures d in BaseOf(days) && BaseOf(days)[d].visitDate == d
    {
      assert d in Map(PlanDate, days);
      var i :| 0 <= i < |days| && Map(PlanDate, days)[i] == d;
      assert days[i].visitDate == d;
    }
  }

  lemma {:induction false} BoardIsAllocations(days: seq<DayPlan>, ordered: seq<Date>)
    requires NoDuplicates(Map(PlanDate, days)) && ordered == SortedSet(Map(PlanDate, days))
    ensures forall d :: d in ordered ==>
      d in BaseOf(days) && d in BoardOf(days) && BoardOf(days)[d] == BaseOf(days)[d].allocations
      && BaseOf(days)[d].visitDate == d && BaseOf(days)[d] in days
    ensures forall i :: 0 <= i < |days| ==>
      days[i].visitDate in ordered && days[i].visitDate in BaseOf(days) && BaseOf(days)[days[i].visitDate] == days[i]
    ensures forall d :: d in BoardOf(days) ==> d in ordered
  {
    hide SortedSet, BaseOf, BoardOf, NoDuplicates;
    BoardHoldsDays(days);
    forall d | d in ordered
      ensures d in BaseOf(days) && d in BoardOf(days) && BoardOf(days)[d] == BaseOf(days)[d].allocations
      ensures BaseOf(days)[d].visitDate == d && BaseOf(days)[d] in days
    {
      assert d in Map(PlanDate, days);
      var i :| 0 <= i < |days| && Map(PlanDate, days)[i] == d;
      assert days[i].visitDate == d && days[i] in days;
    }
    forall i | 0 <= i < |days|
      ensures days[i].visitDate in ordered
    {
      assert Map(PlanDate, days)[i] == days[i].visitDate;
    }
  }

  /** The days can be routed exactly if the plan can. */
  lemma {:induction false} DaysRouteIff(step1: Step1Plan, world: World, ordered: seq<Date>)
    requires CheckOf(step1.days).None? && ordered == SortedSet(Map(PlanDate, step1.days))
    ensures
      var base := BaseOf(step1.days);
      && (forall d :: d in ordered ==> d in base && NoDuplicates(AllocationIds(base[d].allocations)))
      && ((forall i :: 0 <= i < |ordered| ==> Routable(base[ordered[i]], world)) <==> CanRoute(step1, world))
  {
    hide SortedSet, Fitting, Held, PlannedAttractions, AllocationAttractions, BaseOf, BoardOf, NoDuplicates;
    var days, base := step1.days, BaseOf(step1.days);
    BoardIsAllocations(days, ordered);
    BoardHoldsPlanned(days, ordered);
    DistinctIdsPermute(PlannedAttractions(days), Held(ordered, BoardOf(days)));
    forall d | d in ordered
      ensures NoDuplicates(AllocationIds(base[d].allocations))
    {
      HeldContains(ordered, BoardOf(days), d);
      DistinctIdsPart(AllocationAttractions(BoardOf(days)[d]), Held(ordered, BoardOf(days)));
      IdsOfAllocations(base[d].allocations);
    }
    if CanRoute(step1, world) {
      forall i | 0 <= i < |ordered|
        ensures Routable(base[ordered[i]], world)
      {
        assert ordered[i] in ordered && base[ordered[i]] in days;
        var j :| 0 <= j < |days| && days[j] == base[ordered[i]];
      }
    }
    if forall i :: 0 <= i < |ordered| ==> Routable(base[ordered[i]], world) {
      forall j | 0 <= j < |days|
        ensures AllFitting(days[j].allocations, days[j].visitDate)
        ensures world.bufferRatio >= 1.0 || days[j].allocations == []
      {
        var i :| 0 <= i < |ordered| && ordered[i] == days[j].visitDate;
        assert Routable(base[ordered[i]], world);
      }
    }
  }

  /** A plan that can be routed gives a board of fitting allocations, admissible if it is well
      formed. */
  lemma {:induction false} BoardFits(step1: Step1Plan, world: World, ordered: seq<Date>)
    requires CanRoute(step1, world) && ordered == SortedSet(Map(PlanDate, step1.days))
    ensures BoardFitting(BoardOf(step1.days))
    ensures WellFormed(step1, world) ==> BoardAdmissible(BoardOf(step1.days), world.weather)
  {
    hide SortedSet, Fitting, MayVisitOn, BaseOf, BoardOf, NoDuplicates, AllocatedIds;
    var days := step1.days;
    BoardIsAllocations(days, ordered);
    forall d | d in BoardOf(days)
      ensures AllFitting(BoardOf(days)[d], d)
      ensures WellFormed(step1, world) ==> forall i :: 0 <= i < |BoardOf(days)[d]| ==> Admissible(BoardOf(days)[d][i], d, world.weather)
    {
      assert d in ordered && BaseOf(days)[d] in days;
      var j :| 0 <= j < |days| && days[j] == BaseOf(days)[d];
      assert AllFitting(days[j].allocations, days[j].visitDate);
    }
  }

  // ---- the run ------------------------------------------------------------------------------------------

  function DatesOf(days: seq<DayPlan>): seq<Date> {
    SortedSet(Map(PlanDate, days))
  }

  function CheckOf(days: seq<DayPlan>): Option<Error> {
    if !NoDuplicates(Map(PlanDate, days)) then Some(DuplicateDay)
    else if !NoDuplicates(AllocatedIds(days)) then Some(DuplicateAttraction)
    else None
  }

  /** The days routed once, their drops collected and, one by one, moved or given up. */
  ghost function RescuedSpec(step1: Step1Plan, world: World, oracle: Oracle): (r: Outcome<Settlement>)
    requires OracleObeys(world, oracle) && CheckOf(step1.days).None?
    ensures r.Ok? ==> r.value.board.Keys == BoardOf(step1.days).Keys
  {
    var ordered, base, initial := DatesOf(step1.days), BaseOf(step1.days), BoardOf(step1.days);
    BoardHoldsPlanned(step1.days, ordered);
    var routes := RoutesUpTo(ordered, |ordered|, base, world, oracle);
    if routes.Raised? then Raised(routes.error)
    else
      RoutesCoverDates(ordered, |ordered|, base, world, oracle);
      var (board, unsorted) := CollectedUpTo(ordered, |ordered|, initial, routes.value);
      var dropped := Sort(unsorted, ByDateAndId());
      var start := Settlement(
        board, InitialUnplaced(step1.unplaced), InitialReassignments(step1.days), 2 * |ordered|);
      RescuesUpTo(dropped, |dropped|, ordered, base, start, world, oracle)
  }

  ghost function FinalSpec(step1: Step1Plan, s: Settlement, world: World, oracle: Oracle): Outcome<Finished>
    requires OracleObeys(world, oracle) && CheckOf(step1.days).None?
    requires s.board.Keys == BoardOf(step1.days).Keys
  {
    var ordered := DatesOf(step1.days);
    BoardHoldsPlanned(step1.days, ordered);
    FinalUpTo(ordered, |ordered|, BaseOf(step1.days), s.board, s.unplaced, world, oracle, s.k)
  }

  function PlanFrom(step1: Step1Plan, reassignments: seq<Reassignment>, f: Finished): ItineraryPlan {
    ItineraryPlan(
      RoutedDays(f.segmented), f.unplaced, step1.dataRejected, reassignments, f.validations,
      forall i :: 0 <= i < |f.validations| ==> f.validations[i].valid, f.segmented)
  }

  ghost function ItinerarySpec(step1: Step1Plan, world: World, oracle: Oracle): Outcome<ItineraryPlan>
    requires OracleObeys(world, oracle)
  {
    if CheckOf(step1.days).Some? then Raised(CheckOf(step1.days).value)
    else
      var rescued := RescuedSpec(step1, world, oracle);
      if rescued.Raised? then Raised(rescued.error)
      else
        var f := FinalSpec(step1, rescued.value, world, oracle);
        if f.Raised? then Raised(f.error) else Ok(PlanFrom(step1, rescued.value.reassignments, f.value))
  }

  method CheckStep1(days: seq<DayPlan>) returns (error: Option<Error>)
    ensures error == CheckOf(days)
  {
    hide PlannedAttractions;
    var sameDate := HasDuplicates(Map(PlanDate, days));
    if sameDate { return Some(DuplicateDay); }
    var sameId := HasDuplicates(AllocatedIds(days));
    error := if sameId then Some(DuplicateAttraction) else None;
  }

  /** Routes and repairs a whole first-step plan. */
  method RouteItinerary(step1: Step1Plan, world: World, oracle: Oracle) returns (r: Outcome<ItineraryPlan>)
    requires OracleObeys(world, oracle)
    ensures r == ItinerarySpec(step1, world, oracle)
  {
    hide OracleObeys, ObeysModel, BaseOf, BoardOf, SortedSet, Sort, InitialReassignments, InitialUnplaced, RoutesUpTo,
         CollectedUpTo, RescuesUpTo, FinalUpTo, AllocatedIds, Held, PlannedAttractions;
    var failed := CheckStep1(step1.days);
    if failed.Some? { return Raised(failed.value); }
    var ordered, base, initial := DatesOf(step1.days), BaseOf(step1.days), BoardOf(step1.days);
    BoardHoldsPlanned(step1.days, ordered);
    var routes := RouteAll(ordered, base, world, oracle);
    if routes.Raised? { return Raised(routes.error); }
    RoutesCoverDates(ordered, |ordered|, base, world, oracle);
    var board, unsorted := CollectDropped(ordered, initial, routes.value);
    var dropped := Sort(unsorted, ByDateAndId());
    var start := Settlement(board, InitialUnplaced(step1.unplaced), InitialReassignments(step1.days), 2 * |ordered|);
    var rescued := RescueDropped(dropped, ordered, base, start, world, oracle);
    if rescued.Raised? { return Raised(rescued.error); }
    var s := rescued.value;
    var finished := RouteFinally(ordered, base, s.board, s.unplaced, world, oracle, s.k);
    if finished.Raised? { return Raised(finished.error); }
    r := Ok(PlanFrom(step1, s.reassignments, finished.value));
  }

  // ---- what it promises ----------------------------------------------------------------------------------

  /** What the first two phases leave behind: step 1's own unplaced list in front, and behind it
      whoever was given up, who together with the board are the planned attractions. */
  ghost predicate RescuedWell(step1: Step1Plan, s: Settlement, world: World, oracle: Oracle)
    requires OracleObeys(world, oracle)
  {
    var ordered, base := DatesOf(step1.days), BaseOf(step1.days);
    var moved, listed := InitialReassignments(step1.days), InitialUnplaced(step1.unplaced);
    && Consistent(ordered, base, s.board)
    && |listed| <= |s.unplaced| && s.unplaced[..|listed|] == listed
    && multiset(Held(ordered, s.board)) + multiset(LeftOut(s.unplaced[|listed|..]))
         == multiset(PlannedAttractions(step1.days))
    && BoardFitting(s.board)
    && (WellFormed(step1, world) ==> BoardAdmissible(s.board, world.weather))
    && |moved| <= |s.reassignments| && s.reassignments[..|moved|] == moved
    && (Deterministic(oracle) ==>
          forall j :: |moved| <= j < |s.reassignments| ==> Settled(s.reassignments[j], base, s.board, world, oracle))
  }

  /** The rescue phase, from an empty list of unplaced attractions. */
  lemma {:induction false} RescuedFromNothing(
    step1: Step1Plan, world: World, oracle: Oracle, ordered: seq<Date>, routes: map<Date, RoutedDay>, dropped: seq<Dropped>,
    start: Settlement)
    requires OracleObeys(world, oracle) && CanRoute(step1, world) && ordered == DatesOf(step1.days)
    requires forall d :: d in ordered ==> d in BaseOf(step1.days) && d in BoardOf(step1.days) && d in routes
    requires
      var (board, unsorted) := CollectedUpTo(ordered, |ordered|, BoardOf(step1.days), routes);
      dropped == Sort(unsorted, ByDateAndId())
      && start == Settlement(board, [], InitialReassignments(step1.days), 2 * |ordered|)
    ensures forall d :: d in ordered ==> d in start.board
    ensures
      var base := BaseOf(step1.days);
      var r := RescuesUpTo(dropped, |dropped|, ordered, base, start, world, oracle);
      && r.Ok?
      && RescuedWell(step1, r.value.(unplaced := InitialUnplaced(step1.unplaced) + r.value.unplaced), world, oracle)
  {
    hide OracleObeys, BaseOf, BoardOf, SortedSet, Sort, InitialReassignments, InitialUnplaced, CollectedUpTo, RescuesUpTo,
         AllocatedIds, Held, PlannedAttractions, WellFormed, CanRoute, LeftOut, DroppedAttractions, Settled,
         Deterministic, BoardAdmissible, BoardFitting, DropsLongEnough, DistinctIds;
    var base, initial := BaseOf(step1.days), BoardOf(step1.days);
    CanRouteFacts(step1, world);
    BoardHoldsPlanned(step1.days, ordered);
    BoardFits(step1, world, ordered);
    CollectingConserves(ordered, |ordered|, initial, routes);
    var (board, unsorted) := CollectedUpTo(ordered, |ordered|, initial, routes);
    CollectedFacts(ordered, base, initial, board, unsorted, dropped, world.weather);
    NoneLeftOut();
    DistinctIdsPermute(
      PlannedAttractions(step1.days), Held(ordered, board) + DroppedAttractions(dropped) + LeftOut([]));
    if world.bufferRatio < 1.0 { NothingDroppedIfNothingPlanned(step1.days, dropped, Held(ordered, board)); }
    RescuesSucceed(dropped, |dropped|, ordered, base, start, world, oracle);
    RescuedBoard(dropped, ordered, base, start, world, oracle);
    var s := RescuesUpTo(dropped, |dropped|, ordered, base, start, world, oracle).value;
    var listed := InitialUnplaced(step1.unplaced);
    assert (listed + s.unplaced)[..|listed|] == listed && (listed + s.unplaced)[|listed|..] == s.unplaced;
  }

  lemma {:induction false} NoneLeftOut()
    ensures LeftOut([]) == []
  {
  }

  lemma {:induction false} NothingDroppedIfNothingPlanned(days: seq<DayPlan>, dropped: seq<Dropped>, held: seq<Attraction>)
    requires NothingPlanned(days)
    requires multiset(held) + multiset(DroppedAttractions(dropped)) == multiset(PlannedAttractions(days))
    ensures dropped == [] && held == []
  {
    PlannedIsEmpty(days);
    assert multiset(held) <= multiset(PlannedAttractions(days));
    assert multiset(DroppedAttractions(dropped)) <= multiset(PlannedAttractions(days));
    CountsNothing(held);
    CountsNothing(DroppedAttractions(dropped));
    assert |DroppedAttractions(dropped)| == |dropped|;
  }

  lemma {:induction false} PlannedIsEmpty(days: seq<DayPlan>)
    requires NothingPlanned(days)
    ensures PlannedAttractions(days) == []
  {
    if days != [] { PlannedIsEmpty(days[..|days| - 1]); }
  }

  lemma {:induction false} CanRouteFacts(step1: Step1Plan, world: World)
    requires CanRoute(step1, world)
    ensures CheckOf(step1.days).None? && NoDuplicates(Map(PlanDate, step1.days))
    ensures DistinctIds(PlannedAttractions(step1.days))
    ensures world.bufferRatio >= 1.0 || NothingPlanned(step1.days)
  {
    hide PlannedAttractions, AllFitting;
  }

  /** The first two phases raise exactly if the plan cannot be routed. */
  lemma {:induction false} RescuedOutcome(step1: Step1Plan, world: World, oracle: Oracle)
    requires OracleObeys(world, oracle) && CheckOf(step1.days).None?
    ensures
      var r := RescuedSpec(step1, world, oracle);
      && (r.Ok? <==> CanRoute(step1, world))
      && (r.Ok? ==> RescuedWell(step1, r.value, world, oracle))
  {
    hide OracleObeys, BaseOf, BoardOf, SortedSet, Sort, InitialReassignments, InitialUnplaced, RoutesUpTo, CollectedUpTo,
         RescuesUpTo, AllocatedIds, Held, PlannedAttractions, CanRoute, Routable, RescuedWell;
    var ordered, base, initial := DatesOf(step1.days), BaseOf(step1.days), BoardOf(step1.days);
    BoardHoldsPlanned(step1.days, ordered);
    DaysRouteIff(step1, world, ordered);
    RoutesSucceedIff(ordered, |ordered|, base, world, oracle);
    var routes := RoutesUpTo(ordered, |ordered|, base, world, oracle);
    if routes.Ok? {
      RoutesCoverDates(ordered, |ordered|, base, world, oracle);
      var (board, unsorted) := CollectedUpTo(ordered, |ordered|, initial, routes.value);
      var dropped := Sort(unsorted, ByDateAndId());
      var start := Settlement(board, [], InitialReassignments(step1.days), 2 * |ordered|);
      RescuedFromNothing(step1, world, oracle, ordered, routes.value, dropped, start);
      var listed := InitialUnplaced(step1.unplaced);
      RescuesIgnoreListed(dropped, |dropped|, ordered, base, listed, start, world, oracle);
      assert start.(unplaced := listed + start.unplaced) == start.(unplaced := listed);
    }
  }

  /** Routing raises exactly if the plan cannot be routed, whatever the search answers in any
      phase. */
  lemma {:induction false} ItineraryRoutesIff(step1: Step1Plan, world: World, oracle: Oracle)
    requires OracleObeys(world, oracle)
    ensures ItinerarySpec(step1, world, oracle).Ok? <==> CanRoute(step1, world)
  {
    hide OracleObeys, BaseOf, BoardOf, SortedSet, InitialReassignments, InitialUnplaced, RescuedSpec, FinalUpTo,
         AllocatedIds, Held, PlannedAttractions, WellFormed, LeftOut, Settled, Deterministic, BoardAdmissible,
         BoardFitting, DistinctIds, Consistent, AllFitting, NothingPlanned;
    if CheckOf(step1.days).None? {
      RescuedOutcome(step1, world, oracle);
      if CanRoute(step1, world) {
        var s := RescuedSpec(step1, world, oracle).value;
        var ordered, base := DatesOf(step1.days), BaseOf(step1.days);
        ConsistentKeys(ordered, base, s.board);
        FinalBoardIsDistinct(step1, world, ordered, s.board, s.unplaced[|InitialUnplaced(step1.unplaced)|..]);
        FinalSucceeds(ordered, |ordered|, base, s.board, s.unplaced, world, oracle, s.k);
      }
    }
  }

  /** Every well-formed plan is routed, and every day of the result is hard-feasible, found so by
      the re-check and served the best dinner, whatever the search answers in any phase. */
  lemma {:induction false} ItineraryIsSafe(step1: Step1Plan, world: World, oracle: Oracle)
    requires OracleObeys(world, oracle) && WellFormed(step1, world)
    ensures ItinerarySpec(step1, world, oracle).Ok?
    ensures HardSafe(ItinerarySpec(step1, world, oracle).value, world)
    ensures RecordConsistent(ItinerarySpec(step1, world, oracle).value)
  {
    hide OracleObeys, BaseOf, BoardOf, SortedSet, InitialReassignments, InitialUnplaced, RescuedSpec, FinalUpTo,
         AllocatedIds, Held, PlannedAttractions, CanRoute, LeftOut, Settled, Deterministic, BoardAdmissible, BoardFitting,
         DistinctIds, FinalDay, HardSafe, Consistent;
    CanRouteFacts(step1, world);
    RescuedOutcome(step1, world, oracle);
    ItineraryRoutesIff(step1, world, oracle);
    var s := RescuedSpec(step1, world, oracle).value;
    var ordered, base := DatesOf(step1.days), BaseOf(step1.days);
    ConsistentKeys(ordered, base, s.board);
    FinalDaysHold(ordered, |ordered|, base, s.board, s.unplaced, world, oracle, s.k);
    FinalDaysAreSafe(ordered, base, s.board, world, oracle, ItinerarySpec(step1, world, oracle).value);
  }

  /** Every attraction of the first step ends up exactly once scheduled, unplaced or rejected,
      even if the search answers differently in every phase. */
  lemma {:induction false} ItineraryConserves(step1: Step1Plan, world: World, oracle: Oracle)
    requires OracleObeys(world, oracle) && SeparateInput(step1)
    requires ItinerarySpec(step1, world, oracle).Ok?
    ensures multiset(Outcomes(ItinerarySpec(step1, world, oracle).value)) == multiset(Step1Attractions(step1))
  {
    hide OracleObeys, BaseOf, BoardOf, SortedSet, InitialReassignments, InitialUnplaced, RescuedSpec, FinalUpTo,
         AllocatedIds, Held, PlannedAttractions, LeftOut, Settled, Deterministic, BoardAdmissible, BoardFitting,
         DistinctIds, SeparateInput, Outcomes, Step1Attractions, ScheduledOn, Consistent, CanRoute, NotListed;
    ItineraryRoutesIff(step1, world, oracle);
    CanRouteFacts(step1, world);
    RescuedOutcome(step1, world, oracle);
    var s := RescuedSpec(step1, world, oracle).value;
    var ordered, base, listed := DatesOf(step1.days), BaseOf(step1.days), InitialUnplaced(step1.unplaced);
    var given := s.unplaced[|listed|..];
    ConsistentKeys(ordered, base, s.board);
    DistinctIdsPermute(PlannedAttractions(step1.days), Held(ordered, s.board) + LeftOut(given));
    forall d | d in ordered
      ensures NotListed(listed, s.board[d])
    {
      BoardIsNotListed(step1, ordered, s.board, given, d);
    }
    assert s.unplaced == listed + given;
    FinalPhaseIgnoresListed(ordered, |ordered|, base, s.board, listed, given, world, oracle, s.k);
    FinalConserves(ordered, base, s.board, given, world, oracle, s.k);
    FinalBooks(
      step1, ordered, s.board, given, FinalUpTo(ordered, |ordered|, base, s.board, given, world, oracle, s.k).value,
      ItinerarySpec(step1, world, oracle).value);
  }

  lemma {:induction false} BoardIsNotListed(
    step1: Step1Plan, ordered: seq<Date>, board: Board, given: seq<ItineraryUnplaced>, d: Date)
    requires SeparateInput(step1) && d in ordered && d in board
    requires multiset(Held(ordered, board)) + multiset(LeftOut(given)) == multiset(PlannedAttractions(step1.days))
    ensures NotListed(InitialUnplaced(step1.unplaced), board[d])
  {
    hide Held, PlannedAttractions;
    HeldContains(ordered, board, d);
    InitialUnplacedAttractions(step1.unplaced);
    var listed := InitialUnplaced(step1.unplaced);
    forall a, u | a in board[d] && u in listed
      ensures a.attraction.id != u.attraction.id
    {
      var i :| 0 <= i < |board[d]| && board[d][i] == a;
      assert AllocationAttractions(board[d])[i] in multiset(AllocationAttractions(board[d]));
      assert a.attraction in multiset(PlannedAttractions(step1.days));
      var j :| 0 <= j < |listed| && listed[j] == u;
      assert LeftOut(listed)[j] == u.attraction;
    }
  }

  /** If the search is a function of the question, every rescue is durable: the attraction is
      visited on its new date in the final plan, and nothing on that date is unplaced.  Step 1's
      own moves come first on the list of reassignments. */
  lemma {:induction false} RescuesAreDurable(step1: Step1Plan, world: World, oracle: Oracle)
    requires OracleObeys(world, oracle) && ItinerarySpec(step1, world, oracle).Ok? && Deterministic(oracle)
    ensures
      var plan, moved := ItinerarySpec(step1, world, oracle).value, InitialReassignments(step1.days);
      && |moved| <= |plan.reassignments| && plan.reassignments[..|moved|] == moved
      && forall j :: |moved| <= j < |plan.reassignments| ==> Durable(plan, plan.reassignments[j])
  {
    hide OracleObeys, BaseOf, BoardOf, SortedSet, InitialReassignments, InitialUnplaced, RescuedSpec, FinalUpTo,
         AllocatedIds, Held, PlannedAttractions, CanRoute, LeftOut, Settled, Deterministic, BoardAdmissible, BoardFitting,
         DistinctIds, FinalDay, Durable, Consistent;
    ItineraryRoutesIff(step1, world, oracle);
    CanRouteFacts(step1, world);
    RescuedOutcome(step1, world, oracle);
    var s := RescuedSpec(step1, world, oracle).value;
    var ordered, base := DatesOf(step1.days), BaseOf(step1.days);
    FinalBoardIsDistinct(step1, world, ordered, s.board, s.unplaced[|InitialUnplaced(step1.unplaced)|..]);
    ConsistentKeys(ordered, base, s.board);
    FinalDaysHold(ordered, |ordered|, base, s.board, s.unplaced, world, oracle, s.k);
    var plan := ItinerarySpec(step1, world, oracle).value;
    forall j | |InitialReassignments(step1.days)| <= j < |s.reassignments|
      ensures Durable(plan, s.reassignments[j])
    {
      SettledIsDurable(ordered, base, s.board, world, oracle, plan, s.reassignments[j]);
    }
  }

  // ---- the steps of its proof ------------------------------------------------------------------------

  lemma {:induction false} ConsistentKeys(ordered: seq<Date>, base: map<Date, DayPlan>, board: Board)
    requires Consistent(ordered, base, board)
    ensures StrictlyIncreasing(ordered) && forall d :: d in ordered ==> d in base && d in board
  {
  }

  lemma {:induction false} InitialUnplacedAttractions(unplaced: seq<UnplacedAttraction>)
    ensures LeftOut(InitialUnplaced(unplaced)) == A.UnplacedAttractionsOf(unplaced)
  {
  }

  /** After the first phase the board is still consistent, and admissible if it was. */
  lemma {:induction false} CollectedFacts(
    ordered: seq<Date>, base: map<Date, DayPlan>, initial: Board, board: Board, unsorted: seq<Dropped>,
    dropped: seq<Dropped>, weather: Weather)
    requires Consistent(ordered, base, initial) && Collected(ordered, |ordered|, initial, board, unsorted)
    requires multiset(dropped) == multiset(unsorted)
    ensures Consistent(ordered, base, board)
    ensures multiset(DroppedAttractions(dropped)) == multiset(DroppedAttractions(unsorted))
    ensures BoardAdmissible(initial, weather) ==> BoardAdmissible(board, weather)
    ensures BoardFitting(initial) ==> BoardFitting(board) && DropsLongEnough(dropped)
  {
    hide MayVisitOn, MinimumDuration;
    MapMultiset((x: Dropped) => x.allocation.attraction, dropped, unsorted);
    MultisetMembers(dropped, unsorted);
    if BoardAdmissible(initial, weather) {
      forall d, i | d in board && 0 <= i < |board[d]|
        ensures Admissible(board[d][i], d, weather)
      {
        assert board[d][i] in board[d];
        var j :| 0 <= j < |initial[d]| && initial[d][j] == board[d][i];
      }
    }
    if BoardFitting(initial) {
      forall d | d in board
        ensures AllFitting(board[d], d)
      {
        assert AllFitting(initial[d], d);
      }
      forall i | 0 <= i < |dropped|
        ensures LongEnough(dropped[i])
      {
        var x := dropped[i];
        assert x in dropped;
        assert AllFitting(initial[x.source], x.source);
      }
    }
  }

  lemma {:induction false} FinalBoardIsDistinct(
    step1: Step1Plan, world: World, ordered: seq<Date>, board: Board, given: seq<ItineraryUnplaced>)
    requires CanRoute(step1, world)
    requires multiset(Held(ordered, board)) + multiset(LeftOut(given)) == multiset(PlannedAttractions(step1.days))
    ensures DistinctIds(Held(ordered, board))
    ensures world.bufferRatio >= 1.0 || forall d :: d in board && d in ordered ==> board[d] == []
  {
    hide Held, PlannedAttractions, DistinctIds, LeftOut, CanRoute;
    CanRouteFacts(step1, world);
    DistinctIdsPart(Held(ordered, board), PlannedAttractions(step1.days));
    if world.bufferRatio < 1.0 {
      PlannedIsEmpty(step1.days);
      forall d | d in board && d in ordered
        ensures board[d] == []
      {
        HeldContains(ordered, board, d);
        CountsNothing(AllocationAttractions(board[d]));
        assert |AllocationAttractions(board[d])| == |board[d]|;
      }
    }
  }

  lemma {:induction false} FinalBooks(
    step1: Step1Plan, ordered: seq<Date>, board: Board, given: seq<ItineraryUnplaced>, f: Finished, plan: ItineraryPlan)
    requires plan.dataRejected == step1.dataRejected && plan.days == RoutedDays(f.segmented)
    requires plan.unplaced == InitialUnplaced(step1.unplaced) + f.unplaced
    requires multiset(Held(ordered, board)) + multiset(LeftOut(given)) == multiset(PlannedAttractions(step1.days))
    requires multiset(ScheduledOn(RoutedDays(f.segmented))) + multiset(LeftOut(f.unplaced))
      == multiset(Held(ordered, board)) + multiset(LeftOut(given))
    ensures multiset(Outcomes(plan)) == multiset(Step1Attractions(step1))
  {
    hide Held, PlannedAttractions, ScheduledOn, LeftOut;
    InitialUnplacedAttractions(step1.unplaced);
    LeftOutConcat(InitialUnplaced(step1.unplaced), f.unplaced);
  }

  lemma {:induction false} LeftOutConcat(a: seq<ItineraryUnplaced>, b: seq<ItineraryUnplaced>)
    ensures LeftOut(a + b) == LeftOut(a) + LeftOut(b)
  {
  }

  /** What the final phase established for every date, ready for the safety argument. */
  ghost predicate FinalDays(
    ordered: seq<Date>, base: map<Date, DayPlan>, board: Board, world: World, oracle: Oracle, plan: ItineraryPlan)
    requires OracleObeys(world, oracle)
  {
    && |plan.segmentedDays| == |plan.validations| == |ordered|
    && plan.days == RoutedDays(plan.segmentedDays)
    && forall i :: 0 <= i < |ordered| ==>
         ordered[i] in base && ordered[i] in board
         && FinalDay(PlanOn(base, board, ordered[i]), world, oracle, plan.segmentedDays[i], plan.validations[i])
  }

  lemma {:induction false} FinalDayIsSafe(plan: DayPlan, world: World, oracle: Oracle, day: SegmentedDay, validation: RouteValidation)
    requires OracleObeys(world, oracle)
    requires FinalDay(plan, world, oracle, day, validation)
    requires forall i :: 0 <= i < |plan.allocations| ==>
      Admissible(plan.allocations[i], plan.visitDate, world.weather)
    ensures validation == RouteValidation(true, [])
    ensures HardFeasible(day.routedDay, world) && SoundRoute(day.routedDay, world) && PeriodsCurrent(day.routedDay.visits)
    ensures P.DinnerServed(day, DEFAULT_SETTINGS) && P.FullDinnerKept(day, world, DEFAULT_SETTINGS)
  {
    hide OracleObeys, ObeysModel, SegmentSpec, SoundRoute, PeriodsCurrent, Admissible, HardFeasible, Violations,
         P.DinnerServed, P.FullDinnerKept;
    var k: nat :| SegmentSpec(plan, world, oracle, k, DEFAULT_SETTINGS) == Ok(day);
    FinalDayFacts(plan, world, oracle, k);
    AdmissibleDayIsValid(plan, day.routedDay, world);
    ValidIffHardFeasible(day.routedDay, world);
  }

  lemma {:induction false} FinalDaysAreSafe(
    ordered: seq<Date>, base: map<Date, DayPlan>, board: Board, world: World, oracle: Oracle, plan: ItineraryPlan)
    requires OracleObeys(world, oracle) && Consistent(ordered, base, board)
    requires BoardAdmissible(board, world.weather) && FinalDays(ordered, base, board, world, oracle, plan)
    requires plan.valid <==> forall i :: 0 <= i < |plan.validations| ==> plan.validations[i].valid
    ensures HardSafe(plan, world)
  {
    hide OracleObeys, FinalDay, Admissible, HardFeasible, SoundRoute, PeriodsCurrent, P.DinnerServed, P.FullDinnerKept;
    forall i | 0 <= i < |ordered|
      ensures
        && plan.validations[i] == RouteValidation(true, [])
        && HardFeasible(plan.days[i], world) && SoundRoute(plan.days[i], world) && PeriodsCurrent(plan.days[i].visits)
        && P.DinnerServed(plan.segmentedDays[i], DEFAULT_SETTINGS)
        && P.FullDinnerKept(plan.segmentedDays[i], world, DEFAULT_SETTINGS)
    {
      var d := ordered[i];
      assert d in ordered;
      FinalDayIsSafe(PlanOn(base, board, d), world, oracle, plan.segmentedDays[i], plan.validations[i]);
    }
  }

  lemma {:induction false} SettledIsDurable(
    ordered: seq<Date>, base: map<Date, DayPlan>, board: Board, world: World, oracle: Oracle, plan: ItineraryPlan,
    r: Reassignment)
    requires OracleObeys(world, oracle) && Consistent(ordered, base, board)
    requires FinalDays(ordered, base, board, world, oracle, plan)
    requires DistinctIds(Held(ordered, board))
    requires Settled(r, base, board, world, oracle)
    ensures Durable(plan, r)
  {
    hide OracleObeys, ObeysModel, SegmentSpec, Held, DistinctIds, ValidationSpec, SoundRoute, PeriodsCurrent,
         VisitAttractions, AllocationAttractions, Accounted, P.DinnerServed, P.FullDinnerKept;
    var d := r.toDate;
    assert d in ordered;
    var i :| 0 <= i < |ordered| && ordered[i] == d;
    var dayPlan, day := PlanOn(base, board, d), plan.segmentedDays[i];
    assert FinalDay(dayPlan, world, oracle, day, plan.validations[i]);
    var k: nat :| SegmentSpec(dayPlan, world, oracle, k, DEFAULT_SETTINGS) == Ok(day);
    assert AllVisited(dayPlan, world, oracle, k);
    FinalDayFacts(dayPlan, world, oracle, k);
    HeldContains(ordered, board, d);
    DistinctIdsPart(AllocationAttractions(board[d]), Held(ordered, board));
    AllVisitedLeavesNobody(dayPlan, day.routedDay);
    MultisetMembers(VisitAttractions(day.routedDay.visits), AllocationAttractions(board[d]));
    assert plan.days[i] == day.routedDay;
  }
}
