/** What the finished itinerary reports about its rescues: the moves in the order they were tried,
    and for whoever was given up every other date with its refusal. */
module RescueReport {
  import opened Prelude
  import opened Models
  import opened Validation
  import opened Routing
  import opened Segments
  import opened Itinerary
  import opened BoardFacts
  import opened Phases
  import opened FinalPhase
  import opened AssignmentProofs
  import opened Planner
  import opened RescueOrder
  import A = Assignment

  // ---- the order of the drops --------------------------------------------------------------------

  /** Earlier days first, and on one day by id. */
  predicate DropsInOrder(dropped: seq<Dropped>) {
    forall i, j :: 0 <= i < j < |dropped| ==>
      || dropped[i].source < dropped[j].source
      || (dropped[i].source == dropped[j].source
          && dropped[i].allocation.attraction.id < dropped[j].allocation.attraction.id)
  }

  predicate MovedBefore(r: Reassignment, s: Reassignment) {
    r.fromDate < s.fromDate || (r.fromDate == s.fromDate && r.attraction.id < s.attraction.id)
  }

  lemma {:induction false} ByDateAndIdIsPreorder()
    ensures TotalPreorder(ByDateAndId())
  {
  }

  lemma {:induction false} DistinctIdsDiffer(attractions: seq<Attraction>)
    requires DistinctIds(attractions)
    ensures forall i, j :: 0 <= i < j < |attractions| ==> attractions[i].id != attractions[j].id
  {
    var ids := Map(IdOf, attractions);
    forall i, j | 0 <= i < j < |attractions|
      ensures attractions[i].id != attractions[j].id
    {
      assert ids[i] != ids[j];
    }
  }

  lemma {:induction false} SortedDropsInOrder(unsorted: seq<Dropped>)
    requires DistinctIds(DroppedAttractions(unsorted))
    ensures DropsInOrder(Sort(unsorted, ByDateAndId()))
  {
    hide Sort, TotalPreorder, DistinctIds;
    var dropped := Sort(unsorted, ByDateAndId());
    ByDateAndIdIsPreorder();
    MapMultiset((x: Dropped) => x.allocation.attraction, unsorted, dropped);
    DistinctIdsPermute(DroppedAttractions(unsorted), DroppedAttractions(dropped));
    DistinctIdsDiffer(DroppedAttractions(dropped));
    var attractions := DroppedAttractions(dropped);
    assert SortedBy(dropped, ByDateAndId());
    forall i, j | 0 <= i < j < |dropped|
      ensures
        || dropped[i].source < dropped[j].source
        || (dropped[i].source == dropped[j].source
            && dropped[i].allocation.attraction.id < dropped[j].allocation.attraction.id)
    {
      assert attractions[i].id != attractions[j].id && ByDateAndId()(dropped[i], dropped[j]);
    }
  }

  // ---- what the loop records -----------------------------------------------------------------------

  /** The move is that of one of the first `n` drops. */
  ghost predicate MoveOf(dropped: seq<Dropped>, n: nat, ordered: seq<Date>, r: Reassignment)
    requires n <= |dropped|
  {
    && r.toDate in ordered && r.toDate != r.fromDate
    && exists k :: 0 <= k < n && dropped[k].source == r.fromDate && dropped[k].allocation.attraction == r.attraction
  }

  /** The attempts name every date but `source`. */
  ghost predicate AllBut(ordered: seq<Date>, attempts: seq<RoutingAttempt>, source: Date) {
    && source in ordered && !Named(attempts, source)
    && forall d :: d in ordered && d != source ==> Named(attempts, d)
  }

  /** Every date but one refused, the nearest to the preferred date first, each for a reason. */
  ghost predicate RefusedEverywhere(ordered: seq<Date>, u: ItineraryUnplaced) {
    && (forall i :: 0 <= i < |u.attempts| ==> u.attempts[i].codes != [])
    && (forall i, j :: 0 <= i < j < |u.attempts| ==>
          Sooner(u.preferredDate, u.attempts[i].visitDate, u.attempts[j].visitDate))
    && (forall i :: 0 <= i < |u.attempts| ==> u.attempts[i].visitDate in ordered)
    && exists source :: AllBut(ordered, u.attempts, source)
  }

  /** What the loop added to the two lists it was given. */
  ghost predicate Reported(dropped: seq<Dropped>, n: nat, ordered: seq<Date>, start: Settlement, s: Settlement)
    requires n <= |dropped|
  {
    var p, q := |start.reassignments|, |start.unplaced|;
    && p <= |s.reassignments| && s.reassignments[..p] == start.reassignments
    && q <= |s.unplaced| && s.unplaced[..q] == start.unplaced
    && (forall j :: p <= j < |s.reassignments| ==> MoveOf(dropped, n, ordered, s.reassignments[j]))
    && (forall i, j :: p <= i < j < |s.reassignments| ==> MovedBefore(s.reassignments[i], s.reassignments[j]))
    && (forall j :: q <= j < |s.unplaced| ==> RefusedEverywhere(ordered, s.unplaced[j]))
    && (|s.reassignments| - p) + (|s.unplaced| - q) == n
  }

  lemma {:induction false} GivenUpIsRefused(
    x: Dropped, ordered: seq<Date>, base: map<Date, DayPlan>, board: Board, rescue: Rescue, world: World, oracle: Oracle,
    start: nat)
    requires OracleObeys(world, oracle) && forall d :: d in ordered ==> d in base && d in board
    requires NearestTaken(x, ordered, base, board, rescue, world, oracle, start) && rescue.target.None?
    requires x.source in ordered
    ensures RefusedEverywhere(
      ordered, ItineraryUnplaced(x.allocation.attraction, x.allocation.preferredDate, x.code, rescue.attempts))
  {
    hide OracleObeys, Trial, Sooner;
    forall i | 0 <= i < |rescue.attempts|
      ensures rescue.attempts[i].codes != []
    {
      assert Refused(x, rescue.attempts[i].visitDate, rescue.attempts[i], base, board, world, oracle, start + 2 * i);
    }
    assert AllBut(ordered, rescue.attempts, x.source);
  }

  lemma {:induction false} MoveOfLater(dropped: seq<Dropped>, n: nat, m: nat, ordered: seq<Date>, r: Reassignment)
    requires n <= m <= |dropped| && MoveOf(dropped, n, ordered, r)
    ensures MoveOf(dropped, m, ordered, r)
  {
  }

  lemma {:induction false} LastMoveComesLast(dropped: seq<Dropped>, n: nat, ordered: seq<Date>, r: Reassignment, last: Reassignment)
    requires n < |dropped| && DropsInOrder(dropped) && MoveOf(dropped, n, ordered, r)
    requires last.fromDate == dropped[n].source && last.attraction == dropped[n].allocation.attraction
    ensures MovedBefore(r, last)
  {
  }

  lemma {:induction false} RoundIsReported(
    dropped: seq<Dropped>, n: nat, ordered: seq<Date>, base: map<Date, DayPlan>, start: Settlement, s: Settlement,
    world: World, oracle: Oracle)
    requires OracleObeys(world, oracle) && n < |dropped| && StrictlyIncreasing(ordered) && DropsInOrder(dropped)
    requires dropped[n].source in ordered
    requires forall d :: d in ordered ==> d in base && d in s.board
    requires Reported(dropped, n, ordered, start, s) && AfterRescue(dropped[n], ordered, base, s, world, oracle).Ok?
    ensures Reported(dropped, n + 1, ordered, start, AfterRescue(dropped[n], ordered, base, s, world, oracle).value)
  {
    hide OracleObeys, AfterRescue, NearestTaken, RefusedEverywhere, MoveOf, DropsInOrder, MovedBefore;
    var x, after := dropped[n], AfterRescue(dropped[n], ordered, base, s, world, oracle).value;
    var rescue := RoundTakesNearestDate(x, ordered, base, s, world, oracle);
    forall j | |start.reassignments| <= j < |s.reassignments|
      ensures MoveOf(dropped, n + 1, ordered, s.reassignments[j])
    {
      MoveOfLater(dropped, n, n + 1, ordered, s.reassignments[j]);
    }
    if rescue.target.Some? {
      var last := Reassignment(x.allocation.attraction, x.source, rescue.target.value);
      TakenIsMove(dropped, n, ordered, base, s.board, rescue, world, oracle, s.k);
      forall j | |start.reassignments| <= j < |s.reassignments|
        ensures MovedBefore(s.reassignments[j], last)
      {
        LastMoveComesLast(dropped, n, ordered, s.reassignments[j], last);
      }
    } else {
      GivenUpIsRefused(x, ordered, base, s.board, rescue, world, oracle, s.k);
    }
  }

  lemma {:induction false} TakenIsMove(
    dropped: seq<Dropped>, n: nat, ordered: seq<Date>, base: map<Date, DayPlan>, board: Board, rescue: Rescue,
    world: World, oracle: Oracle, start: nat)
    requires OracleObeys(world, oracle) && n < |dropped| && forall d :: d in ordered ==> d in base && d in board
    requires NearestTaken(dropped[n], ordered, base, board, rescue, world, oracle, start) && rescue.target.Some?
    ensures
      var x := dropped[n];
      MoveOf(dropped, n + 1, ordered, Reassignment(x.allocation.attraction, x.source, rescue.target.value))
  {
    hide OracleObeys, Trial, RefusedInOrder, Named, Sooner;
  }

  lemma {:induction false} LoopIsReported(
    dropped: seq<Dropped>, n: nat, ordered: seq<Date>, base: map<Date, DayPlan>, start: Settlement,
    world: World, oracle: Oracle)
    requires OracleObeys(world, oracle) && n <= |dropped| && StrictlyIncreasing(ordered) && DropsInOrder(dropped)
    requires forall x :: x in dropped ==> x.source in ordered
    requires forall d :: d in ordered ==> d in base && d in start.board
    requires RescuesUpTo(dropped, n, ordered, base, start, world, oracle).Ok?
    ensures Reported(dropped, n, ordered, start, RescuesUpTo(dropped, n, ordered, base, start, world, oracle).value)
  {
    hide OracleObeys, AfterRescue, MoveOf, MovedBefore, RefusedEverywhere, DropsInOrder;
    if n > 0 {
      hide Reported;
      LoopIsReported(dropped, n - 1, ordered, base, start, world, oracle);
      var before := RescuesUpTo(dropped, n - 1, ordered, base, start, world, oracle).value;
      RoundIsReported(dropped, n - 1, ordered, base, start, before, world, oracle);
    }
  }

  // ---- the final phase only appends ------------------------------------------------------------------

  /** Behind the entries it was given, a list holds final drops: nobody tried to move them. */
  predicate AppendsDrops(before: seq<ItineraryUnplaced>, after: seq<ItineraryUnplaced>) {
    && |before| <= |after| && after[..|before|] == before
    && forall j :: |before| <= j < |after| ==> after[j].attempts == []
  }

  /** The entry is one of the drops, with its code and the preferred date of the allocation. */
  predicate DropOf(allocations: seq<DayAllocation>, drops: seq<RouteUnplaced>, u: ItineraryUnplaced) {
    && RouteUnplaced(u.attraction, u.code) in drops
    && exists i :: 0 <= i < |allocations| && allocations[i].attraction.id == u.attraction.id
         && allocations[i].preferredDate == u.preferredDate
  }

  lemma {:induction false} PreferredIsAllocated(allocations: seq<DayAllocation>, id: int)
    ensures PreferredOf(allocations, id).Some? ==>
      exists i :: 0 <= i < |allocations| && allocations[i].attraction.id == id
        && allocations[i].preferredDate == PreferredOf(allocations, id).value
  {
    if allocations != [] && allocations[|allocations| - 1].attraction.id != id && PreferredOf(allocations, id).Some? {
      var front := allocations[..|allocations| - 1];
      PreferredIsAllocated(front, id);
      var i :| 0 <= i < |front| && front[i].attraction.id == id && front[i].preferredDate == PreferredOf(front, id).value;
      assert allocations[i] == front[i];
    }
  }

  /** What a final route dropped is listed with the code and the preferred date it had, unless its id
      was listed already. */
  lemma {:induction false} DropsAreListed(
    allocations: seq<DayAllocation>, drops: seq<RouteUnplaced>, n: nat, before: seq<ItineraryUnplaced>)
    requires n <= |drops| && DropsAdded(allocations, drops, n, before).Ok?
    ensures
      var after := DropsAdded(allocations, drops, n, before).value;
      && AppendsDrops(before, after)
      && (forall j :: |before| <= j < |after| ==> DropOf(allocations, drops, after[j]) && !HasId(after[..j], after[j].attraction.id))
      && (forall i :: 0 <= i < n ==> HasId(after, drops[i].attraction.id))
  {
    hide HasId, PreferredOf;
    if n > 0 {
      DropsAreListed(allocations, drops, n - 1, before);
      var front, after := DropsAdded(allocations, drops, n - 1, before).value, DropsAdded(allocations, drops, n, before).value;
      var drop := drops[n - 1];
      if after != front {
        PreferredIsAllocated(allocations, drop.attraction.id);
        var u := after[|front|];
        assert after == front + [u] && RouteUnplaced(u.attraction, u.code) == drop;
        assert drop in drops && after[..|front|] == front;
        forall id
          ensures HasId(after, id) <==> HasId(front, id) || id == u.attraction.id
        {
          AppendHasId(front, u, id);
        }
        forall j | |before| <= j < |front|
          ensures after[j] == front[j] && after[..j] == front[..j]
        {
        }
      }
    }
  }

  lemma {:induction false} FinalPhaseAppends(
    ordered: seq<Date>, n: nat, base: map<Date, DayPlan>, board: Board, leftOut: seq<ItineraryUnplaced>,
    world: World, oracle: Oracle, start: nat)
    requires OracleObeys(world, oracle) && n <= |ordered| && forall d :: d in ordered ==> d in base && d in board
    requires FinalUpTo(ordered, n, base, board, leftOut, world, oracle, start).Ok?
    ensures AppendsDrops(leftOut, FinalUpTo(ordered, n, base, board, leftOut, world, oracle, start).value.unplaced)
  {
    hide OracleObeys, SegmentSpec, ValidationSpec, DropsAdded;
    if n > 0 {
      FinalPhaseAppends(ordered, n - 1, base, board, leftOut, world, oracle, start);
      var before := FinalUpTo(ordered, n - 1, base, board, leftOut, world, oracle, start).value;
      var plan, k := PlanOn(base, board, ordered[n - 1]), start + 2 * (n - 1);
      var day := SegmentSpec(plan, world, oracle, k, DEFAULT_SETTINGS).value.routedDay;
      DropsAreListed(plan.allocations, day.unplaced, |day.unplaced|, before.unplaced);
    }
  }

  // ---- what step 1 reported already -----------------------------------------------------------------

  predicate MovedOnDay(allocations: seq<DayAllocation>, r: Reassignment) {
    exists j :: 0 <= j < |allocations|
      && allocations[j].preferredDate != allocations[j].assignedDate
      && r == Reassignment(allocations[j].attraction, allocations[j].preferredDate, allocations[j].assignedDate)
  }

  lemma {:induction false} MovesOfDay(allocations: seq<DayAllocation>, r: Reassignment)
    ensures r in MovesOf(allocations) <==> MovedOnDay(allocations, r)
  {
    if allocations != [] {
      var front := allocations[..|allocations| - 1];
      MovesOfDay(front, r);
      if MovedOnDay(front, r) {
        var j :| 0 <= j < |front| && front[j].preferredDate != front[j].assignedDate
          && r == Reassignment(front[j].attraction, front[j].preferredDate, front[j].assignedDate);
        assert allocations[j] == front[j];
      }
    }
  }

  predicate MovedByStep1(days: seq<DayPlan>, r: Reassignment) {
    exists i :: 0 <= i < |days| && MovedOnDay(days[i].allocations, r)
  }

  /** Step 1's own moves are its allocations away from their preferred date. */
  lemma {:induction false} InitialMovesAreExact(days: seq<DayPlan>, r: Reassignment)
    ensures r in InitialReassignments(days) <==> MovedByStep1(days, r)
  {
    if days != [] {
      hide MovesOf, MovedOnDay;
      var front, last := days[..|days| - 1], days[|days| - 1];
      InitialMovesAreExact(front, r);
      MovesOfDay(last.allocations, r);
      if MovedByStep1(front, r) {
        var i :| 0 <= i < |front| && MovedOnDay(front[i].allocations, r);
        assert MovedOnDay(days[i].allocations, r);
      }
    }
  }

  lemma {:induction false} AttemptsAreRejections(rejections: seq<DateRejection>)
    requires forall i :: 0 <= i < |rejections| ==> rejections[i].reasons != []
    ensures |AttemptsOf(rejections)| == |rejections|
    ensures forall i :: 0 <= i < |rejections| ==>
      AttemptsOf(rejections)[i] == RoutingAttempt(rejections[i].visitDate, rejections[i].reasons)
  {
    if rejections != [] { AttemptsAreRejections(rejections[..|rejections| - 1]); }
  }

  /** An attraction step 1 left out is listed with its code, and with every date's reasons. */
  lemma {:induction false} InitialUnplacedAreExact(unplaced: seq<UnplacedAttraction>, trip: A.Trip, k: nat)
    requires k < |unplaced| && Justified(unplaced[k], trip)
    ensures
      var u, listed := unplaced[k], InitialUnplaced(unplaced);
      && |listed| == |unplaced|
      && listed[k].attraction == u.attraction && listed[k].preferredDate == u.preferredDate
      && listed[k].code == u.rejectionCode && |listed[k].attempts| == |trip.dates|
      && forall i :: 0 <= i < |trip.dates| ==>
           listed[k].attempts[i] == RoutingAttempt(trip.dates[i], u.dateRejections[i].reasons)
  {
    AttemptsAreRejections(unplaced[k].dateRejections);
  }

  // ---- the itinerary -----------------------------------------------------------------------------------

  /** Up to `given` the list holds who was given up, behind it who was dropped at the very end. */
  ghost predicate GivenUpUpTo(ordered: seq<Date>, unplaced: seq<ItineraryUnplaced>, first: nat, given: nat) {
    && first <= given <= |unplaced|
    && (forall j :: first <= j < given ==> RefusedEverywhere(ordered, unplaced[j]))
    && (forall j :: given <= j < |unplaced| ==> unplaced[j].attempts == [])
  }

  /** The itinerary's lists begin with step 1's own; the moves behind them are in the order of
      their old date and id and lead to another trip date; an attraction given up behind them names
      every date but one with its refusals, nearest to its preferred date first; and one dropped at
      the very end has no attempts. */
  ghost predicate RescuesReported(step1: Step1Plan, plan: ItineraryPlan) {
    var ordered, moved, listed := DatesOf(step1.days), InitialReassignments(step1.days), InitialUnplaced(step1.unplaced);
    && |moved| <= |plan.reassignments| && plan.reassignments[..|moved|] == moved
    && |listed| <= |plan.unplaced| && plan.unplaced[..|listed|] == listed
    && (forall j :: |moved| <= j < |plan.reassignments| ==>
          var r := plan.reassignments[j];
          r.fromDate in ordered && r.toDate in ordered && r.fromDate != r.toDate)
    && (forall i, j :: |moved| <= i < j < |plan.reassignments| ==> MovedBefore(plan.reassignments[i], plan.reassignments[j]))
    && exists given: nat :: GivenUpUpTo(ordered, plan.unplaced, |listed|, given)
  }

  lemma {:induction false} CollectedInOrder(step1: Step1Plan, world: World, board: Board, unsorted: seq<Dropped>)
    requires CanRoute(step1, world)
    requires
      Collected(DatesOf(step1.days), |DatesOf(step1.days)|, BoardOf(step1.days), board, unsorted)
    ensures DropsInOrder(Sort(unsorted, ByDateAndId()))
    ensures forall x :: x in Sort(unsorted, ByDateAndId()) ==> x.source in DatesOf(step1.days)
  {
    hide SortedSet, Sort, Held, DroppedAttractions, PlannedAttractions, BoardOf, BaseOf, DistinctIds, DropsInOrder, CanRoute;
    CanRouteFacts(step1, world);
    BoardHoldsPlanned(step1.days, DatesOf(step1.days));
    DistinctIdsPart(DroppedAttractions(unsorted), PlannedAttractions(step1.days));
    SortedDropsInOrder(unsorted);
    MultisetMembers(unsorted, Sort(unsorted, ByDateAndId()));
  }

  lemma {:induction false} RescuesAreReported(step1: Step1Plan, world: World, oracle: Oracle)
    requires OracleObeys(world, oracle) && ItinerarySpec(step1, world, oracle).Ok?
    ensures RescuesReported(step1, ItinerarySpec(step1, world, oracle).value)
  {
    hide OracleObeys, BaseOf, BoardOf, SortedSet, Sort, InitialReassignments, InitialUnplaced, RoutesUpTo, CollectedUpTo,
         RescuesUpTo, FinalUpTo, AllocatedIds, Held, PlannedAttractions, CanRoute, Reported, DropsInOrder, Collected;
    ItineraryRoutesIff(step1, world, oracle);
    var ordered, base, initial := DatesOf(step1.days), BaseOf(step1.days), BoardOf(step1.days);
    BoardHoldsPlanned(step1.days, ordered);
    var routes := RoutesUpTo(ordered, |ordered|, base, world, oracle);
    RoutesCoverDates(ordered, |ordered|, base, world, oracle);
    CollectingConserves(ordered, |ordered|, initial, routes.value);
    var (board, unsorted) := CollectedUpTo(ordered, |ordered|, initial, routes.value);
    CollectedInOrder(step1, world, board, unsorted);
    var dropped := Sort(unsorted, ByDateAndId());
    var start := Settlement(board, InitialUnplaced(step1.unplaced), InitialReassignments(step1.days), 2 * |ordered|);
    LoopIsReported(dropped, |dropped|, ordered, base, start, world, oracle);
    var s := RescuesUpTo(dropped, |dropped|, ordered, base, start, world, oracle).value;
    FinalPhaseAppends(ordered, |ordered|, base, s.board, s.unplaced, world, oracle, s.k);
    var f := FinalUpTo(ordered, |ordered|, base, s.board, s.unplaced, world, oracle, s.k).value;
    ReportedInPlan(step1, dropped, ordered, start, s, ItinerarySpec(step1, world, oracle).value);
  }

  lemma {:induction false} ReportedInPlan(
    step1: Step1Plan, dropped: seq<Dropped>, ordered: seq<Date>, start: Settlement, s: Settlement, plan: ItineraryPlan)
    requires ordered == DatesOf(step1.days) && Reported(dropped, |dropped|, ordered, start, s)
    requires start.reassignments == InitialReassignments(step1.days) && start.unplaced == InitialUnplaced(step1.unplaced)
    requires forall x :: x in dropped ==> x.source in ordered
    requires plan.reassignments == s.reassignments && AppendsDrops(s.unplaced, plan.unplaced)
    ensures RescuesReported(step1, plan)
  {
    hide InitialReassignments, InitialUnplaced, SortedSet, RefusedEverywhere, MovedBefore;
    var given := |s.unplaced|;
    forall j | |start.unplaced| <= j < given
      ensures RefusedEverywhere(ordered, plan.unplaced[j])
    {
      assert plan.unplaced[j] == plan.unplaced[..given][j];
    }
    assert GivenUpUpTo(ordered, plan.unplaced, |start.unplaced|, given);
    assert plan.unplaced[..|start.unplaced|] == plan.unplaced[..given][..|start.unplaced|];
    forall j | |start.reassignments| <= j < |plan.reassignments|
      ensures plan.reassignments[j].fromDate in ordered
    {
      assert MoveOf(dropped, |dropped|, ordered, s.reassignments[j]);
      var k :| 0 <= k < |dropped| && dropped[k].source == s.reassignments[j].fromDate
        && dropped[k].allocation.attraction == s.reassignments[j].attraction;
      assert dropped[k] in dropped;
    }
  }
}
