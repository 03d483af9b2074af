/** One day's route: the constraints put on the search, and the decoding of the
    successor array it returns.

    Index 0 is the depot, indices 1 to n are the day's allocations, index n + 1 is the
    end of the route.  A node that is its own successor is dropped. */
module Routing {
  import opened Prelude
  import opened Models
  import opened TimeWindows
  import opened VisitPeriods
  import opened Timeline

  datatype SearchAnswer =
    | NoSolution(timedOut: bool)
    | Solution(next: seq<int>, cumul: seq<int>)

  /** Minutes between the cumulative times of consecutive indices. */
  function Transit(plan: DayPlan, world: World, from: int, to: int): int
    requires 1 <= from <= |plan.allocations| && 1 <= to <= |plan.allocations| + 1
  {
    var origin := plan.allocations[from - 1];
    if to == |plan.allocations| + 1 then origin.requiredDurationMin
    else
      var travel := world.provider(origin.attraction.id, plan.allocations[to - 1].attraction.id);
      origin.requiredDurationMin + (if travel.Some? then Buffered(travel.value, world.bufferRatio) else 0)
  }

  predicate HasArc(plan: DayPlan, world: World, from: int, to: int)
    requires 1 <= from <= |plan.allocations| && 1 <= to <= |plan.allocations| + 1
  {
    to <= |plan.allocations| ==>
      world.provider(plan.allocations[from - 1].attraction.id, plan.allocations[to - 1].attraction.id).Some?
  }

  /** A visited node lies inside its window, and the arc it leaves by has travel data and
      advances the time by service and buffered travel. */
  predicate NodeObeys(plan: DayPlan, world: World, next: seq<int>, cumul: seq<int>, i: int)
    requires 1 <= i <= |plan.allocations|
    requires |next| == |plan.allocations| + 1 && |cumul| == |plan.allocations| + 2
    requires 1 <= next[i] <= |plan.allocations| + 1
  {
    var allocation := plan.allocations[i - 1];
    && FitsDay(allocation.attraction, plan.visitDate, plan.bounds, cumul[i], allocation.requiredDurationMin)
    && HasArc(plan, world, i, next[i])
    && cumul[i] + Transit(plan, world, i, next[i]) <= cumul[next[i]]
  }

  /** The constraints a search result satisfies, and all that is assumed of it: distinct
      successors, a day that starts and ends inside its bounds, and `NodeObeys` for every
      node that is not dropped. */
  ghost predicate ObeysModel(plan: DayPlan, world: World, answer: SearchAnswer) {
    answer.Solution? ==>
      var n, next, cumul := |plan.allocations|, answer.next, answer.cumul;
      && |next| == n + 1 && |cumul| == n + 2
      && (forall i :: 0 <= i <= n ==> 1 <= next[i] <= n + 1)
      && NoDuplicates(next)
      && cumul[0] == plan.bounds.startMin
      && plan.bounds.startMin <= cumul[n + 1] <= plan.bounds.endMin
      && cumul[0] <= cumul[next[0]]
      && (forall i {:trigger NodeObeys(plan, world, next, cumul, i)} ::
            1 <= i <= n && next[i] != i ==> NodeObeys(plan, world, next, cumul, i))
  }

  /** A solution that can be decoded. */
  ghost predicate Decodable(plan: DayPlan, world: World, answer: SearchAnswer) {
    answer.Solution? && ObeysModel(plan, world, answer) && world.bufferRatio >= 1.0
  }

  predicate Active(next: seq<int>, i: int) {
    1 <= i < |next| && next[i] != i
  }

  /** The nodes met from index `i` on.  The walk ends because every step takes service
      time and no time lies beyond the end of the day; nothing else excludes a cycle. */
  ghost function Walk(plan: DayPlan, world: World, answer: SearchAnswer, i: int): (nodes: seq<int>)
    requires Decodable(plan, world, answer)
    requires i == |plan.allocations| + 1 || Active(answer.next, i)
    decreases plan.bounds.endMin - answer.cumul[i]
  {
    if i == |plan.allocations| + 1 then []
    else
      StepAdvances(plan, world, answer, i);
      [i] + Walk(plan, world, answer, answer.next[i])
  }

  lemma {:induction false} StepAdvances(plan: DayPlan, world: World, answer: SearchAnswer, i: int)
    requires Decodable(plan, world, answer)
    requires Active(answer.next, i)
    ensures
      var to := answer.next[i];
      && (to == |plan.allocations| + 1 || Active(answer.next, to))
      && answer.cumul[i] < answer.cumul[to] <= plan.bounds.endMin
  {
    var to := answer.next[i];
    assert NodeObeys(plan, world, answer.next, answer.cumul, i);
    if to <= |plan.allocations| {
      var travel := world.provider(plan.allocations[i - 1].attraction.id, plan.allocations[to - 1].attraction.id);
      BufferedNonNegative(travel.value, world.bufferRatio);
      assert NodeObeys(plan, world, answer.next, answer.cumul, to);
    }
  }

  /** The visited nodes in order. */
  ghost function Tour(plan: DayPlan, world: World, answer: SearchAnswer): seq<int>
    requires Decodable(plan, world, answer)
  {
    StartIsRoutable(plan, world, answer);
    Walk(plan, world, answer, answer.next[0])
  }

  lemma {:induction false} StartIsRoutable(plan: DayPlan, world: World, answer: SearchAnswer)
    requires answer.Solution? && ObeysModel(plan, world, answer)
    ensures answer.next[0] == |plan.allocations| + 1 || Active(answer.next, answer.next[0])
  {
  }

  lemma {:induction false} WalkShape(plan: DayPlan, world: World, answer: SearchAnswer, i: int)
    requires Decodable(plan, world, answer)
    requires i == |plan.allocations| + 1 || Active(answer.next, i)
    ensures
      var nodes := Walk(plan, world, answer, i);
      && (nodes == [] <==> i == |plan.allocations| + 1)
      && (nodes != [] ==> nodes[0] == i)
      && (forall k :: 0 <= k < |nodes| ==> Active(answer.next, nodes[k]))
      && (nodes != [] ==> answer.next[nodes[|nodes| - 1]] == |plan.allocations| + 1)
      && (forall k :: 1 <= k < |nodes| ==> nodes[k] == answer.next[nodes[k - 1]])
    decreases plan.bounds.endMin - answer.cumul[i]
  {
    if i != |plan.allocations| + 1 {
      StepAdvances(plan, world, answer, i);
      WalkShape(plan, world, answer, answer.next[i]);
      var nodes, rest := Walk(plan, world, answer, i), Walk(plan, world, answer, answer.next[i]);
      assert nodes == [i] + rest;
      assert forall k :: 1 <= k < |nodes| ==> nodes[k] == rest[k - 1];
    }
  }

  /** No node is met twice. */
  lemma {:induction false} WalkIsSimple(plan: DayPlan, world: World, answer: SearchAnswer, i: int)
    requires Decodable(plan, world, answer)
    requires i == |plan.allocations| + 1 || Active(answer.next, i)
    ensures NoDuplicates(Walk(plan, world, answer, i))
    ensures forall v :: v in Walk(plan, world, answer, i) ==> 1 <= v < |answer.next| && answer.cumul[i] <= answer.cumul[v]
    decreases plan.bounds.endMin - answer.cumul[i]
  {
    if i != |plan.allocations| + 1 {
      StepAdvances(plan, world, answer, i);
      WalkIsSimple(plan, world, answer, answer.next[i]);
      var rest := Walk(plan, world, answer, answer.next[i]);
      assert i !in rest;
    }
  }

  /** The tour position by position: where it stands and where it goes next. */
  lemma {:induction false} TourStep(plan: DayPlan, world: World, answer: SearchAnswer, k: int)
    requires Decodable(plan, world, answer)
    requires 0 <= k <= |Tour(plan, world, answer)|
    ensures
      var tour := Tour(plan, world, answer);
      && (k > 0 ==> Active(answer.next, tour[k - 1]))
      && answer.next[if k == 0 then 0 else tour[k - 1]] == (if k < |tour| then tour[k] else |plan.allocations| + 1)
      && (k < |tour| ==> Active(answer.next, tour[k]) && answer.cumul[tour[k]] >= 0)
  {
    StartIsRoutable(plan, world, answer);
    WalkShape(plan, world, answer, answer.next[0]);
    var tour := Tour(plan, world, answer);
    if k < |tour| {
      assert NodeObeys(plan, world, answer.next, answer.cumul, tour[k]);
    }
  }

  // ---- all-different successors reach every index -----------------------------

  lemma {:induction false} SubsetCount<T(!new)>(a: set<T>, b: set<T>)
    requires a <= b
    ensures |a| <= |b|
    decreases |a|
  {
    if a != {} {
      var x :| x in a;
      SubsetCount(a - {x}, b - {x});
    }
  }

  lemma {:induction false} DistinctCount(s: seq<int>)
    requires NoDuplicates(s)
    ensures |set x | x in s| == |s|
  {
    if s != [] {
      var front, last := s[..|s| - 1], s[|s| - 1];
      assert s == front + [last];
      DistinctCount(front);
      assert (set x | x in s) == (set x | x in front) + {last};
    }
  }

  /** Distinct successors among as many values hit every value. */
  lemma {:induction false} PredecessorExists(next: seq<int>, v: int) returns (p: int)
    requires NoDuplicates(next) && 1 <= v <= |next|
    requires forall i :: 0 <= i < |next| ==> 1 <= next[i] <= |next|
    ensures 0 <= p < |next| && next[p] == v
  {
    var values := set x | x in next;
    if v !in values {
      DistinctCount(next);
      SubsetCount(values, Range(1, |next| + 1) - {v});
      assert false;
    }
    p :| 0 <= p < |next| && next[p] == v;
  }

  /** Subtour freedom from time alone: a visited node is on the walk from the depot,
      since following predecessors only goes back in time. */
  lemma {:induction false} ActiveIsVisited(plan: DayPlan, world: World, answer: SearchAnswer, v: int)
    requires Decodable(plan, world, answer)
    requires Active(answer.next, v)
    ensures v in Tour(plan, world, answer)
    decreases answer.cumul[v] - plan.bounds.startMin
  {
    var p := PredecessorExists(answer.next, v);
    StartIsRoutable(plan, world, answer);
    WalkShape(plan, world, answer, answer.next[0]);
    var tour := Tour(plan, world, answer);
    if p == 0 {
      assert tour[0] == v;
    } else {
      assert Active(answer.next, p) && NodeObeys(plan, world, answer.next, answer.cumul, p);
      StepAdvances(plan, world, answer, p);
      ActiveIsVisited(plan, world, answer, p);
      var k :| 0 <= k < |tour| && tour[k] == p;
      assert k + 1 < |tour|;
      assert tour[k + 1] == v;
    }
  }

  // ---- decoding -----------------------------------------------------------------

  /** The dropped nodes from `i` on, in ascending order. */
  function DroppedFrom(next: seq<int>, i: int): (nodes: seq<int>)
    requires 1 <= i <= |next|
    ensures forall k :: 0 <= k < |nodes| ==> i <= nodes[k] < |next| && next[nodes[k]] == nodes[k]
    ensures forall v :: i <= v < |next| && next[v] == v ==> v in nodes
    ensures NoDuplicates(nodes)
    decreases |next| - i
  {
    if i == |next| then []
    else if next[i] == i then [i] + DroppedFrom(next, i + 1)
    else DroppedFrom(next, i + 1)
  }

  function MakeVisit(previous: Option<DayAllocation>, allocation: DayAllocation, arrival: int, world: World): RouteVisit {
    var travel :=
      if previous.Some? then world.provider(previous.value.attraction.id, allocation.attraction.id) else None;
    RouteVisit(
      allocation.attraction,
      arrival,
      arrival + allocation.requiredDurationMin,
      allocation.requiredDurationMin,
      travel,
      if travel.Some? then Buffered(travel.value, world.bufferRatio) else 0,
      if allocation.visitPeriod.Some? then Some(EvaluateVisitPeriod(arrival, allocation.visitPeriod.value)) else None)
  }

  ghost function VisitAt(plan: DayPlan, world: World, answer: SearchAnswer, k: int): RouteVisit
    requires Decodable(plan, world, answer)
    requires 0 <= k < |Tour(plan, world, answer)|
  {
    TourStep(plan, world, answer, k);
    var tour := Tour(plan, world, answer);
    MakeVisit(
      if k == 0 then None else Some(plan.allocations[tour[k - 1] - 1]),
      plan.allocations[tour[k] - 1],
      answer.cumul[tour[k]],
      world)
  }

  ghost function DecodedVisits(plan: DayPlan, world: World, answer: SearchAnswer): (visits: seq<RouteVisit>)
    requires Decodable(plan, world, answer)
    ensures |visits| == |Tour(plan, world, answer)|
    ensures forall k :: 0 <= k < |visits| ==> visits[k] == VisitAt(plan, world, answer, k)
  {
    seq(|Tour(plan, world, answer)|,
        k requires 0 <= k < |Tour(plan, world, answer)| => VisitAt(plan, world, answer, k))
  }

  function DropNodes(allocations: seq<DayAllocation>, nodes: seq<int>): seq<RouteUnplaced>
    requires forall k :: 0 <= k < |nodes| ==> 1 <= nodes[k] <= |allocations|
  {
    seq(|nodes|, k requires 0 <= k < |nodes| => RouteUnplaced(allocations[nodes[k] - 1].attraction, RoutingUnplaced))
  }

  function DropAll(allocations: seq<DayAllocation>, code: RejectionCode): seq<RouteUnplaced> {
    Map((a: DayAllocation) => RouteUnplaced(a.attraction, code), allocations)
  }

  /** The first allocation the routing model refuses to load. */
  function FirstAllocationError(plan: DayPlan, i: int): Option<Error>
    requires 0 <= i <= |plan.allocations|
    decreases |plan.allocations| - i
  {
    if i == |plan.allocations| then None
    else
      var allocation := plan.allocations[i];
      if allocation.assignedDate != plan.visitDate then Some(AssignedDateMismatch)
      else if allocation.requiredDurationMin < MinimumDuration(allocation.attraction, DEFAULT_DURATION_RATIO) then
        Some(DurationBelowMinimum)
      else FirstAllocationError(plan, i + 1)
  }

  /** An allocation the search model accepts on its day. */
  predicate Fitting(a: DayAllocation, date: Date) {
    a.assignedDate == date && a.requiredDurationMin >= MinimumDuration(a.attraction, DEFAULT_DURATION_RATIO)
  }

  predicate AllFitting(allocations: seq<DayAllocation>, date: Date) {
    forall a :: a in allocations ==> Fitting(a, date)
  }

  ghost predicate Loadable(plan: DayPlan) {
    NoDuplicates(AllocationIds(plan.allocations)) && AllFitting(plan.allocations, plan.visitDate)
  }

  /** What the search model can be built for, apart from a day without allocations. */
  ghost predicate Routable(plan: DayPlan, world: World) {
    plan.allocations == [] || (world.bufferRatio >= 1.0 && Loadable(plan))
  }

  ghost function RouteSpec(plan: DayPlan, world: World, answer: SearchAnswer): Outcome<RoutedDay>
    requires ObeysModel(plan, world, answer)
  {
    if world.bufferRatio < 1.0 then Raised(BufferRatioBelowOne)
    else if plan.allocations == [] then Ok(RoutedDay(plan.visitDate, plan.bounds, [], [], 0, 0))
    else if !NoDuplicates(AllocationIds(plan.allocations)) then Raised(DuplicateAttraction)
    else if FirstAllocationError(plan, 0).Some? then Raised(FirstAllocationError(plan, 0).value)
    else if answer.NoSolution? then
      var code := if answer.timedOut then SolverTimeLimit else NoFeasibleRoute;
      Ok(RoutedDay(plan.visitDate, plan.bounds, [], DropAll(plan.allocations, code), 0, 0))
    else
      var visits := DecodedVisits(plan, world, answer);
      Ok(RoutedDay(
        plan.visitDate,
        plan.bounds,
        visits,
        DropNodes(plan.allocations, DroppedFrom(answer.next, 1)),
        TravelTotal(visits),
        BufferedTotal(visits)))
  }

  lemma {:induction false} FirstErrorIffNotLoadable(plan: DayPlan, i: int)
    requires 0 <= i <= |plan.allocations|
    ensures FirstAllocationError(plan, i).None? <==>
      forall k :: i <= k < |plan.allocations| ==> Fitting(plan.allocations[k], plan.visitDate)
    decreases |plan.allocations| - i
  {
    hide MinimumDuration;
    if i < |plan.allocations| { FirstErrorIffNotLoadable(plan, i + 1); }
  }

  /** The first allocation that does not fit its day. */
  predicate FirstMisfit(plan: DayPlan, i: nat) {
    && i < |plan.allocations| && !Fitting(plan.allocations[i], plan.visitDate)
    && forall k :: 0 <= k < i ==> Fitting(plan.allocations[k], plan.visitDate)
  }

  lemma {:induction false} FirstErrorIsMisfit(plan: DayPlan, i: nat)
    requires i <= |plan.allocations| && FirstAllocationError(plan, i).Some?
    requires forall k :: 0 <= k < i ==> Fitting(plan.allocations[k], plan.visitDate)
    ensures
      exists m: nat ::
        && FirstMisfit(plan, m)
        && FirstAllocationError(plan, i)
             == Some(if plan.allocations[m].assignedDate != plan.visitDate then AssignedDateMismatch else DurationBelowMinimum)
    decreases |plan.allocations| - i
  {
    hide MinimumDuration;
    if Fitting(plan.allocations[i], plan.visitDate) {
      FirstErrorIsMisfit(plan, i + 1);
    } else {
      assert FirstMisfit(plan, i);
    }
  }

  /** Routing a day raises for a buffer below one, then for a repeated id, then for the first
      allocation that does not fit: for its date, or else for its length.  It raises for nothing else. */
  lemma {:induction false} RouteErrorsAreExact(plan: DayPlan, world: World, answer: SearchAnswer)
    requires ObeysModel(plan, world, answer)
    ensures
      match RouteSpec(plan, world, answer)
      case Raised(BufferRatioBelowOne) => world.bufferRatio < 1.0
      case Raised(DuplicateAttraction) => world.bufferRatio >= 1.0 && !NoDuplicates(AllocationIds(plan.allocations))
      case Raised(AssignedDateMismatch) =>
        && world.bufferRatio >= 1.0 && NoDuplicates(AllocationIds(plan.allocations))
        && exists i: nat :: FirstMisfit(plan, i) && plan.allocations[i].assignedDate != plan.visitDate
      case Raised(DurationBelowMinimum) =>
        && world.bufferRatio >= 1.0 && NoDuplicates(AllocationIds(plan.allocations))
        && exists i: nat :: FirstMisfit(plan, i) && plan.allocations[i].assignedDate == plan.visitDate
      case Raised(_) => false
      case Ok(_) => world.bufferRatio >= 1.0 && Loadable(plan)
  {
    hide DecodedVisits, MinimumDuration, ObeysModel, Fitting;
    FirstErrorIffNotLoadable(plan, 0);
    if FirstAllocationError(plan, 0).Some? { FirstErrorIsMisfit(plan, 0); }
  }

  method HasDuplicates(ids: seq<int>) returns (found: bool)
    ensures found <==> !NoDuplicates(ids)
  {
    var seen: set<int> := {};
    for i := 0 to |ids|
      invariant forall x :: x in seen <==> x in ids[..i]
      invariant NoDuplicates(ids[..i])
    {
      assert ids[..i + 1] == ids[..i] + [ids[i]];
      if ids[i] in seen {
        var k :| 0 <= k < i && ids[k] == ids[i];
        return true;
      }
      seen := seen + {ids[i]};
    }
    assert ids[..|ids|] == ids;
    return false;
  }

  /** Routes one day: loads the model, takes the search's answer and walks its successors. */
  method RouteDay(plan: DayPlan, world: World, answer: SearchAnswer) returns (r: Outcome<RoutedDay>)
    requires ObeysModel(plan, world, answer)
    ensures r == RouteSpec(plan, world, answer)
  {
    if world.bufferRatio < 1.0 { return Raised(BufferRatioBelowOne); }
    if plan.allocations == [] {
      return Ok(RoutedDay(plan.visitDate, plan.bounds, [], [], 0, 0));
    }
    var duplicates := HasDuplicates(AllocationIds(plan.allocations));
    if duplicates { return Raised(DuplicateAttraction); }
    var i := 0;
    while i < |plan.allocations|
      invariant 0 <= i <= |plan.allocations|
      invariant FirstAllocationError(plan, 0) == FirstAllocationError(plan, i)
    {
      var allocation := plan.allocations[i];
      if allocation.assignedDate != plan.visitDate { return Raised(AssignedDateMismatch); }
      if allocation.requiredDurationMin < MinimumDuration(allocation.attraction, DEFAULT_DURATION_RATIO) {
        return Raised(DurationBelowMinimum);
      }
      i := i + 1;
    }
    if answer.NoSolution? {
      var code := if answer.timedOut then SolverTimeLimit else NoFeasibleRoute;
      return Ok(RoutedDay(plan.visitDate, plan.bounds, [], DropAll(plan.allocations, code), 0, 0));
    }
    var visits, travel, buffered := WalkSuccessors(plan, world, answer);
    r := Ok(RoutedDay(
      plan.visitDate,
      plan.bounds,
      visits,
      DropNodes(plan.allocations, DroppedFrom(answer.next, 1)),
      travel,
      buffered));
  }

  lemma {:induction false} DecodeStep(plan: DayPlan, world: World, answer: SearchAnswer, k: int)
    requires Decodable(plan, world, answer)
    requires 0 <= k < |Tour(plan, world, answer)|
    ensures
      var tour := Tour(plan, world, answer);
      && Active(answer.next, tour[k]) && answer.cumul[tour[k]] >= 0
      && (k > 0 ==> Active(answer.next, tour[k - 1]))
      && DecodedVisits(plan, world, answer)[..k + 1] == DecodedVisits(plan, world, answer)[..k] + [MakeVisit(
           if k == 0 then None else Some(plan.allocations[tour[k - 1] - 1]),
           plan.allocations[tour[k] - 1],
           answer.cumul[tour[k]],
           world)]
  {
    TourStep(plan, world, answer, k);
  }

  /** The successor walk: one visit per step, accumulating the travel totals. */
  method WalkSuccessors(plan: DayPlan, world: World, answer: SearchAnswer)
    returns (visits: seq<RouteVisit>, totalTravel: int, totalBuffered: int)
    requires Decodable(plan, world, answer)
    ensures visits == DecodedVisits(plan, world, answer)
    ensures totalTravel == TravelTotal(visits) && totalBuffered == BufferedTotal(visits)
  {
    visits, totalTravel, totalBuffered := [], 0, 0;
    TotalsEmpty();
    var previous: Option<DayAllocation> := None;
    var index := answer.next[0];
    ghost var tour := Tour(plan, world, answer);
    ghost var decoded := DecodedVisits(plan, world, answer);
    TourStep(plan, world, answer, 0);
    while index != |plan.allocations| + 1
      invariant |visits| <= |tour| == |decoded|
      invariant index == if |visits| < |tour| then tour[|visits|] else |plan.allocations| + 1
      invariant visits == decoded[..|visits|]
      invariant |visits| < |tour| ==> Active(answer.next, index)
      invariant |visits| > 0 ==> Active(answer.next, tour[|visits| - 1])
      invariant previous == if visits == [] then None else Some(plan.allocations[tour[|visits| - 1] - 1])
      invariant totalTravel == TravelTotal(visits) && totalBuffered == BufferedTotal(visits)
      decreases |tour| - |visits|
    {
      DecodeStep(plan, world, answer, |visits|);
      TourStep(plan, world, answer, |visits| + 1);
      var allocation := plan.allocations[index - 1];
      var visit := MakeVisit(previous, allocation, answer.cumul[index], world);
      AppendVisit(visits, visit);
      totalTravel := totalTravel + TravelOf(visit);
      totalBuffered := totalBuffered + visit.bufferedTravelMin;
      visits := visits + [visit];
      previous := Some(allocation);
      index := answer.next[index];
    }
  }

  // ---- what a routed day promises -----------------------------------------------

  lemma {:induction false} DecodedVisitIsSound(plan: DayPlan, world: World, answer: SearchAnswer, k: int)
    requires Decodable(plan, world, answer)
    requires FirstAllocationError(plan, 0).None?
    requires 0 <= k < |Tour(plan, world, answer)|
    ensures SoundVisit(VisitAt(plan, world, answer, k), plan.visitDate, plan.bounds)
    ensures k == 0 ==>
      VisitAt(plan, world, answer, k).travelFromPrevious == None && VisitAt(plan, world, answer, k).bufferedTravelMin == 0
  {
    FirstErrorIffNotLoadable(plan, 0);
    StartIsRoutable(plan, world, answer);
    WalkShape(plan, world, answer, answer.next[0]);
    var node := Tour(plan, world, answer)[k];
    assert NodeObeys(plan, world, answer.next, answer.cumul, node);
  }

  lemma {:induction false} DecodedEdgeIsSound(plan: DayPlan, world: World, answer: SearchAnswer, k: int)
    requires Decodable(plan, world, answer)
    requires 1 <= k < |Tour(plan, world, answer)|
    ensures SoundEdge(VisitAt(plan, world, answer, k - 1), VisitAt(plan, world, answer, k), world)
  {
    StartIsRoutable(plan, world, answer);
    WalkShape(plan, world, answer, answer.next[0]);
    var tour := Tour(plan, world, answer);
    assert NodeObeys(plan, world, answer.next, answer.cumul, tour[k - 1]);
  }

  lemma {:induction false} DecodedPeriodIsCurrent(plan: DayPlan, world: World, answer: SearchAnswer, k: int)
    requires Decodable(plan, world, answer)
    requires 0 <= k < |Tour(plan, world, answer)|
    ensures PeriodCurrent(VisitAt(plan, world, answer, k))
  {
    TourStep(plan, world, answer, k);
  }

  /** The decoded route satisfies every constraint the search was given. */
  lemma {:induction false} RouteIsSound(plan: DayPlan, world: World, answer: SearchAnswer)
    requires ObeysModel(plan, world, answer) && RouteSpec(plan, world, answer).Ok?
    ensures SoundRoute(RouteSpec(plan, world, answer).value, world)
    ensures PeriodsCurrent(RouteSpec(plan, world, answer).value.visits)
  {
    TotalsEmpty();
    if plan.allocations != [] && answer.Solution? {
      var visits := DecodedVisits(plan, world, answer);
      forall k | 0 <= k < |visits|
        ensures SoundVisit(visits[k], plan.visitDate, plan.bounds)
      {
        DecodedVisitIsSound(plan, world, answer, k);
      }
      forall k | 0 <= k < |visits|
        ensures PeriodCurrent(visits[k])
      {
        DecodedPeriodIsCurrent(plan, world, answer, k);
      }
      forall k | 1 <= k < |visits|
        ensures SoundEdge(visits[k - 1], visits[k], world)
      {
        DecodedEdgeIsSound(plan, world, answer, k);
      }
      if visits != [] { DecodedVisitIsSound(plan, world, answer, 0); }
    }
  }

  /** An unplaced attraction carries the reason: the search ran out of time, found that nothing fits, or
      left it out of its solution. */
  lemma {:induction false} UnplacedCodesAreExact(plan: DayPlan, world: World, answer: SearchAnswer, i: nat)
    requires ObeysModel(plan, world, answer) && RouteSpec(plan, world, answer).Ok?
    requires i < |RouteSpec(plan, world, answer).value.unplaced|
    ensures
      var code := RouteSpec(plan, world, answer).value.unplaced[i].code;
      && (code == SolverTimeLimit <==> answer == NoSolution(true))
      && (code == NoFeasibleRoute <==> answer == NoSolution(false))
      && (code == RoutingUnplaced <==> answer.Solution?)
  {
    hide DecodedVisits;
  }

  ghost function AttractionOfNode(allocations: seq<DayAllocation>): int -> Attraction
    requires allocations != []
  {
    (i: int) => allocations[if 1 <= i <= |allocations| then i - 1 else 0].attraction
  }

  /** Visited and dropped nodes partition the indices 1 to n. */
  lemma {:induction false} TourAndDroppedPartition(plan: DayPlan, world: World, answer: SearchAnswer)
    requires Decodable(plan, world, answer)
    ensures
      multiset(Tour(plan, world, answer) + DroppedFrom(answer.next, 1))
      == multiset(seq(|plan.allocations|, k => k + 1))
  {
    StartIsRoutable(plan, world, answer);
    WalkShape(plan, world, answer, answer.next[0]);
    WalkIsSimple(plan, world, answer, answer.next[0]);
    var tour, dropped := Tour(plan, world, answer), DroppedFrom(answer.next, 1);
    var all := seq(|plan.allocations|, k => k + 1);
    forall i, j | 0 <= i < j < |tour + dropped|
      ensures (tour + dropped)[i] != (tour + dropped)[j]
    {
    }
    forall v
      ensures v in tour + dropped <==> v in all
    {
      if 1 <= v <= |plan.allocations| {
        assert all[v - 1] == v;
        if Active(answer.next, v) { ActiveIsVisited(plan, world, answer, v); }
      }
    }
    SameElements(tour + dropped, all);
  }

  lemma {:induction false} DecodedAttractions(plan: DayPlan, world: World, answer: SearchAnswer)
    requires Decodable(plan, world, answer) && plan.allocations != []
    ensures
      var f := AttractionOfNode(plan.allocations);
      && VisitAttractions(DecodedVisits(plan, world, answer)) == Map(f, Tour(plan, world, answer))
      && UnplacedAttractions(DropNodes(plan.allocations, DroppedFrom(answer.next, 1)))
           == Map(f, DroppedFrom(answer.next, 1))
  {
    var f := AttractionOfNode(plan.allocations);
    var visits, tour := DecodedVisits(plan, world, answer), Tour(plan, world, answer);
    forall k | 0 <= k < |visits|
      ensures VisitAttractions(visits)[k] == Map(f, tour)[k]
    {
      TourStep(plan, world, answer, k);
    }
  }

  /** Whatever the search answers, the scheduled and the unplaced attractions together
      are the day's allocations, each exactly as often as it was allocated. */
  lemma {:induction false} RoutePartitions(plan: DayPlan, world: World, answer: SearchAnswer)
    requires ObeysModel(plan, world, answer) && RouteSpec(plan, world, answer).Ok?
    ensures
      multiset(Accounted(RouteSpec(plan, world, answer).value))
      == multiset(AllocationAttractions(plan.allocations))
  {
    var day := RouteSpec(plan, world, answer).value;
    if plan.allocations == [] || answer.NoSolution? {
      assert Accounted(day) == AllocationAttractions(plan.allocations);
    } else {
      var tour, dropped := Tour(plan, world, answer), DroppedFrom(answer.next, 1);
      var all := seq(|plan.allocations|, k => k + 1);
      var f := AttractionOfNode(plan.allocations);
      TourAndDroppedPartition(plan, world, answer);
      MapMultiset(f, tour + dropped, all);
      assert Map(f, all) == AllocationAttractions(plan.allocations);
      DecodedAttractions(plan, world, answer);
      MapConcat(f, tour, dropped);
    }
  }
}
