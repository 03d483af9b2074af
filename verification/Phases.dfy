/** The three phases of itinerary routing and what survives all of them. */
module Phases {
  import opened Prelude
  import opened Models
  import opened TimeWindows
  import opened Validation
  import opened Routing
  import opened Segments
  import opened Itinerary
  import opened BoardFacts
  import P = SegmentProofs

  // ---- what the phases rely on ---------------------------------------------------------------

  /** An allocation that may be visited on its date and is long enough for the C2 floor. */
  predicate Admissible(a: DayAllocation, d: Date, weather: Weather) {
    Fitting(a, d) && MayVisitOn(a.attraction, d, weather)
  }

  ghost predicate BoardAdmissible(board: Board, weather: Weather) {
    forall d, i :: d in board && 0 <= i < |board[d]| ==> Admissible(board[d][i], d, weather)
  }

  ghost predicate BoardFitting(board: Board) {
    forall d :: d in board ==> AllFitting(board[d], d)
  }

  predicate LongEnough(x: Dropped) {
    x.allocation.requiredDurationMin >= MinimumDuration(x.allocation.attraction, DEFAULT_DURATION_RATIO)
  }

  ghost predicate DropsLongEnough(dropped: seq<Dropped>) {
    forall i :: 0 <= i < |dropped| ==> LongEnough(dropped[i])
  }

  ghost predicate Consistent(ordered: seq<Date>, base: map<Date, DayPlan>, board: Board) {
    && StrictlyIncreasing(ordered)
    && (forall d :: d in ordered ==> d in base && d in board && base[d].visitDate == d)
    && (forall d :: d in board ==> d in ordered)
  }

  /** The search answers the same question the same way, however often it is asked. */
  ghost predicate Deterministic(oracle: Oracle) {
    forall i: nat, j: nat, p: DayPlan, t: Option<int> :: oracle(i, p, t) == oracle(j, p, t)
  }

  function PlanOn(base: map<Date, DayPlan>, board: Board, d: Date): DayPlan
    requires d in base && d in board
  {
    RebuildDayPlan(base[d], board[d])
  }

  lemma {:induction false} IdsOfAllocations(allocations: seq<DayAllocation>)
    ensures AllocationIds(allocations) == Map(IdOf, AllocationAttractions(allocations))
  {
  }

  lemma {:induction false} FittingPlanIsLoadable(base: DayPlan, allocations: seq<DayAllocation>)
    requires AllFitting(allocations, base.visitDate)
    requires DistinctIds(AllocationAttractions(allocations))
    ensures Loadable(RebuildDayPlan(base, allocations))
  {
    hide MinimumDuration;
    IdsOfAllocations(allocations);
  }

  // ---- phase 1 -----------------------------------------------------------------------------------

  /** The first `n` days routed once, in date order. */
  ghost function RoutesUpTo(ordered: seq<Date>, n: nat, base: map<Date, DayPlan>, world: World, oracle: Oracle): Outcome<map<Date, RoutedDay>>
    requires OracleObeys(world, oracle) && n <= |ordered| && forall d :: d in ordered ==> d in base
  {
    if n == 0 then Ok(map[])
    else
      var before := RoutesUpTo(ordered, n - 1, base, world, oracle);
      if before.Raised? then before
      else
        var segmented := SegmentSpec(base[ordered[n - 1]], world, oracle, 2 * (n - 1), DEFAULT_SETTINGS);
        if segmented.Raised? then Raised(segmented.error)
        else Ok(before.value[ordered[n - 1] := segmented.value.routedDay])
  }

  lemma {:induction false} RoutesStayRaised(
    ordered: seq<Date>, n: nat, m: nat, base: map<Date, DayPlan>, world: World, oracle: Oracle)
    requires OracleObeys(world, oracle) && n <= m <= |ordered| && forall d :: d in ordered ==> d in base
    requires RoutesUpTo(ordered, n, base, world, oracle).Raised?
    ensures RoutesUpTo(ordered, m, base, world, oracle) == RoutesUpTo(ordered, n, base, world, oracle)
  {
    hide OracleObeys, SegmentSpec;
    if n < m { RoutesStayRaised(ordered, n, m - 1, base, world, oracle); }
  }

  lemma {:induction false} RoutesCoverDates(ordered: seq<Date>, n: nat, base: map<Date, DayPlan>, world: World, oracle: Oracle)
    requires OracleObeys(world, oracle) && n <= |ordered| && forall d :: d in ordered ==> d in base
    requires RoutesUpTo(ordered, n, base, world, oracle).Ok?
    ensures forall i :: 0 <= i < n ==> ordered[i] in RoutesUpTo(ordered, n, base, world, oracle).value
  {
    hide OracleObeys, SegmentSpec;
    if n > 0 { RoutesCoverDates(ordered, n - 1, base, world, oracle); }
  }

  /** Phase 1 raises exactly if some day cannot be routed. */
  lemma {:induction false} RoutesSucceedIff(ordered: seq<Date>, n: nat, base: map<Date, DayPlan>, world: World, oracle: Oracle)
    requires OracleObeys(world, oracle) && n <= |ordered|
    requires forall d :: d in ordered ==> d in base && NoDuplicates(AllocationIds(base[d].allocations))
    ensures RoutesUpTo(ordered, n, base, world, oracle).Ok? <==>
      forall i :: 0 <= i < n ==> Routable(base[ordered[i]], world)
  {
    hide OracleObeys, SegmentSpec, Routable, NoDuplicates;
    if n > 0 {
      RoutesSucceedIff(ordered, n - 1, base, world, oracle);
      assert ordered[n - 1] in ordered;
      P.SegmentedDayRoutesIff(base[ordered[n - 1]], world, oracle, 2 * (n - 1), DEFAULT_SETTINGS);
    }
  }

  method RouteAll(ordered: seq<Date>, base: map<Date, DayPlan>, world: World, oracle: Oracle)
    returns (r: Outcome<map<Date, RoutedDay>>)
    requires OracleObeys(world, oracle) && forall d :: d in ordered ==> d in base
    ensures r == RoutesUpTo(ordered, |ordered|, base, world, oracle)
  {
    hide OracleObeys, ObeysModel, SegmentSpec;
    var routes: map<Date, RoutedDay> := map[];
    for i := 0 to |ordered|
      invariant RoutesUpTo(ordered, i, base, world, oracle) == Ok(routes)
    {
      var d := ordered[i];
      assert d in ordered;
      var segmented := RouteSegmentedDay(base[d], world, oracle, 2 * i, DEFAULT_SETTINGS);
      if segmented.Raised? {
        RoutesStayRaised(ordered, i + 1, |ordered|, base, world, oracle);
        return Raised(segmented.error);
      }
      routes := routes[d := segmented.value.routedDay];
    }
    r := Ok(routes);
  }

  /** The board and the drops after the first `n` dates gave up what their route left out. */
  function CollectedUpTo(ordered: seq<Date>, n: nat, initial: Board, routes: map<Date, RoutedDay>): (r: (Board, seq<Dropped>))
    requires n <= |ordered| && forall d :: d in ordered ==> d in initial && d in routes
    ensures r.0.Keys == initial.Keys
  {
    if n == 0 then (initial, [])
    else
      var (board, dropped) := CollectedUpTo(ordered, n - 1, initial, routes);
      var d := ordered[n - 1];
      (board[d := Retained(board[d], routes[d].unplaced)], dropped + DropsOf(d, board[d], routes[d].unplaced))
  }

  lemma {:induction false} NothingLeftOut(source: Date, allocations: seq<DayAllocation>)
    ensures Retained(allocations, []) == allocations && DropsOf(source, allocations, []) == []
  {
    if allocations != [] {
      var front := allocations[..|allocations| - 1];
      NothingLeftOut(source, front);
      assert allocations == front + [allocations[|allocations| - 1]];
    }
  }

  /** Collecting drops rearranges attractions between the board and the drops, no more. */
  ghost predicate Collected(ordered: seq<Date>, n: nat, initial: Board, board: Board, dropped: seq<Dropped>)
    requires n <= |ordered|
  {
    && board.Keys == initial.Keys
    && (forall j :: n <= j < |ordered| && ordered[j] in initial ==> board[ordered[j]] == initial[ordered[j]])
    && (forall d, a :: d in board && a in board[d] ==> a in initial[d])
    && (forall x :: x in dropped ==> x.source in initial && x.allocation in initial[x.source])
    && multiset(Held(ordered, board)) + multiset(DroppedAttractions(dropped)) == multiset(Held(ordered, initial))
  }

  lemma {:induction false} CollectingConserves(ordered: seq<Date>, n: nat, initial: Board, routes: map<Date, RoutedDay>)
    requires StrictlyIncreasing(ordered) && n <= |ordered| && forall d :: d in ordered ==> d in initial && d in routes
    ensures
      var (board, dropped) := CollectedUpTo(ordered, n, initial, routes);
      Collected(ordered, n, initial, board, dropped)
  {
    hide Held, AllocationAttractions, DroppedAttractions, Retained, DropsOf;
    NothingDropped();
    if n > 0 {
      CollectingConserves(ordered, n - 1, initial, routes);
      var (board, dropped) := CollectedUpTo(ordered, n - 1, initial, routes);
      var d := ordered[n - 1];
      assert d in ordered && board[d] == initial[d];
      var unplaced := routes[d].unplaced;
      var retained, drops := Retained(board[d], unplaced), DropsOf(d, board[d], unplaced);
      SplitConserves(d, board[d], unplaced);
      SplitMembers(d, board[d], unplaced);
      HeldReplace(ordered, board, d, retained);
      Exchange(multiset(Held(ordered, board[d := retained])), multiset(AllocationAttractions(board[d])),
               multiset(Held(ordered, board)), multiset(AllocationAttractions(retained)),
               multiset(DroppedAttractions(drops)));
      ConcatDropped(dropped, drops);
    }
  }

  /** Takes everything unplaced off the board. */
  method CollectDropped(ordered: seq<Date>, initial: Board, routes: map<Date, RoutedDay>)
    returns (board: Board, dropped: seq<Dropped>)
    requires forall d :: d in ordered ==> d in initial && d in routes
    ensures (board, dropped) == CollectedUpTo(ordered, |ordered|, initial, routes)
  {
    hide Retained, DropsOf;
    board, dropped := initial, [];
    for i := 0 to |ordered|
      invariant (board, dropped) == CollectedUpTo(ordered, i, initial, routes)
    {
      var d := ordered[i];
      assert d in ordered;
      var unplaced := routes[d].unplaced;
      if unplaced != [] {
        var retained, drops := SplitDay(d, board[d], unplaced);
        board := board[d := retained];
        dropped := dropped + drops;
      } else {
        NothingLeftOut(d, board[d]);
        assert board[d := board[d]] == board && dropped + [] == dropped;
      }
    }
  }

  lemma {:induction false} NothingDropped()
    ensures DroppedAttractions([]) == []
  {
  }

  lemma {:induction false} ConcatDropped(a: seq<Dropped>, b: seq<Dropped>)
    ensures DroppedAttractions(a + b) == DroppedAttractions(a) + DroppedAttractions(b)
  {
  }

  // ---- phase 2 -----------------------------------------------------------------------------------

  /** A rescued attraction is on its new date's list, and a search visits that whole list
      every time it is asked. */
  ghost predicate Settled(r: Reassignment, base: map<Date, DayPlan>, board: Board, world: World, oracle: Oracle)
    requires OracleObeys(world, oracle)
  {
    && r.toDate in base && r.toDate in board
    && r.attraction in AllocationAttractions(board[r.toDate])
    && forall k: nat :: AllVisited(PlanOn(base, board, r.toDate), world, oracle, k)
  }

  lemma {:induction false} RescueIsSettled(
    base: map<Date, DayPlan>, board: Board, x: Dropped, target: Date, world: World, oracle: Oracle, at: nat)
    requires OracleObeys(world, oracle) && Deterministic(oracle)
    requires RescueFound(base, board, x, target, world, oracle, at)
    ensures
      var after := board[target := board[target] + [Moved(x.allocation, target)]];
      Settled(Reassignment(x.allocation.attraction, x.source, target), base, after, world, oracle)
  {
    hide OracleObeys, ObeysModel, SegmentSpec, ValidationSpec, PrecheckReasons;
    var after := board[target := board[target] + [Moved(x.allocation, target)]];
    forall k: nat
      ensures AllVisited(PlanOn(base, after, target), world, oracle, k)
    {
      P.SegmentedDayIsDeterministic(PlanOn(base, after, target), world, oracle, at, k, DEFAULT_SETTINGS);
    }
    assert AllocationAttractions(after[target])[|board[target]|] == x.allocation.attraction;
  }

  /** An earlier rescue stays settled when a later one changes another date, or adds to the
      same date and visits everything there. */
  lemma {:induction false} SettledStays(
    r: Reassignment, base: map<Date, DayPlan>, board: Board, x: Dropped, target: Date, world: World, oracle: Oracle)
    requires OracleObeys(world, oracle) && target in board
    requires Settled(r, base, board, world, oracle)
    requires
      var after := board[target := board[target] + [Moved(x.allocation, target)]];
      Settled(Reassignment(x.allocation.attraction, x.source, target), base, after, world, oracle)
    ensures
      var after := board[target := board[target] + [Moved(x.allocation, target)]];
      Settled(r, base, after, world, oracle)
  {
    hide OracleObeys, AllVisited;
    AppendAttraction(board[target], Moved(x.allocation, target));
    var after := board[target := board[target] + [Moved(x.allocation, target)]];
    if r.toDate != target {
      assert PlanOn(base, after, r.toDate) == PlanOn(base, board, r.toDate);
    }
  }

  lemma {:induction false} PrecheckedIsVisitable(x: Dropped, target: Date, bounds: DayTimeBounds, weather: Weather)
    requires PrecheckReasons(x.allocation, target, bounds, weather) == []
    ensures MayVisitOn(x.allocation.attraction, target, weather)
  {
    hide DefaultWindow, IsOpenOn, WeatherPermits;
  }

  /** Everything the rescue loop keeps about the board. */
  ghost predicate RescueState(
    ordered: seq<Date>, base: map<Date, DayPlan>, board: Board, dropped: seq<Dropped>, i: nat,
    unplaced: seq<ItineraryUnplaced>, whole: multiset<Attraction>)
    requires i <= |dropped|
  {
    && Consistent(ordered, base, board)
    && multiset(Held(ordered, board)) + multiset(DroppedAttractions(dropped[i..])) + multiset(LeftOut(unplaced)) == whole
  }

  lemma {:induction false} TargetsAreLoadable(
    ordered: seq<Date>, base: map<Date, DayPlan>, board: Board, dropped: seq<Dropped>, i: nat,
    unplaced: seq<ItineraryUnplaced>, whole: seq<Attraction>, d: Date)
    requires i < |dropped| && d in ordered
    requires RescueState(ordered, base, board, dropped, i, unplaced, multiset(whole))
    requires BoardFitting(board) && DropsLongEnough(dropped) && DistinctIds(whole)
    ensures Loadable(TargetPlan(base, board, dropped[i], d))
  {
    hide Held, MinimumDuration, DistinctIds;
    var allocations := board[d] + [Moved(dropped[i].allocation, d)];
    assert AllFitting(board[d], d) && LongEnough(dropped[i]);
    AppendAttraction(board[d], Moved(dropped[i].allocation, d));
    HeldContains(ordered, board, d);
    DroppedHead(dropped, i);
    DistinctIdsPart(AllocationAttractions(allocations), whole);
    FittingPlanIsLoadable(base[d], allocations);
  }

  lemma {:induction false} DroppedHead(dropped: seq<Dropped>, i: nat)
    requires i < |dropped|
    ensures DroppedAttractions(dropped[i..])
      == [dropped[i].allocation.attraction] + DroppedAttractions(dropped[i + 1..])
  {
  }

  lemma {:induction false} AppendLeftOut(unplaced: seq<ItineraryUnplaced>, u: ItineraryUnplaced)
    ensures LeftOut(unplaced + [u]) == LeftOut(unplaced) + [u.attraction]
  {
  }

  lemma {:induction false} MoveKeepsState(
    ordered: seq<Date>, base: map<Date, DayPlan>, board: Board, dropped: seq<Dropped>, i: nat,
    unplaced: seq<ItineraryUnplaced>, whole: multiset<Attraction>, target: Date)
    requires i < |dropped| && target in ordered
    requires RescueState(ordered, base, board, dropped, i, unplaced, whole)
    ensures
      var after := board[target := board[target] + [Moved(dropped[i].allocation, target)]];
      RescueState(ordered, base, after, dropped, i + 1, unplaced, whole)
  {
    hide Held, AllocationAttractions, DroppedAttractions;
    var allocations := board[target] + [Moved(dropped[i].allocation, target)];
    HeldReplace(ordered, board, target, allocations);
    AppendAttraction(board[target], Moved(dropped[i].allocation, target));
    DroppedHead(dropped, i);
    var moved := multiset{dropped[i].allocation.attraction};
    Exchange(multiset(Held(ordered, board)), multiset(AllocationAttractions(allocations)),
             multiset(Held(ordered, board[target := allocations])), multiset(AllocationAttractions(board[target])), moved);
    assert multiset(DroppedAttractions(dropped[i..])) == moved + multiset(DroppedAttractions(dropped[i + 1..]));
  }

  lemma {:induction false} GiveUpKeepsState(
    ordered: seq<Date>, base: map<Date, DayPlan>, board: Board, dropped: seq<Dropped>, i: nat,
    unplaced: seq<ItineraryUnplaced>, whole: multiset<Attraction>, u: ItineraryUnplaced)
    requires i < |dropped| && u.attraction == dropped[i].allocation.attraction
    requires RescueState(ordered, base, board, dropped, i, unplaced, whole)
    ensures RescueState(ordered, base, board, dropped, i + 1, unplaced + [u], whole)
  {
    hide Held, DroppedAttractions, LeftOut;
    DroppedHead(dropped, i);
    AppendLeftOut(unplaced, u);
  }

  lemma {:induction false} MoveKeepsAdmissible(board: Board, x: Dropped, target: Date, weather: Weather)
    requires target in board && BoardAdmissible(board, weather) && LongEnough(x)
    requires MayVisitOn(x.allocation.attraction, target, weather)
    ensures BoardAdmissible(board[target := board[target] + [Moved(x.allocation, target)]], weather)
  {
    hide MinimumDuration, MayVisitOn;
  }

  /** The state the rescue loop rewrites. */
  datatype Settlement = Settlement(
    board: Board, unplaced: seq<ItineraryUnplaced>, reassignments: seq<Reassignment>, k: nat)

  ghost function AfterRescue(
    x: Dropped, ordered: seq<Date>, base: map<Date, DayPlan>, s: Settlement, world: World, oracle: Oracle): (r: Outcome<Settlement>)
    requires OracleObeys(world, oracle) && forall d :: d in ordered ==> d in base && d in s.board
    ensures r.Ok? ==> r.value.board.Keys == s.board.Keys
  {
    var rescue := RescueSpec(x, ordered, base, s.board, world, oracle, s.k);
    if rescue.Raised? then Raised(rescue.error)
    else if rescue.value.target.Some? then
      var target := rescue.value.target.value;
      Ok(Settlement(
        s.board[target := s.board[target] + [Moved(x.allocation, target)]],
        s.unplaced,
        s.reassignments + [Reassignment(x.allocation.attraction, x.source, target)],
        rescue.value.k))
    else
      var u := ItineraryUnplaced(x.allocation.attraction, x.allocation.preferredDate, x.code, rescue.value.attempts);
      Ok(s.(unplaced := s.unplaced + [u], k := rescue.value.k))
  }

  /** The state after the first `n` dropped allocations were moved or given up. */
  ghost function RescuesUpTo(
    dropped: seq<Dropped>, n: nat, ordered: seq<Date>, base: map<Date, DayPlan>, start: Settlement, world: World, oracle: Oracle): (r: Outcome<Settlement>)
    requires OracleObeys(world, oracle) && n <= |dropped|
    requires forall d :: d in ordered ==> d in base && d in start.board
    ensures r.Ok? ==> r.value.board.Keys == start.board.Keys
  {
    if n == 0 then Ok(start)
    else
      var before := RescuesUpTo(dropped, n - 1, ordered, base, start, world, oracle);
      if before.Raised? then before else AfterRescue(dropped[n - 1], ordered, base, before.value, world, oracle)
  }

  lemma {:induction false} RescuesStayRaised(
    dropped: seq<Dropped>, n: nat, m: nat, ordered: seq<Date>, base: map<Date, DayPlan>, start: Settlement, world: World, oracle: Oracle)
    requires OracleObeys(world, oracle) && n <= m <= |dropped|
    requires forall d :: d in ordered ==> d in base && d in start.board
    requires RescuesUpTo(dropped, n, ordered, base, start, world, oracle).Raised?
    ensures RescuesUpTo(dropped, m, ordered, base, start, world, oracle)
      == RescuesUpTo(dropped, n, ordered, base, start, world, oracle)
  {
    hide OracleObeys, AfterRescue;
    if n < m { RescuesStayRaised(dropped, n, m - 1, ordered, base, start, world, oracle); }
  }

  /** Tries to move every dropped allocation, one after the other. */
  method RescueDropped(
    dropped: seq<Dropped>, ordered: seq<Date>, base: map<Date, DayPlan>, start: Settlement, world: World, oracle: Oracle)
    returns (r: Outcome<Settlement>)
    requires OracleObeys(world, oracle) && forall d :: d in ordered ==> d in base && d in start.board
    ensures r == RescuesUpTo(dropped, |dropped|, ordered, base, start, world, oracle)
  {
    hide OracleObeys, ObeysModel, RescueSpec;
    var s := start;
    for i := 0 to |dropped|
      invariant RescuesUpTo(dropped, i, ordered, base, start, world, oracle) == Ok(s)
    {
      var x := dropped[i];
      var rescue := RescueOne(x, ordered, base, s.board, world, oracle, s.k);
      if rescue.Raised? {
        RescuesStayRaised(dropped, i + 1, |dropped|, ordered, base, start, world, oracle);
        return Raised(rescue.error);
      }
      s := s.(k := rescue.value.k);
      if rescue.value.target.Some? {
        var target := rescue.value.target.value;
        s := s.(board := s.board[target := s.board[target] + [Moved(x.allocation, target)]],
                reassignments := s.reassignments + [Reassignment(x.allocation.attraction, x.source, target)]);
      } else {
        var u := ItineraryUnplaced(
          x.allocation.attraction, x.allocation.preferredDate, x.code, rescue.value.attempts);
        s := s.(unplaced := s.unplaced + [u]);
      }
    }
    r := Ok(s);
  }

  lemma {:induction false} MoveKeepsFitting(board: Board, dropped: seq<Dropped>, n: nat, target: Date)
    requires n < |dropped| && target in board && BoardFitting(board) && DropsLongEnough(dropped)
    ensures BoardFitting(board[target := board[target] + [Moved(dropped[n].allocation, target)]])
  {
    hide MinimumDuration;
    assert LongEnough(dropped[n]);
  }

  /** What every rescue keeps: consistency and the books, admissibility, the reassignments made
      before, and, if the search is deterministic, that everything rescued so far is settled. */
  ghost predicate RescuesKept(
    ordered: seq<Date>, base: map<Date, DayPlan>, start: Settlement, dropped: seq<Dropped>, n: nat, s: Settlement,
    whole: multiset<Attraction>, world: World, oracle: Oracle)
    requires OracleObeys(world, oracle) && n <= |dropped|
  {
    && RescueState(ordered, base, s.board, dropped, n, s.unplaced, whole)
    && (BoardAdmissible(start.board, world.weather) && DropsLongEnough(dropped) ==> BoardAdmissible(s.board, world.weather))
    && (BoardFitting(start.board) && DropsLongEnough(dropped) ==> BoardFitting(s.board))
    && |start.reassignments| <= |s.reassignments|
    && s.reassignments[..|start.reassignments|] == start.reassignments
    && (Deterministic(oracle) ==>
          forall j :: |start.reassignments| <= j < |s.reassignments| ==>
            Settled(s.reassignments[j], base, s.board, world, oracle))
  }

  lemma {:induction false} RescueKeeps(
    ordered: seq<Date>, base: map<Date, DayPlan>, start: Settlement, dropped: seq<Dropped>, n: nat, s: Settlement,
    whole: multiset<Attraction>, world: World, oracle: Oracle)
    requires OracleObeys(world, oracle) && n < |dropped|
    requires RescuesKept(ordered, base, start, dropped, n, s, whole, world, oracle)
    ensures forall d :: d in ordered ==> d in base && d in s.board
    ensures
      var after := AfterRescue(dropped[n], ordered, base, s, world, oracle);
      after.Ok? ==> RescuesKept(ordered, base, start, dropped, n + 1, after.value, whole, world, oracle)
  {
    hide OracleObeys, RescueFound, Settled, BoardAdmissible, DropsLongEnough, RescueState, Deterministic, RescueSpec, BoardFitting;
    RescueStateIsConsistent(ordered, base, s.board, dropped, n, s.unplaced, whole);
    var x := dropped[n];
    var rescue := RescueSpec(x, ordered, base, s.board, world, oracle, s.k);
    if rescue.Ok? {
      if rescue.value.target.Some? {
        RescueFinds(x, ordered, base, s.board, world, oracle, s.k);
        MoveKeeps(ordered, base, start, dropped, n, s, whole, rescue.value.target.value, world, oracle, rescue.value.k - 2);
      } else {
        GiveUpKeepsState(
          ordered, base, s.board, dropped, n, s.unplaced, whole,
          ItineraryUnplaced(x.allocation.attraction, x.allocation.preferredDate, x.code, rescue.value.attempts));
      }
    }
  }

  lemma {:induction false} MoveKeeps(
    ordered: seq<Date>, base: map<Date, DayPlan>, start: Settlement, dropped: seq<Dropped>, n: nat, s: Settlement,
    whole: multiset<Attraction>, target: Date, world: World, oracle: Oracle, at: nat)
    requires OracleObeys(world, oracle) && n < |dropped| && target in ordered
    requires RescuesKept(ordered, base, start, dropped, n, s, whole, world, oracle)
    requires target in s.board && RescueFound(base, s.board, dropped[n], target, world, oracle, at)
    ensures
      var x := dropped[n];
      var after := s.(
        board := s.board[target := s.board[target] + [Moved(x.allocation, target)]],
        reassignments := s.reassignments + [Reassignment(x.allocation.attraction, x.source, target)]);
      RescuesKept(ordered, base, start, dropped, n + 1, after, whole, world, oracle)
  {
    hide OracleObeys, RescueFound, Settled, BoardAdmissible, BoardFitting, DropsLongEnough, RescueState, Deterministic;
    var x := dropped[n];
    MoveKeepsState(ordered, base, s.board, dropped, n, s.unplaced, whole, target);
    if DropsLongEnough(dropped) && BoardFitting(s.board) { MoveKeepsFitting(s.board, dropped, n, target); }
    if BoardAdmissible(start.board, world.weather) && DropsLongEnough(dropped) {
      MoveIsAdmissible(base, s.board, dropped, n, target, world, oracle, at);
    }
    if Deterministic(oracle) {
      var after := s.board[target := s.board[target] + [Moved(x.allocation, target)]];
      RescueIsSettled(base, s.board, x, target, world, oracle, at);
      forall j | |start.reassignments| <= j < |s.reassignments|
        ensures Settled(s.reassignments[j], base, after, world, oracle)
      {
        SettledStays(s.reassignments[j], base, s.board, x, target, world, oracle);
      }
    }
  }

  lemma {:induction false} RescuesKeep(
    dropped: seq<Dropped>, n: nat, ordered: seq<Date>, base: map<Date, DayPlan>, start: Settlement, world: World, oracle: Oracle)
    requires OracleObeys(world, oracle) && n <= |dropped| && Consistent(ordered, base, start.board)
    requires RescuesUpTo(dropped, n, ordered, base, start, world, oracle).Ok?
    ensures
      var whole := Held(ordered, start.board) + DroppedAttractions(dropped) + LeftOut(start.unplaced);
      RescuesKept(
        ordered, base, start, dropped, n, RescuesUpTo(dropped, n, ordered, base, start, world, oracle).value,
        multiset(whole), world, oracle)
  {
    hide OracleObeys, Settled, BoardAdmissible, BoardFitting, DropsLongEnough, RescueState, Deterministic, AfterRescue, Held,
         DroppedAttractions, LeftOut;
    var whole := Held(ordered, start.board) + DroppedAttractions(dropped) + LeftOut(start.unplaced);
    if n == 0 {
      RescueStarts(ordered, base, start.board, dropped, start.unplaced);
    } else {
      RescuesKeep(dropped, n - 1, ordered, base, start, world, oracle);
      var before := RescuesUpTo(dropped, n - 1, ordered, base, start, world, oracle).value;
      RescueKeeps(ordered, base, start, dropped, n - 1, before, multiset(whole), world, oracle);
    }
  }

  /** What the whole rescue loop promises. */
  lemma {:induction false} RescuedBoard(
    dropped: seq<Dropped>, ordered: seq<Date>, base: map<Date, DayPlan>, start: Settlement, world: World, oracle: Oracle)
    requires OracleObeys(world, oracle) && Consistent(ordered, base, start.board)
    requires RescuesUpTo(dropped, |dropped|, ordered, base, start, world, oracle).Ok?
    ensures
      var s := RescuesUpTo(dropped, |dropped|, ordered, base, start, world, oracle).value;
      && Consistent(ordered, base, s.board)
      && multiset(Held(ordered, s.board)) + multiset(LeftOut(s.unplaced))
           == multiset(Held(ordered, start.board)) + multiset(DroppedAttractions(dropped)) + multiset(LeftOut(start.unplaced))
      && (BoardAdmissible(start.board, world.weather) && DropsLongEnough(dropped) ==>
            BoardAdmissible(s.board, world.weather))
      && (BoardFitting(start.board) && DropsLongEnough(dropped) ==> BoardFitting(s.board))
      && |start.reassignments| <= |s.reassignments|
      && s.reassignments[..|start.reassignments|] == start.reassignments
      && (Deterministic(oracle) ==>
            forall j :: |start.reassignments| <= j < |s.reassignments| ==>
              Settled(s.reassignments[j], base, s.board, world, oracle))
  {
    hide OracleObeys, Settled, BoardAdmissible, BoardFitting, DropsLongEnough, RescueState, Deterministic, RescuesUpTo, Held,
         DroppedAttractions, LeftOut;
    RescuesKeep(dropped, |dropped|, ordered, base, start, world, oracle);
    var s := RescuesUpTo(dropped, |dropped|, ordered, base, start, world, oracle).value;
    var whole := Held(ordered, start.board) + DroppedAttractions(dropped) + LeftOut(start.unplaced);
    RescueEnds(ordered, base, s.board, dropped, s.unplaced, multiset(whole));
  }

  lemma {:induction false} RescuesSucceed(
    dropped: seq<Dropped>, n: nat, ordered: seq<Date>, base: map<Date, DayPlan>, start: Settlement, world: World, oracle: Oracle)
    requires OracleObeys(world, oracle) && n <= |dropped| && Consistent(ordered, base, start.board)
    requires (world.bufferRatio >= 1.0 || dropped == []) && BoardFitting(start.board) && DropsLongEnough(dropped)
    requires DistinctIds(Held(ordered, start.board) + DroppedAttractions(dropped) + LeftOut(start.unplaced))
    ensures RescuesUpTo(dropped, n, ordered, base, start, world, oracle).Ok?
  {
    hide OracleObeys, Settled, BoardAdmissible, BoardFitting, DropsLongEnough, RescueState, Deterministic, RescueSpec, Held,
         DroppedAttractions, LeftOut, DistinctIds;
    if n > 0 {
      RescuesSucceed(dropped, n - 1, ordered, base, start, world, oracle);
      RescuesKeep(dropped, n - 1, ordered, base, start, world, oracle);
      var before := RescuesUpTo(dropped, n - 1, ordered, base, start, world, oracle).value;
      NextRescueSucceeds(
        ordered, base, before.board, dropped, n - 1, before.unplaced,
        Held(ordered, start.board) + DroppedAttractions(dropped) + LeftOut(start.unplaced), world, oracle, before.k);
    }
  }

  /** The unplaced list of step 1 is carried along in front, untouched. */
  function Listed(prefix: seq<ItineraryUnplaced>, r: Outcome<Settlement>): Outcome<Settlement> {
    if r.Ok? then Ok(r.value.(unplaced := prefix + r.value.unplaced)) else r
  }

  lemma {:induction false} RescuesIgnoreListed(
    dropped: seq<Dropped>, n: nat, ordered: seq<Date>, base: map<Date, DayPlan>, prefix: seq<ItineraryUnplaced>,
    start: Settlement, world: World, oracle: Oracle)
    requires OracleObeys(world, oracle) && n <= |dropped|
    requires forall d :: d in ordered ==> d in base && d in start.board
    ensures RescuesUpTo(dropped, n, ordered, base, start.(unplaced := prefix + start.unplaced), world, oracle)
      == Listed(prefix, RescuesUpTo(dropped, n, ordered, base, start, world, oracle))
  {
    hide OracleObeys, RescueSpec;
    if n > 0 {
      RescuesIgnoreListed(dropped, n - 1, ordered, base, prefix, start, world, oracle);
      var before := RescuesUpTo(dropped, n - 1, ordered, base, start, world, oracle);
      if before.Ok? { RescueIgnoresListed(dropped[n - 1], ordered, base, prefix, before.value, world, oracle); }
    }
  }

  lemma {:induction false} RescueIgnoresListed(
    x: Dropped, ordered: seq<Date>, base: map<Date, DayPlan>, prefix: seq<ItineraryUnplaced>, s: Settlement,
    world: World, oracle: Oracle)
    requires OracleObeys(world, oracle) && forall d :: d in ordered ==> d in base && d in s.board
    ensures AfterRescue(x, ordered, base, s.(unplaced := prefix + s.unplaced), world, oracle)
      == Listed(prefix, AfterRescue(x, ordered, base, s, world, oracle))
  {
    hide OracleObeys, RescueSpec;
    var rescue := RescueSpec(x, ordered, base, s.board, world, oracle, s.k);
    if rescue.Ok? && rescue.value.target.None? {
      var u := ItineraryUnplaced(x.allocation.attraction, x.allocation.preferredDate, x.code, rescue.value.attempts);
      assert (prefix + s.unplaced) + [u] == prefix + (s.unplaced + [u]);
    }
  }

  lemma {:induction false} NextRescueSucceeds(
    ordered: seq<Date>, base: map<Date, DayPlan>, board: Board, dropped: seq<Dropped>, i: nat,
    unplaced: seq<ItineraryUnplaced>, whole: seq<Attraction>, world: World, oracle: Oracle, k: nat)
    requires OracleObeys(world, oracle) && i < |dropped| && world.bufferRatio >= 1.0
    requires RescueState(ordered, base, board, dropped, i, unplaced, multiset(whole))
    requires BoardFitting(board) && DropsLongEnough(dropped) && DistinctIds(whole)
    ensures Consistent(ordered, base, board)
    ensures RescueSpec(dropped[i], ordered, base, board, world, oracle, k).Ok?
  {
    hide OracleObeys, BoardFitting, DropsLongEnough, DistinctIds, Loadable, TargetPlan, RescueState, RescueDates,
         RescueUpTo;
    RescueStateIsConsistent(ordered, base, board, dropped, i, unplaced, multiset(whole));
    RescueDatesExact(ordered, dropped[i]);
    var dates := RescueDates(ordered, dropped[i]);
    forall d | d in dates
      ensures Loadable(TargetPlan(base, board, dropped[i], d))
    {
      TargetsAreLoadable(ordered, base, board, dropped, i, unplaced, whole, d);
    }
    RescueSucceeds(dropped[i], dates, |dates|, base, board, world, oracle, k);
  }

  lemma {:induction false} RescueStarts(
    ordered: seq<Date>, base: map<Date, DayPlan>, board: Board, dropped: seq<Dropped>, unplaced: seq<ItineraryUnplaced>)
    requires Consistent(ordered, base, board)
    ensures RescueState(ordered, base, board, dropped, 0, unplaced,
                        multiset(Held(ordered, board) + DroppedAttractions(dropped) + LeftOut(unplaced)))
  {
    hide Held, DroppedAttractions, LeftOut;
    assert dropped[0..] == dropped;
  }

  lemma {:induction false} RescueStateIsConsistent(
    ordered: seq<Date>, base: map<Date, DayPlan>, board: Board, dropped: seq<Dropped>, i: nat,
    unplaced: seq<ItineraryUnplaced>, whole: multiset<Attraction>)
    requires i <= |dropped| && RescueState(ordered, base, board, dropped, i, unplaced, whole)
    ensures Consistent(ordered, base, board)
  {
  }

  lemma {:induction false} RescueEnds(
    ordered: seq<Date>, base: map<Date, DayPlan>, board: Board, dropped: seq<Dropped>,
    unplaced: seq<ItineraryUnplaced>, whole: multiset<Attraction>)
    requires RescueState(ordered, base, board, dropped, |dropped|, unplaced, whole)
    ensures Consistent(ordered, base, board)
    ensures multiset(Held(ordered, board)) + multiset(LeftOut(unplaced)) == whole
  {
    hide Held, LeftOut;
    assert dropped[|dropped|..] == [];
    NothingDropped();
  }

  lemma {:induction false} MoveIsAdmissible(
    base: map<Date, DayPlan>, board: Board, dropped: seq<Dropped>, i: nat, target: Date, world: World, oracle: Oracle, at: nat)
    requires OracleObeys(world, oracle) && i < |dropped|
    requires RescueFound(base, board, dropped[i], target, world, oracle, at)
    requires BoardAdmissible(board, world.weather) && DropsLongEnough(dropped)
    ensures BoardAdmissible(board[target := board[target] + [Moved(dropped[i].allocation, target)]], world.weather)
  {
    hide AllVisited, PrecheckReasons, BoardAdmissible, OracleObeys, ValidationSpec, LongEnough;
    PrecheckedIsVisitable(dropped[i], target, base[target].bounds, world.weather);
    MoveKeepsAdmissible(board, dropped[i], target, world.weather);
  }

  // ---- phase 3 -----------------------------------------------------------------------------------

  function PreferredOf(allocations: seq<DayAllocation>, id: int): (preferred: Option<Date>)
    ensures preferred.Some? <==> exists i :: 0 <= i < |allocations| && allocations[i].attraction.id == id
  {
    if allocations == [] then None
    else if allocations[|allocations| - 1].attraction.id == id then Some(allocations[|allocations| - 1].preferredDate)
    else PreferredOf(allocations[..|allocations| - 1], id)
  }

  predicate HasId(unplaced: seq<ItineraryUnplaced>, id: int) {
    exists i :: 0 <= i < |unplaced| && unplaced[i].attraction.id == id
  }

  lemma {:induction false} AppendHasId(unplaced: seq<ItineraryUnplaced>, u: ItineraryUnplaced, id: int)
    ensures HasId(unplaced + [u], id) <==> HasId(unplaced, id) || id == u.attraction.id
  {
    var after := unplaced + [u];
    if HasId(unplaced, id) {
      var i :| 0 <= i < |unplaced| && unplaced[i].attraction.id == id;
      assert after[i] == unplaced[i];
    }
    assert after[|unplaced|] == u;
  }

  /** An attraction still to be added is not on the list yet. */
  lemma {:induction false} NotYetLeftOut(unplaced: seq<ItineraryUnplaced>, all: seq<Attraction>)
    requires |unplaced| < |all| && LeftOut(unplaced) == all[..|unplaced|] && DistinctIds(all)
    ensures !HasId(unplaced, all[|unplaced|].id)
  {
    var ids := Map(IdOf, all);
    forall j | 0 <= j < |unplaced|
      ensures unplaced[j].attraction.id != all[|unplaced|].id
    {
      assert LeftOut(unplaced)[j] == all[j];
      assert ids[j] != ids[|unplaced|];
    }
  }

  /** The unplaced list after the first `n` drops of a final route: each attraction once, with
      the code of its first drop. */
  function DropsAdded(allocations: seq<DayAllocation>, drops: seq<RouteUnplaced>, n: nat, before: seq<ItineraryUnplaced>): Outcome<seq<ItineraryUnplaced>>
    requires n <= |drops|
  {
    if n == 0 then Ok(before)
    else
      var front := DropsAdded(allocations, drops, n - 1, before);
      var drop := drops[n - 1];
      if front.Raised? || HasId(front.value, drop.attraction.id) then front
      else
        var preferred := PreferredOf(allocations, drop.attraction.id);
        if preferred.None? then Raised(AllocationMissing)
        else Ok(front.value + [ItineraryUnplaced(drop.attraction, preferred.value, drop.code, [])])
  }

  lemma {:induction false} DropsStayRaised(
    allocations: seq<DayAllocation>, drops: seq<RouteUnplaced>, n: nat, m: nat, before: seq<ItineraryUnplaced>)
    requires n <= m <= |drops| && DropsAdded(allocations, drops, n, before).Raised?
    ensures DropsAdded(allocations, drops, m, before) == DropsAdded(allocations, drops, n, before)
  {
    hide HasId, PreferredOf;
    if n < m { DropsStayRaised(allocations, drops, n, m - 1, before); }
  }

  /** Nothing raises if every drop was planned, and distinct attractions are all added. */
  lemma {:induction false} DropsAreAdded(
    allocations: seq<DayAllocation>, drops: seq<RouteUnplaced>, n: nat, before: seq<ItineraryUnplaced>)
    requires n <= |drops|
    ensures
      && (forall i :: 0 <= i < |drops| ==> PreferredOf(allocations, drops[i].attraction.id).Some?)
      ==> DropsAdded(allocations, drops, n, before).Ok?
    ensures
      var all := LeftOut(before) + UnplacedAttractions(drops);
      var after := DropsAdded(allocations, drops, n, before);
      after.Ok? && DistinctIds(all) ==>
        |after.value| == |before| + n && LeftOut(after.value) == all[..|after.value|]
  {
    hide DistinctIds, PreferredOf, HasId;
    if n > 0 {
      DropsAreAdded(allocations, drops, n - 1, before);
      var front, all := DropsAdded(allocations, drops, n - 1, before), LeftOut(before) + UnplacedAttractions(drops);
      if front.Ok? && DistinctIds(all) { NotYetLeftOut(front.value, all); }
    }
  }

  /** Adds what the final route dropped to the unplaced list, each attraction once. */
  method AddFinalDrops(allocations: seq<DayAllocation>, drops: seq<RouteUnplaced>, before: seq<ItineraryUnplaced>)
    returns (r: Outcome<seq<ItineraryUnplaced>>)
    ensures r == DropsAdded(allocations, drops, |drops|, before)
  {
    hide PreferredOf, HasId;
    var unplaced := before;
    var ids := set i | 0 <= i < |before| :: before[i].attraction.id;
    BeforeIds(before);
    for i := 0 to |drops|
      invariant DropsAdded(allocations, drops, i, before) == Ok(unplaced)
      invariant forall id :: id in ids <==> HasId(unplaced, id)
    {
      var id := drops[i].attraction.id;
      if id !in ids {
        var preferred := PreferredOf(allocations, id);
        if preferred.None? {
          DropsStayRaised(allocations, drops, i + 1, |drops|, before);
          return Raised(AllocationMissing);
        }
        var u := ItineraryUnplaced(drops[i].attraction, preferred.value, drops[i].code, []);
        forall other
          ensures HasId(unplaced + [u], other) <==> HasId(unplaced, other) || other == id
        {
          AppendHasId(unplaced, u, other);
        }
        unplaced := unplaced + [u];
        ids := ids + {id};
      }
    }
    r := Ok(unplaced);
  }

  lemma {:induction false} BeforeIds(before: seq<ItineraryUnplaced>)
    ensures forall id ::
      id in (set i | 0 <= i < |before| :: before[i].attraction.id) <==> HasId(before, id)
  {
  }
}
