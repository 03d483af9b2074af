/** The final routing of every day, and what it makes of the board. */
module FinalPhase {
  import opened Prelude
  import opened Models
  import opened TimeWindows
  import opened Timeline
  import opened Validation
  import opened Routing
  import opened Segments
  import opened Itinerary
  import opened BoardFacts
  import opened Phases
  import P = SegmentProofs

  function RoutedDays(segmented: seq<SegmentedDay>): (days: seq<RoutedDay>)
    ensures |days| == |segmented|
    ensures forall i :: 0 <= i < |days| ==> days[i] == segmented[i].routedDay
  {
    Map((s: SegmentedDay) => s.routedDay, segmented)
  }

  /** What one final day makes of its plan: the same feasible day whatever was searched, with
      its own allocations split into visited and unplaced. */
  lemma {:induction false} FinalDayFacts(plan: DayPlan, world: World, oracle: Oracle, k: nat)
    requires OracleObeys(world, oracle)
    requires SegmentSpec(plan, world, oracle, k, DEFAULT_SETTINGS).Ok?
    ensures P.DayOutcome(plan, world, DEFAULT_SETTINGS, SegmentSpec(plan, world, oracle, k, DEFAULT_SETTINGS).value)
  {
    hide SegmentSpec, OracleObeys, ObeysModel;
    P.SegmentedDayIsSafe(plan, world, oracle, k, DEFAULT_SETTINGS);
  }

  predicate Planned(allocations: seq<DayAllocation>, a: Attraction) {
    exists j :: 0 <= j < |allocations| && allocations[j].attraction == a
  }

  lemma {:induction false} AccountedIsPlanned(plan: DayPlan, day: RoutedDay, i: nat)
    requires multiset(Accounted(day)) == multiset(AllocationAttractions(plan.allocations))
    requires i < |Accounted(day)|
    ensures Planned(plan.allocations, Accounted(day)[i])
  {
    var planned := AllocationAttractions(plan.allocations);
    MultisetMembers(Accounted(day), planned);
    assert Accounted(day)[i] in planned;
    var j :| 0 <= j < |planned| && planned[j] == Accounted(day)[i];
    assert plan.allocations[j].attraction == Accounted(day)[i];
  }

  lemma {:induction false} DropsArePlanned(plan: DayPlan, day: RoutedDay)
    requires multiset(Accounted(day)) == multiset(AllocationAttractions(plan.allocations))
    ensures forall i :: 0 <= i < |day.unplaced| ==> PreferredOf(plan.allocations, day.unplaced[i].attraction.id).Some?
    ensures forall i :: 0 <= i < |day.visits| ==> Planned(plan.allocations, day.visits[i].attraction)
  {
    forall i | 0 <= i < |day.unplaced|
      ensures PreferredOf(plan.allocations, day.unplaced[i].attraction.id).Some?
    {
      assert Accounted(day)[|day.visits| + i] == day.unplaced[i].attraction;
      AccountedIsPlanned(plan, day, |day.visits| + i);
    }
    forall i | 0 <= i < |day.visits|
      ensures Planned(plan.allocations, day.visits[i].attraction)
    {
      assert Accounted(day)[i] == day.visits[i].attraction;
      AccountedIsPlanned(plan, day, i);
    }
  }

  /** A routed day whose allocations all satisfy C1 and C5 passes the whole re-check. */
  lemma {:induction false} AdmissibleDayIsValid(plan: DayPlan, day: RoutedDay, world: World)
    requires SoundRoute(day, world) && (world.bufferRatio >= 1.0 || day.visits == []) && day.visitDate == plan.visitDate
    requires multiset(Accounted(day)) == multiset(AllocationAttractions(plan.allocations))
    requires forall i :: 0 <= i < |plan.allocations| ==>
      Admissible(plan.allocations[i], plan.visitDate, world.weather)
    ensures ValidationSpec(day, world) == Ok(RouteValidation(true, []))
  {
    hide SoundRoute, MayVisitOn, MinimumDuration, ValidationSpec, Accounted;
    DropsArePlanned(plan, day);
    forall i | 0 <= i < |day.visits|
      ensures MayVisitOn(day.visits[i].attraction, day.visitDate, world.weather)
    {
      assert Planned(plan.allocations, day.visits[i].attraction);
      var j :| 0 <= j < |plan.allocations| && plan.allocations[j].attraction == day.visits[i].attraction;
      assert Admissible(plan.allocations[j], plan.visitDate, world.weather);
    }
    SoundRouteIsValid(day, world);
  }

  /** The final phase's books: what is scheduled so far, what is unplaced so far, and what is
      still on the board. */
  ghost predicate Balanced(
    ordered: seq<Date>, board: Board, i: nat, days: seq<RoutedDay>, unplaced: seq<ItineraryUnplaced>,
    whole: multiset<Attraction>)
    requires i <= |ordered|
  {
    multiset(ScheduledOn(days)) + multiset(LeftOut(unplaced)) + multiset(Held(ordered[i..], board)) == whole
  }

  lemma {:induction false} HeldHead(ordered: seq<Date>, i: nat, board: Board)
    requires i < |ordered|
    ensures Held(ordered[i..], board) == AttractionsOn(board, ordered[i]) + Held(ordered[i + 1..], board)
  {
    hide AttractionsOn;
    assert ordered[i..] == [ordered[i]] + ordered[i + 1..];
    HeldConcat([ordered[i]], ordered[i + 1..], board);
    HeldOne(ordered[i], board);
  }

  lemma {:induction false} ScheduledAppend(days: seq<RoutedDay>, day: RoutedDay)
    ensures ScheduledOn(days + [day]) == ScheduledOn(days) + VisitAttractions(day.visits)
  {
    assert (days + [day])[..|days|] == days;
  }

  lemma {:induction false} BooksStayBalanced(
    ordered: seq<Date>, board: Board, i: nat, days: seq<RoutedDay>, unplaced: seq<ItineraryUnplaced>,
    whole: multiset<Attraction>, day: RoutedDay, after: seq<ItineraryUnplaced>)
    requires i < |ordered| && ordered[i] in board
    requires Balanced(ordered, board, i, days, unplaced, whole)
    requires multiset(Accounted(day)) == multiset(AllocationAttractions(board[ordered[i]]))
    requires LeftOut(after) == LeftOut(unplaced) + UnplacedAttractions(day.unplaced)
    ensures Balanced(ordered, board, i + 1, days + [day], after, whole)
  {
    hide Held, ScheduledOn, LeftOut, VisitAttractions, UnplacedAttractions, AllocationAttractions;
    HeldHead(ordered, i, board);
    ScheduledAppend(days, day);
    assert multiset(Held(ordered[i..], board))
        == multiset(AttractionsOn(board, ordered[i])) + multiset(Held(ordered[i + 1..], board));
    assert multiset(Accounted(day))
        == multiset(VisitAttractions(day.visits)) + multiset(UnplacedAttractions(day.unplaced));
    assert multiset(LeftOut(after)) == multiset(LeftOut(unplaced)) + multiset(UnplacedAttractions(day.unplaced));
  }

  lemma {:induction false} DropsAreNew(
    ordered: seq<Date>, board: Board, i: nat, days: seq<RoutedDay>, unplaced: seq<ItineraryUnplaced>,
    whole: seq<Attraction>, day: RoutedDay)
    requires i < |ordered| && ordered[i] in board && DistinctIds(whole)
    requires Balanced(ordered, board, i, days, unplaced, multiset(whole))
    requires multiset(Accounted(day)) == multiset(AllocationAttractions(board[ordered[i]]))
    ensures DistinctIds(LeftOut(unplaced) + UnplacedAttractions(day.unplaced))
  {
    hide Held, ScheduledOn, LeftOut, VisitAttractions, UnplacedAttractions, AllocationAttractions, DistinctIds;
    HeldHead(ordered, i, board);
    assert multiset(Accounted(day))
        == multiset(VisitAttractions(day.visits)) + multiset(UnplacedAttractions(day.unplaced));
    assert multiset(Held(ordered[i..], board))
        == multiset(AttractionsOn(board, ordered[i])) + multiset(Held(ordered[i + 1..], board));
    DistinctIdsPart(LeftOut(unplaced) + UnplacedAttractions(day.unplaced), whole);
  }

  lemma {:induction false} PlanOnIsRoutable(ordered: seq<Date>, base: map<Date, DayPlan>, board: Board, world: World, d: Date)
    requires Consistent(ordered, base, board) && d in ordered
    requires world.bufferRatio >= 1.0 || board[d] == []
    requires BoardFitting(board) && DistinctIds(Held(ordered, board))
    ensures Routable(PlanOn(base, board, d), world)
  {
    hide Held, Fitting, DistinctIds, Loadable;
    HeldContains(ordered, board, d);
    DistinctIdsPart(AllocationAttractions(board[d]), Held(ordered, board));
    FittingPlanIsLoadable(base[d], board[d]);
  }

  lemma {:induction false} FinalDayDrops(plan: DayPlan, world: World, oracle: Oracle, k: nat)
    requires OracleObeys(world, oracle)
    requires SegmentSpec(plan, world, oracle, k, DEFAULT_SETTINGS).Ok?
    ensures
      var day := SegmentSpec(plan, world, oracle, k, DEFAULT_SETTINGS).value.routedDay;
      && multiset(Accounted(day)) == multiset(AllocationAttractions(plan.allocations))
      && forall i :: 0 <= i < |day.unplaced| ==>
           PreferredOf(plan.allocations, day.unplaced[i].attraction.id).Some?
  {
    hide OracleObeys, ObeysModel, SegmentSpec, SoundRoute, PeriodsCurrent, ValidationSpec, P.DinnerServed,
         P.FullDinnerKept;
    FinalDayFacts(plan, world, oracle, k);
    DropsArePlanned(plan, SegmentSpec(plan, world, oracle, k, DEFAULT_SETTINGS).value.routedDay);
  }

  /** What the final phase returns for one date. */
  ghost predicate FinalDay(plan: DayPlan, world: World, oracle: Oracle, day: SegmentedDay, validation: RouteValidation)
    requires OracleObeys(world, oracle)
  {
    && (exists k: nat :: SegmentSpec(plan, world, oracle, k, DEFAULT_SETTINGS) == Ok(day))
    && ValidationSpec(day.routedDay, world) == Ok(validation)
  }

  datatype Finished = Finished(
    segmented: seq<SegmentedDay>, validations: seq<RouteValidation>, unplaced: seq<ItineraryUnplaced>)

  /** One more date routed, re-checked, and its drops accounted for. */
  ghost function AfterFinal(plan: DayPlan, f: Finished, world: World, oracle: Oracle, k: nat): Outcome<Finished>
    requires OracleObeys(world, oracle)
  {
    var routed := SegmentSpec(plan, world, oracle, k, DEFAULT_SETTINGS);
    if routed.Raised? then Raised(routed.error)
    else
      var day := routed.value.routedDay;
      var validation := ValidationSpec(day, world);
      if validation.Raised? then Raised(validation.error)
      else
        var unplaced := DropsAdded(plan.allocations, day.unplaced, |day.unplaced|, f.unplaced);
        if unplaced.Raised? then Raised(unplaced.error)
        else Ok(Finished(f.segmented + [routed.value], f.validations + [validation.value], unplaced.value))
  }

  /** The final phase after its first `n` dates. */
  ghost function FinalUpTo(
    ordered: seq<Date>, n: nat, base: map<Date, DayPlan>, board: Board, leftOut: seq<ItineraryUnplaced>,
    world: World, oracle: Oracle, start: nat): Outcome<Finished>
    requires OracleObeys(world, oracle) && n <= |ordered| && forall d :: d in ordered ==> d in base && d in board
  {
    if n == 0 then Ok(Finished([], [], leftOut))
    else
      var before := FinalUpTo(ordered, n - 1, base, board, leftOut, world, oracle, start);
      if before.Raised? then before
      else AfterFinal(PlanOn(base, board, ordered[n - 1]), before.value, world, oracle, start + 2 * (n - 1))
  }

  lemma {:induction false} FinalStaysRaised(
    ordered: seq<Date>, n: nat, m: nat, base: map<Date, DayPlan>, board: Board, leftOut: seq<ItineraryUnplaced>,
    world: World, oracle: Oracle, start: nat)
    requires OracleObeys(world, oracle) && n <= m <= |ordered|
    requires forall d :: d in ordered ==> d in base && d in board
    requires FinalUpTo(ordered, n, base, board, leftOut, world, oracle, start).Raised?
    ensures FinalUpTo(ordered, m, base, board, leftOut, world, oracle, start)
      == FinalUpTo(ordered, n, base, board, leftOut, world, oracle, start)
  {
    hide OracleObeys, AfterFinal;
    if n < m { FinalStaysRaised(ordered, n, m - 1, base, board, leftOut, world, oracle, start); }
  }

  /** Re-routes every day of the board and validates it. */
  method RouteFinally(
    ordered: seq<Date>, base: map<Date, DayPlan>, board: Board, leftOut: seq<ItineraryUnplaced>,
    world: World, oracle: Oracle, start: nat)
    returns (r: Outcome<Finished>)
    requires OracleObeys(world, oracle) && forall d :: d in ordered ==> d in base && d in board
    ensures r == FinalUpTo(ordered, |ordered|, base, board, leftOut, world, oracle, start)
  {
    hide OracleObeys, ObeysModel, SegmentSpec, ValidationSpec, DropsAdded, RebuildDayPlan;
    var segmented, validations, unplaced := [], [], leftOut;
    for i := 0 to |ordered|
      invariant FinalUpTo(ordered, i, base, board, leftOut, world, oracle, start)
        == Ok(Finished(segmented, validations, unplaced))
    {
      var d := ordered[i];
      assert d in ordered;
      var plan := PlanOn(base, board, d);
      var routed := RouteSegmentedDay(plan, world, oracle, start + 2 * i, DEFAULT_SETTINGS);
      if routed.Raised? {
        FinalStaysRaised(ordered, i + 1, |ordered|, base, board, leftOut, world, oracle, start);
        return Raised(routed.error);
      }
      var day := routed.value.routedDay;
      var validation := ValidateRoutedDay(day, world);
      if validation.Raised? {
        FinalStaysRaised(ordered, i + 1, |ordered|, base, board, leftOut, world, oracle, start);
        return Raised(validation.error);
      }
      var after := AddFinalDrops(plan.allocations, day.unplaced, unplaced);
      if after.Raised? {
        FinalStaysRaised(ordered, i + 1, |ordered|, base, board, leftOut, world, oracle, start);
        return Raised(after.error);
      }
      segmented, validations := segmented + [routed.value], validations + [validation.value];
      unplaced := after.value;
    }
    r := Ok(Finished(segmented, validations, unplaced));
  }

  /** Every date's result is what the segmented router and the re-check say about its plan. */
  lemma {:induction false} FinalDaysHold(
    ordered: seq<Date>, n: nat, base: map<Date, DayPlan>, board: Board, leftOut: seq<ItineraryUnplaced>,
    world: World, oracle: Oracle, start: nat)
    requires OracleObeys(world, oracle) && n <= |ordered| && forall d :: d in ordered ==> d in base && d in board
    requires FinalUpTo(ordered, n, base, board, leftOut, world, oracle, start).Ok?
    ensures
      var f := FinalUpTo(ordered, n, base, board, leftOut, world, oracle, start).value;
      && |f.segmented| == |f.validations| == n
      && forall i :: 0 <= i < n ==>
           FinalDay(PlanOn(base, board, ordered[i]), world, oracle, f.segmented[i], f.validations[i])
  {
    hide OracleObeys, AfterFinal, FinalDay, PlanOn;
    if n > 0 {
      FinalDaysHold(ordered, n - 1, base, board, leftOut, world, oracle, start);
      var before := FinalUpTo(ordered, n - 1, base, board, leftOut, world, oracle, start).value;
      FinalDayAppended(PlanOn(base, board, ordered[n - 1]), before, world, oracle, start + 2 * (n - 1));
    }
  }

  lemma {:induction false} FinalDayAppended(plan: DayPlan, f: Finished, world: World, oracle: Oracle, k: nat)
    requires OracleObeys(world, oracle) && AfterFinal(plan, f, world, oracle, k).Ok?
    ensures
      var after := AfterFinal(plan, f, world, oracle, k).value;
      && |after.segmented| == |f.segmented| + 1 && |after.validations| == |f.validations| + 1
      && after.segmented[..|f.segmented|] == f.segmented && after.validations[..|f.validations|] == f.validations
      && FinalDay(plan, world, oracle, after.segmented[|f.segmented|], after.validations[|f.validations|])
  {
    hide OracleObeys, SegmentSpec, ValidationSpec, DropsAdded;
  }

  /** One date keeps the books: its visits are scheduled and its drops newly unplaced. */
  lemma {:induction false} FinalKeepsBooks(
    ordered: seq<Date>, n: nat, base: map<Date, DayPlan>, board: Board, f: Finished, whole: seq<Attraction>,
    world: World, oracle: Oracle, k: nat)
    requires OracleObeys(world, oracle) && n < |ordered| && ordered[n] in base && ordered[n] in board
    requires DistinctIds(whole)
    requires Balanced(ordered, board, n, RoutedDays(f.segmented), f.unplaced, multiset(whole))
    ensures
      var after := AfterFinal(PlanOn(base, board, ordered[n]), f, world, oracle, k);
      after.Ok? ==> Balanced(ordered, board, n + 1, RoutedDays(after.value.segmented), after.value.unplaced, multiset(whole))
  {
    hide OracleObeys, SegmentSpec, ValidationSpec, DistinctIds, DropsAdded, Balanced, Accounted, AllocationAttractions,
         LeftOut, UnplacedAttractions;
    var plan := PlanOn(base, board, ordered[n]);
    var after := AfterFinal(plan, f, world, oracle, k);
    if after.Ok? {
      var routed := SegmentSpec(plan, world, oracle, k, DEFAULT_SETTINGS).value;
      var day := routed.routedDay;
      FinalDayDrops(plan, world, oracle, k);
      DropsAreNew(ordered, board, n, RoutedDays(f.segmented), f.unplaced, whole, day);
      AllDropsAdded(plan.allocations, day.unplaced, f.unplaced);
      BooksStayBalanced(
        ordered, board, n, RoutedDays(f.segmented), f.unplaced, multiset(whole), day, after.value.unplaced);
      assert RoutedDays(f.segmented + [routed]) == RoutedDays(f.segmented) + [day];
    }
  }

  lemma {:induction false} AllDropsAdded(allocations: seq<DayAllocation>, drops: seq<RouteUnplaced>, before: seq<ItineraryUnplaced>)
    requires DistinctIds(LeftOut(before) + UnplacedAttractions(drops))
    ensures
      var after := DropsAdded(allocations, drops, |drops|, before);
      after.Ok? ==> LeftOut(after.value) == LeftOut(before) + UnplacedAttractions(drops)
  {
    hide DistinctIds, DropsAdded;
    DropsAreAdded(allocations, drops, |drops|, before);
    var all := LeftOut(before) + UnplacedAttractions(drops);
    assert all[..|all|] == all;
  }

  lemma {:induction false} FinalBooksKept(
    ordered: seq<Date>, n: nat, base: map<Date, DayPlan>, board: Board, leftOut: seq<ItineraryUnplaced>,
    world: World, oracle: Oracle, start: nat)
    requires OracleObeys(world, oracle) && n <= |ordered| && forall d :: d in ordered ==> d in base && d in board
    requires FinalUpTo(ordered, n, base, board, leftOut, world, oracle, start).Ok?
    requires DistinctIds(Held(ordered, board) + LeftOut(leftOut))
    ensures
      var f := FinalUpTo(ordered, n, base, board, leftOut, world, oracle, start).value;
      Balanced(ordered, board, n, RoutedDays(f.segmented), f.unplaced, multiset(Held(ordered, board) + LeftOut(leftOut)))
  {
    hide OracleObeys, AfterFinal, DistinctIds, Balanced, Held, LeftOut;
    if n == 0 {
      BooksOpen(ordered, board, leftOut);
    } else {
      FinalBooksKept(ordered, n - 1, base, board, leftOut, world, oracle, start);
      var before := FinalUpTo(ordered, n - 1, base, board, leftOut, world, oracle, start).value;
      assert ordered[n - 1] in ordered;
      FinalKeepsBooks(
        ordered, n - 1, base, board, before, Held(ordered, board) + LeftOut(leftOut), world, oracle, start + 2 * (n - 1));
    }
  }

  /** The final phase neither loses nor duplicates an attraction, whatever the search answers. */
  lemma {:induction false} FinalConserves(
    ordered: seq<Date>, base: map<Date, DayPlan>, board: Board, leftOut: seq<ItineraryUnplaced>,
    world: World, oracle: Oracle, start: nat)
    requires OracleObeys(world, oracle) && forall d :: d in ordered ==> d in base && d in board
    requires FinalUpTo(ordered, |ordered|, base, board, leftOut, world, oracle, start).Ok?
    requires DistinctIds(Held(ordered, board) + LeftOut(leftOut))
    ensures
      var f := FinalUpTo(ordered, |ordered|, base, board, leftOut, world, oracle, start).value;
      multiset(ScheduledOn(RoutedDays(f.segmented))) + multiset(LeftOut(f.unplaced))
      == multiset(Held(ordered, board)) + multiset(LeftOut(leftOut))
  {
    hide OracleObeys, FinalUpTo, DistinctIds, Balanced, Held, LeftOut;
    FinalBooksKept(ordered, |ordered|, base, board, leftOut, world, oracle, start);
    var f := FinalUpTo(ordered, |ordered|, base, board, leftOut, world, oracle, start).value;
    BooksClose(ordered, board, RoutedDays(f.segmented), f.unplaced, multiset(Held(ordered, board) + LeftOut(leftOut)));
  }

  lemma {:induction false} FinalSucceeds(
    ordered: seq<Date>, n: nat, base: map<Date, DayPlan>, board: Board, leftOut: seq<ItineraryUnplaced>,
    world: World, oracle: Oracle, start: nat)
    requires OracleObeys(world, oracle) && n <= |ordered| && Consistent(ordered, base, board)
    requires world.bufferRatio >= 1.0 || forall d :: d in board && d in ordered ==> board[d] == []
    requires BoardFitting(board) && DistinctIds(Held(ordered, board))
    ensures FinalUpTo(ordered, n, base, board, leftOut, world, oracle, start).Ok?
  {
    hide OracleObeys, BoardFitting, DistinctIds, Held, AfterFinal, Routable;
    if n > 0 {
      FinalSucceeds(ordered, n - 1, base, board, leftOut, world, oracle, start);
      var before := FinalUpTo(ordered, n - 1, base, board, leftOut, world, oracle, start).value;
      PlanOnIsRoutable(ordered, base, board, world, ordered[n - 1]);
      FinalDaySucceeds(PlanOn(base, board, ordered[n - 1]), before, world, oracle, start + 2 * (n - 1));
    }
  }

  lemma {:induction false} FinalDaySucceeds(plan: DayPlan, f: Finished, world: World, oracle: Oracle, k: nat)
    requires OracleObeys(world, oracle) && Routable(plan, world)
    ensures AfterFinal(plan, f, world, oracle, k).Ok?
  {
    hide OracleObeys, SegmentSpec, ValidationSpec, PreferredOf, Routable, DropsAdded, DistinctIds, LeftOut,
         UnplacedAttractions, Accounted, AllocationAttractions;
    PlanSucceeds(plan, world, oracle, k);
    FinalDayDrops(plan, world, oracle, k);
    var day := SegmentSpec(plan, world, oracle, k, DEFAULT_SETTINGS).value.routedDay;
    DropsAreAdded(plan.allocations, day.unplaced, |day.unplaced|, f.unplaced);
  }

  // ---- what step 1 had left out already -----------------------------------------------------------

  /** Nobody on a list has the id of an allocation. */
  predicate NotListed(prefix: seq<ItineraryUnplaced>, allocations: seq<DayAllocation>) {
    forall a, u :: a in allocations && u in prefix ==> a.attraction.id != u.attraction.id
  }

  lemma {:induction false} DropsIgnoreListed(
    allocations: seq<DayAllocation>, drops: seq<RouteUnplaced>, n: nat, prefix: seq<ItineraryUnplaced>,
    before: seq<ItineraryUnplaced>)
    requires n <= |drops|
    requires forall i :: 0 <= i < |drops| ==> !HasId(prefix, drops[i].attraction.id)
    ensures
      var after, full := DropsAdded(allocations, drops, n, before), DropsAdded(allocations, drops, n, prefix + before);
      full == if after.Ok? then Ok(prefix + after.value) else after
  {
    hide PreferredOf, HasId;
    if n > 0 {
      DropsIgnoreListed(allocations, drops, n - 1, prefix, before);
      var front, drop := DropsAdded(allocations, drops, n - 1, before), drops[n - 1];
      if front.Ok? {
        HasIdConcat(prefix, front.value, drop.attraction.id);
        var preferred := PreferredOf(allocations, drop.attraction.id);
        if preferred.Some? {
          var u := ItineraryUnplaced(drop.attraction, preferred.value, drop.code, []);
          assert (prefix + front.value) + [u] == prefix + (front.value + [u]);
        }
      }
    }
  }

  lemma {:induction false} HasIdConcat(a: seq<ItineraryUnplaced>, b: seq<ItineraryUnplaced>, id: int)
    ensures HasId(a + b, id) <==> HasId(a, id) || HasId(b, id)
  {
    if HasId(a, id) {
      var i :| 0 <= i < |a| && a[i].attraction.id == id;
      assert (a + b)[i] == a[i];
    }
    if HasId(b, id) {
      var i :| 0 <= i < |b| && b[i].attraction.id == id;
      assert (a + b)[|a| + i] == b[i];
    }
  }

  function ListedFirst(prefix: seq<ItineraryUnplaced>, r: Outcome<Finished>): Outcome<Finished> {
    if r.Ok? then Ok(r.value.(unplaced := prefix + r.value.unplaced)) else r
  }

  lemma {:induction false} FinalIgnoresListed(
    plan: DayPlan, prefix: seq<ItineraryUnplaced>, f: Finished, world: World, oracle: Oracle, k: nat)
    requires OracleObeys(world, oracle) && NotListed(prefix, plan.allocations)
    ensures AfterFinal(plan, f.(unplaced := prefix + f.unplaced), world, oracle, k)
      == ListedFirst(prefix, AfterFinal(plan, f, world, oracle, k))
  {
    hide OracleObeys, SegmentSpec, ValidationSpec, DropsAdded;
    var routed := SegmentSpec(plan, world, oracle, k, DEFAULT_SETTINGS);
    if routed.Ok? {
      var day := routed.value.routedDay;
      FinalDayDrops(plan, world, oracle, k);
      forall i | 0 <= i < |day.unplaced|
        ensures !HasId(prefix, day.unplaced[i].attraction.id)
      {
        DropIsNotListed(plan, prefix, day, i);
      }
      DropsIgnoreListed(plan.allocations, day.unplaced, |day.unplaced|, prefix, f.unplaced);
    }
  }

  lemma {:induction false} DropIsNotListed(plan: DayPlan, prefix: seq<ItineraryUnplaced>, day: RoutedDay, i: nat)
    requires NotListed(prefix, plan.allocations) && i < |day.unplaced|
    requires multiset(Accounted(day)) == multiset(AllocationAttractions(plan.allocations))
    ensures !HasId(prefix, day.unplaced[i].attraction.id)
  {
    var a := day.unplaced[i].attraction;
    assert Accounted(day)[|day.visits| + i] == a;
    AccountedIsPlanned(plan, day, |day.visits| + i);
    var j :| 0 <= j < |plan.allocations| && plan.allocations[j].attraction == a;
    assert plan.allocations[j] in plan.allocations;
  }

  lemma {:induction false} FinalPhaseIgnoresListed(
    ordered: seq<Date>, n: nat, base: map<Date, DayPlan>, board: Board, prefix: seq<ItineraryUnplaced>,
    leftOut: seq<ItineraryUnplaced>, world: World, oracle: Oracle, start: nat)
    requires OracleObeys(world, oracle) && n <= |ordered| && forall d :: d in ordered ==> d in base && d in board
    requires forall d :: d in ordered ==> NotListed(prefix, board[d])
    ensures FinalUpTo(ordered, n, base, board, prefix + leftOut, world, oracle, start)
      == ListedFirst(prefix, FinalUpTo(ordered, n, base, board, leftOut, world, oracle, start))
  {
    hide OracleObeys, AfterFinal, NotListed;
    if n > 0 {
      FinalPhaseIgnoresListed(ordered, n - 1, base, board, prefix, leftOut, world, oracle, start);
      var before := FinalUpTo(ordered, n - 1, base, board, leftOut, world, oracle, start);
      var d := ordered[n - 1];
      assert d in ordered;
      if before.Ok? {
        FinalIgnoresListed(PlanOn(base, board, d), prefix, before.value, world, oracle, start + 2 * (n - 1));
      }
    }
  }

  lemma {:induction false} BooksOpen(ordered: seq<Date>, board: Board, leftOut: seq<ItineraryUnplaced>)
    ensures Balanced(ordered, board, 0, RoutedDays([]), leftOut, multiset(Held(ordered, board) + LeftOut(leftOut)))
  {
    hide Held, LeftOut;
    assert ordered[0..] == ordered;
  }

  lemma {:induction false} BooksClose(
    ordered: seq<Date>, board: Board, days: seq<RoutedDay>, unplaced: seq<ItineraryUnplaced>, whole: multiset<Attraction>)
    requires Balanced(ordered, board, |ordered|, days, unplaced, whole)
    ensures multiset(ScheduledOn(days)) + multiset(LeftOut(unplaced)) == whole
  {
    hide ScheduledOn, LeftOut;
    assert ordered[|ordered|..] == [];
  }

  // ---- settled days stay complete ------------------------------------------------------------------

  /** A day on which everything is visited has nothing unplaced. */
  lemma {:induction false} AllVisitedLeavesNobody(plan: DayPlan, day: RoutedDay)
    requires multiset(Accounted(day)) == multiset(AllocationAttractions(plan.allocations))
    requires DistinctIds(AllocationAttractions(plan.allocations))
    requires VisitIds(day.visits) == AllocationIdSet(plan.allocations)
    ensures day.unplaced == []
    ensures multiset(VisitAttractions(day.visits)) == multiset(AllocationAttractions(plan.allocations))
  {
    var accounted := Accounted(day);
    DistinctIdsPermute(AllocationAttractions(plan.allocations), accounted);
    MultisetMembers(accounted, AllocationAttractions(plan.allocations));
    if day.unplaced != [] {
      var u := day.unplaced[0].attraction;
      assert accounted[|day.visits|] == u;
      AccountedIsPlanned(plan, day, |day.visits|);
      assert u.id in AllocationIdSet(plan.allocations);
      forall i | 0 <= i < |day.visits|
        ensures day.visits[i].attraction.id != u.id
      {
        assert Map(IdOf, accounted)[i] != Map(IdOf, accounted)[|day.visits|];
      }
    }
    assert accounted == VisitAttractions(day.visits);
  }
}
