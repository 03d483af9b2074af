/** Which date a dropped attraction goes to, and which dates refused it: distances in days, stated
    apart from the sorting that the rescue loop does. */
module RescueOrder {
  import opened Prelude
  import opened Models
  import opened TimeWindows
  import opened Segments
  import opened Itinerary
  import opened BoardFacts
  import opened Phases

  /** `d` is nearer to the preferred date than `e`, or equally near and earlier. */
  predicate Sooner(preferred: Date, d: Date, e: Date) {
    || DaysApart(d, preferred) < DaysApart(e, preferred)
    || (DaysApart(d, preferred) == DaysApart(e, preferred) && d < e)
  }

  ghost predicate Named(attempts: seq<RoutingAttempt>, d: Date) {
    exists i :: 0 <= i < |attempts| && attempts[i].visitDate == d
  }

  /** The recorded attempts are other dates that refused, nearest to the preferred date first. */
  ghost predicate RefusedInOrder(
    x: Dropped, ordered: seq<Date>, base: map<Date, DayPlan>, board: Board, attempts: seq<RoutingAttempt>,
    world: World, oracle: Oracle, start: nat)
    requires OracleObeys(world, oracle) && forall d :: d in ordered ==> d in base && d in board
  {
    && (forall i :: 0 <= i < |attempts| ==>
          && attempts[i].visitDate in ordered && attempts[i].visitDate != x.source
          && Refused(x, attempts[i].visitDate, attempts[i], base, board, world, oracle, start + 2 * i))
    && (forall i, j :: 0 <= i < j < |attempts| ==>
          Sooner(x.allocation.preferredDate, attempts[i].visitDate, attempts[j].visitDate))
  }

  /** The date taken accepts, and the dates that refused before are exactly those nearer to the
      preferred date; if none is taken, every other date refused. */
  ghost predicate NearestTaken(
    x: Dropped, ordered: seq<Date>, base: map<Date, DayPlan>, board: Board, rescue: Rescue,
    world: World, oracle: Oracle, start: nat)
    requires OracleObeys(world, oracle) && forall d :: d in ordered ==> d in base && d in board
  {
    && RefusedInOrder(x, ordered, base, board, rescue.attempts, world, oracle, start)
    && match rescue.target
       case None => forall d :: d in ordered && d != x.source ==> Named(rescue.attempts, d)
       case Some(target) =>
         && target in ordered && target != x.source
         && Trial(x, target, base, board, world, oracle, start + 2 * |rescue.attempts|) == Ok([])
         && forall d :: d in ordered && d != x.source ==>
              (Named(rescue.attempts, d) <==> Sooner(x.allocation.preferredDate, d, target))
  }

  lemma {:induction false} OtherDatesDistinct(ordered: seq<Date>, source: Date)
    requires StrictlyIncreasing(ordered)
    ensures NoDuplicates(OtherDates(ordered, source))
  {
    if ordered != [] {
      HeadIsLeast(ordered);
      var rest := OtherDates(ordered[1..], source);
      OtherDatesDistinct(ordered[1..], source);
      OtherDatesExact(ordered[1..], source);
      assert forall i :: 0 <= i < |rest| ==> rest[i] in rest;
    }
  }

  lemma {:induction false} NearestIsPreorder(preferred: Date)
    ensures TotalPreorder(Nearest(preferred))
  {
  }

  lemma {:induction false} NearestMeansSooner(preferred: Date, d: Date, e: Date)
    requires Nearest(preferred)(d, e) && d != e
    ensures Sooner(preferred, d, e)
  {
    assert Abs(d - preferred) == DaysApart(d, preferred) && Abs(e - preferred) == DaysApart(e, preferred);
  }

  /** The dates tried come nearest first. */
  lemma {:induction false} DatesTriedSooner(ordered: seq<Date>, x: Dropped)
    requires StrictlyIncreasing(ordered)
    ensures
      var dates := RescueDates(ordered, x);
      forall i, j :: 0 <= i < j < |dates| ==> Sooner(x.allocation.preferredDate, dates[i], dates[j])
  {
    hide Sort, Sooner, TotalPreorder, StrictlyIncreasing, OtherDates, Nearest;
    var preferred, dates := x.allocation.preferredDate, RescueDates(ordered, x);
    OtherDatesDistinct(ordered, x.source);
    NoDuplicatesMultiset(OtherDates(ordered, x.source), dates);
    NearestIsPreorder(preferred);
    assert SortedBy(dates, Nearest(preferred));
    forall i, j | 0 <= i < j < |dates|
      ensures Sooner(preferred, dates[i], dates[j])
    {
      assert Nearest(preferred)(dates[i], dates[j]);
      NearestMeansSooner(preferred, dates[i], dates[j]);
    }
  }

  /** A dropped attraction goes to the nearest date that accepts it, and the record names exactly
      the nearer ones, each with its reasons, in the order of their distance. */
  lemma {:induction false} RescueTakesNearestDate(
    x: Dropped, ordered: seq<Date>, base: map<Date, DayPlan>, board: Board, world: World, oracle: Oracle, start: nat)
    requires OracleObeys(world, oracle) && StrictlyIncreasing(ordered)
    requires forall d :: d in ordered ==> d in base && d in board
    requires RescueSpec(x, ordered, base, board, world, oracle, start).Ok?
    ensures
      NearestTaken(
        x, ordered, base, board, RescueSpec(x, ordered, base, board, world, oracle, start).value, world, oracle, start)
  {
    hide OracleObeys, Trial, RescueDates, RescueUpTo, Sooner;
    var dates := RescueDates(ordered, x);
    RescueDatesExact(ordered, x);
    DatesTriedSooner(ordered, x);
    RescueTakesFirstDate(x, dates, |dates|, base, board, world, oracle, start);
    var rescue := RescueSpec(x, ordered, base, board, world, oracle, start).value;
    forall i | 0 <= i < |rescue.attempts|
      ensures rescue.attempts[i].visitDate == dates[i] && dates[i] in dates
      ensures Refused(x, dates[i], rescue.attempts[i], base, board, world, oracle, start + 2 * i)
    {
      assert Refused(x, dates[i], rescue.attempts[i], base, board, world, oracle, start + 2 * i);
    }
    forall d | d in ordered && d != x.source
      ensures Named(rescue.attempts, d) <==>
        rescue.target.None? || Sooner(x.allocation.preferredDate, d, rescue.target.value)
    {
      assert d in dates;
      var i :| 0 <= i < |dates| && dates[i] == d;
      if i < |rescue.attempts| {
        assert rescue.attempts[i].visitDate == d;
      } else {
        NotSoonerLater(x.allocation.preferredDate, dates, |rescue.attempts|, i);
      }
    }
  }

  lemma {:induction false} NotSoonerLater(preferred: Date, dates: seq<Date>, i: nat, j: nat)
    requires i <= j < |dates|
    requires forall a, b :: 0 <= a < b < |dates| ==> Sooner(preferred, dates[a], dates[b])
    ensures !Sooner(preferred, dates[j], dates[i])
    ensures forall k :: 0 <= k < j ==> dates[k] != dates[j]
  {
    if i < j { assert Sooner(preferred, dates[i], dates[j]); }
    forall k | 0 <= k < j
      ensures dates[k] != dates[j]
    {
      assert Sooner(preferred, dates[k], dates[j]);
    }
  }

  // ---- why a date refuses before anything is routed -------------------------------------------------

  ghost predicate StayFitsDay(allocation: DayAllocation, target: Date, bounds: DayTimeBounds) {
    exists t :: FitsDay(allocation.attraction, target, bounds, t, allocation.requiredDurationMin)
  }

  /** Reason `c` speaks against the date. */
  ghost predicate SpeaksAgainst(allocation: DayAllocation, target: Date, bounds: DayTimeBounds, weather: Weather, c: RejectionCode) {
    match c
    case ClosedOnDate => !IsOpenOn(allocation.attraction, target)
    case WeatherDataMissing => target !in weather
    case ExtremeWeatherOutdoor => target in weather && !WeatherPermits(allocation.attraction, weather[target])
    case NoMatchingTimeRule => DefaultWindow(allocation.attraction, target) == NoWindow(NoMatchingTimeRule)
    case TimeRuleConflict => DefaultWindow(allocation.attraction, target) == NoWindow(TimeRuleConflict)
    case ArrivalAfterLatestArrival =>
      DefaultWindow(allocation.attraction, target).Window? && !StayFitsDay(allocation, target, bounds)
    case _ => false
  }

  /** The pre-check names exactly the reasons that speak against a date, and passes exactly if the
      attraction may be visited there and its whole stay fits somewhere in the day. */
  lemma {:induction false} PrecheckIsExact(
    allocation: DayAllocation, target: Date, bounds: DayTimeBounds, weather: Weather, c: RejectionCode)
    ensures c in PrecheckReasons(allocation, target, bounds, weather) <==> SpeaksAgainst(allocation, target, bounds, weather, c)
    ensures PrecheckReasons(allocation, target, bounds, weather) == [] <==>
      MayVisitOn(allocation.attraction, target, weather) && StayFitsDay(allocation, target, bounds)
  {
    hide ResolveEffectiveWindow, IsOpenOn, WeatherPermits, LatestFor;
    var resolution := DefaultWindow(allocation.attraction, target);
    if resolution.Window? {
      var earliest := Max(bounds.startMin, resolution.window.openMin);
      if StayFitsDay(allocation, target, bounds) {
        var t :| FitsDay(allocation.attraction, target, bounds, t, allocation.requiredDurationMin);
        assert FitsDay(allocation.attraction, target, bounds, earliest, allocation.requiredDurationMin);
      }
      assert FitsDay(allocation.attraction, target, bounds, earliest, allocation.requiredDurationMin) ==>
        StayFitsDay(allocation, target, bounds);
    }
  }

  // ---- the whole rescue loop ------------------------------------------------------------------------

  /** What one round of the loop does with what the search over the dates found. */
  predicate Recorded(x: Dropped, before: Settlement, rescue: Rescue, after: Settlement) {
    match rescue.target
    case None =>
      && after.board == before.board && after.reassignments == before.reassignments
      && after.unplaced == before.unplaced + [
           ItineraryUnplaced(x.allocation.attraction, x.allocation.preferredDate, x.code, rescue.attempts)]
    case Some(target) =>
      && after.unplaced == before.unplaced
      && after.reassignments == before.reassignments + [Reassignment(x.allocation.attraction, x.source, target)]
      && after.board.Keys == before.board.Keys
      && (forall d :: d in before.board && d != target ==> after.board[d] == before.board[d])
      && (target in before.board ==>
            |after.board[target]| == |before.board[target]| + 1
            && after.board[target][..|before.board[target]|] == before.board[target]
            && var moved := after.board[target][|before.board[target]|];
               moved.attraction == x.allocation.attraction && moved.assignedDate == target
               && moved.preferredDate == x.allocation.preferredDate
               && moved.requiredDurationMin == x.allocation.requiredDurationMin
               && moved.visitPeriod == x.allocation.visitPeriod)
  }

  lemma {:induction false} RoundTakesNearestDate(
    x: Dropped, ordered: seq<Date>, base: map<Date, DayPlan>, s: Settlement, world: World, oracle: Oracle)
    returns (rescue: Rescue)
    requires OracleObeys(world, oracle) && StrictlyIncreasing(ordered)
    requires forall d :: d in ordered ==> d in base && d in s.board
    requires AfterRescue(x, ordered, base, s, world, oracle).Ok?
    ensures NearestTaken(x, ordered, base, s.board, rescue, world, oracle, s.k)
    ensures Recorded(x, s, rescue, AfterRescue(x, ordered, base, s, world, oracle).value)
  {
    hide OracleObeys, RescueSpec, NearestTaken;
    RescueTakesNearestDate(x, ordered, base, s.board, world, oracle, s.k);
    rescue := RescueSpec(x, ordered, base, s.board, world, oracle, s.k).value;
  }

  lemma {:induction false} RescuesReach(
    dropped: seq<Dropped>, n: nat, m: nat, ordered: seq<Date>, base: map<Date, DayPlan>, start: Settlement,
    world: World, oracle: Oracle)
    requires OracleObeys(world, oracle) && n <= m <= |dropped|
    requires forall d :: d in ordered ==> d in base && d in start.board
    requires RescuesUpTo(dropped, m, ordered, base, start, world, oracle).Ok?
    ensures RescuesUpTo(dropped, n, ordered, base, start, world, oracle).Ok?
  {
    hide OracleObeys, AfterRescue;
    if RescuesUpTo(dropped, n, ordered, base, start, world, oracle).Raised? {
      RescuesStayRaised(dropped, n, m, ordered, base, start, world, oracle);
    }
  }

  /** In a run of the rescue loop every dropped attraction, when its turn comes, goes to the nearest
      date that accepts it on the board of that moment, or is given up with the refusals of every
      other date; nothing else changes. */
  lemma {:induction false} EveryRescueTakesNearestDate(
    dropped: seq<Dropped>, i: nat, ordered: seq<Date>, base: map<Date, DayPlan>, start: Settlement,
    world: World, oracle: Oracle)
    returns (before: Settlement, rescue: Rescue, after: Settlement)
    requires OracleObeys(world, oracle) && i < |dropped| && StrictlyIncreasing(ordered)
    requires forall d :: d in ordered ==> d in base && d in start.board
    requires RescuesUpTo(dropped, |dropped|, ordered, base, start, world, oracle).Ok?
    ensures RescuesUpTo(dropped, i, ordered, base, start, world, oracle) == Ok(before)
    ensures RescuesUpTo(dropped, i + 1, ordered, base, start, world, oracle) == Ok(after)
    ensures before.board.Keys == start.board.Keys
    ensures NearestTaken(dropped[i], ordered, base, before.board, rescue, world, oracle, before.k)
    ensures Recorded(dropped[i], before, rescue, after)
  {
    hide OracleObeys, NearestTaken, Recorded, AfterRescue;
    RescuesReach(dropped, i, |dropped|, ordered, base, start, world, oracle);
    RescuesReach(dropped, i + 1, |dropped|, ordered, base, start, world, oracle);
    before := RescuesUpTo(dropped, i, ordered, base, start, world, oracle).value;
    after := RescuesUpTo(dropped, i + 1, ordered, base, start, world, oracle).value;
    rescue := RoundTakesNearestDate(dropped[i], ordered, base, before, world, oracle);
  }
}
