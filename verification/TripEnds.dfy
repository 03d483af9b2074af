/** The traveller's own times: nothing is visited before the city is reached on the first day, and
    the last day leaves time for the way back and the check-in. */
module TripEnds {
  import opened Prelude
  import opened Models
  import opened TimeWindows
  import opened Timeline
  import opened Validation
  import opened Segments
  import opened Itinerary
  import opened BoardFacts
  import opened Phases
  import opened FinalPhase
  import opened Planner
  import A = Assignment
  import C = AssignmentChoice
  import P = SegmentProofs

  /** The day is routed for the date and within the bounds that step 1 planned. */
  predicate PlannedDay(day: RoutedDay, days: seq<DayPlan>) {
    exists k :: 0 <= k < |days| && days[k].visitDate == day.visitDate && days[k].bounds == day.bounds
  }

  lemma {:induction false} FinalDayIsPlanned(
    days: seq<DayPlan>, ordered: seq<Date>, board: Board, d: Date, world: World, oracle: Oracle, day: SegmentedDay,
    validation: RouteValidation)
    requires OracleObeys(world, oracle) && NoDuplicates(Map(PlanDate, days)) && ordered == DatesOf(days)
    requires d in ordered && d in BaseOf(days) && d in board
    requires FinalDay(PlanOn(BaseOf(days), board, d), world, oracle, day, validation)
    ensures PlannedDay(day.routedDay, days)
  {
    hide OracleObeys, BaseOf, BoardOf, SortedSet, SegmentSpec, ValidationSpec, SoundRoute, PeriodsCurrent, P.DinnerServed,
         P.FullDinnerKept, NoDuplicates;
    BoardIsAllocations(days, ordered);
    var k: nat :| SegmentSpec(PlanOn(BaseOf(days), board, d), world, oracle, k, DEFAULT_SETTINGS) == Ok(day);
    FinalDayFacts(PlanOn(BaseOf(days), board, d), world, oracle, k);
    var j :| 0 <= j < |days| && days[j] == BaseOf(days)[d];
    assert days[j].visitDate == day.routedDay.visitDate;
  }

  /** Every final day keeps the date and the bounds of a day of step 1. */
  lemma {:induction false} FinalDaysArePlanned(step1: Step1Plan, world: World, oracle: Oracle)
    requires OracleObeys(world, oracle) && ItinerarySpec(step1, world, oracle).Ok?
    ensures forall i :: 0 <= i < |ItinerarySpec(step1, world, oracle).value.days| ==>
      PlannedDay(ItinerarySpec(step1, world, oracle).value.days[i], step1.days)
  {
    hide OracleObeys, BaseOf, BoardOf, SortedSet, InitialReassignments, InitialUnplaced, RescuedSpec, FinalUpTo,
         AllocatedIds, Held, CanRoute, LeftOut, FinalDay, Consistent, PlannedDay, RescuedWell, NoDuplicates, PlanOn;
    ItineraryRoutesIff(step1, world, oracle);
    CanRouteFacts(step1, world);
    RescuedOutcome(step1, world, oracle);
    var s := RescuedSpec(step1, world, oracle).value;
    var ordered, base := DatesOf(step1.days), BaseOf(step1.days);
    assert Consistent(ordered, base, s.board) by { RescuedIsConsistent(step1, s, world, oracle); }
    ConsistentKeys(ordered, base, s.board);
    FinalDaysHold(ordered, |ordered|, base, s.board, s.unplaced, world, oracle, s.k);
    var plan := ItinerarySpec(step1, world, oracle).value;
    forall i | 0 <= i < |plan.days|
      ensures PlannedDay(plan.days[i], step1.days)
    {
      assert ordered[i] in ordered;
      FinalDayIsPlanned(
        step1.days, ordered, s.board, ordered[i], world, oracle, plan.segmentedDays[i], plan.validations[i]);
    }
  }

  lemma {:induction false} RescuedIsConsistent(step1: Step1Plan, s: Settlement, world: World, oracle: Oracle)
    requires OracleObeys(world, oracle) && RescuedWell(step1, s, world, oracle)
    ensures Consistent(DatesOf(step1.days), BaseOf(step1.days), s.board)
  {
    hide OracleObeys;
  }

  // ---- the ends of the trip ---------------------------------------------------------------------------

  predicate FirstOf(d: Date, dates: seq<Date>) {
    forall e :: e in dates ==> d <= e
  }

  predicate LastOf(d: Date, dates: seq<Date>) {
    forall e :: e in dates ==> e <= d
  }

  /** On the first date of the trip a visit begins after the way to the city, on the others at 9:00
      at the earliest; on the last date it ends in time for the way to the station and the check-in,
      on the others at 21:00 at the latest. */
  predicate InTripTime(v: RouteVisit, d: Date, tripDates: seq<Date>, anchors: TripTimeAnchors) {
    && (if FirstOf(d, tripDates) then anchors.arrivalMin + anchors.stationToCityMin <= v.arrivalMin else 540 <= v.arrivalMin)
    && (if LastOf(d, tripDates) then
          v.leaveMin + anchors.lastVisitToStationMin + anchors.stationEarlyMin <= anchors.departureMin
        else v.leaveMin <= 1260)
  }

  predicate KeepsTripTimes(plan: ItineraryPlan, tripDates: seq<Date>, anchors: TripTimeAnchors) {
    forall i, j :: 0 <= i < |plan.days| && 0 <= j < |plan.days[i].visits| ==>
      plan.days[i].visitDate in tripDates
      && InTripTime(plan.days[i].visits[j], plan.days[i].visitDate, tripDates, anchors)
  }

  lemma {:induction false} EndsOfTrip(tripDates: seq<Date>, i: nat)
    requires i < |SortedSet(tripDates)|
    ensures SortedSet(tripDates)[i] in tripDates
    ensures FirstOf(SortedSet(tripDates)[i], tripDates) <==> i == 0
    ensures LastOf(SortedSet(tripDates)[i], tripDates) <==> i == |SortedSet(tripDates)| - 1
  {
    hide SortedSet;
    var dates := SortedSet(tripDates);
    assert dates[i] in dates && dates[0] in dates && dates[|dates| - 1] in dates;
    forall e | e in tripDates
      ensures i == 0 ==> dates[i] <= e
      ensures i == |dates| - 1 ==> e <= dates[i]
    {
      var k :| 0 <= k < |dates| && dates[k] == e;
    }
  }

  /** Whatever the search answers, the finished itinerary keeps the traveller's own times. */
  lemma {:induction false} TripTimesAreKept(
    preferences: seq<AttractionPreference>, tripDates: seq<Date>, weather: Weather, anchors: TripTimeAnchors,
    mode: TravelMode, ratio: Option<real>, world: World, oracle: Oracle)
    requires OracleObeys(world, oracle) && A.AssignSpec(preferences, tripDates, weather, anchors, mode, ratio).Ok?
    requires
      var step1 := A.AssignSpec(preferences, tripDates, weather, anchors, mode, ratio).value;
      ItinerarySpec(step1, world, oracle).Ok? && HardSafe(ItinerarySpec(step1, world, oracle).value, world)
    ensures
      var step1 := A.AssignSpec(preferences, tripDates, weather, anchors, mode, ratio).value;
      KeepsTripTimes(ItinerarySpec(step1, world, oracle).value, tripDates, anchors)
  {
    hide OracleObeys, A.AssignSpec, ItinerarySpec, InTripTime, SortedSet, C.NobodyKeptAway, C.ListedDemandingFirst,
         SoundRoute, PeriodsCurrent, P.DinnerServed, P.FullDinnerKept, MayVisitOn, WindowMet, DurationMet;
    var step1 := A.AssignSpec(preferences, tripDates, weather, anchors, mode, ratio).value;
    var trip, plan := A.TripOf(tripDates, weather, mode, ratio), ItinerarySpec(step1, world, oracle).value;
    C.Step1ChoosesWell(preferences, tripDates, weather, anchors, mode, ratio);
    FinalDaysArePlanned(step1, world, oracle);
    forall i, j | 0 <= i < |plan.days| && 0 <= j < |plan.days[i].visits|
      ensures plan.days[i].visitDate in tripDates
      ensures InTripTime(plan.days[i].visits[j], plan.days[i].visitDate, tripDates, anchors)
    {
      var k :| 0 <= k < |step1.days| && step1.days[k].visitDate == plan.days[i].visitDate
        && step1.days[k].bounds == plan.days[i].bounds;
      assert C.OnTrip(step1.days[k], trip, anchors);
      var m :| 0 <= m < |trip.dates| && step1.days[k].visitDate == trip.dates[m]
        && ResolveDayTimeBounds(m + 1, |trip.dates|, anchors) == Bounds(step1.days[k].bounds);
      VisitInTripTime(plan.days[i], j, tripDates, anchors, m, world);
    }
  }

  lemma {:induction false} VisitInTripTime(
    day: RoutedDay, j: nat, tripDates: seq<Date>, anchors: TripTimeAnchors, m: nat, world: World)
    requires HardFeasible(day, world) && j < |day.visits| && m < |SortedSet(tripDates)|
    requires day.visitDate == SortedSet(tripDates)[m]
    requires ResolveDayTimeBounds(m + 1, |SortedSet(tripDates)|, anchors) == Bounds(day.bounds)
    ensures day.visitDate in tripDates && InTripTime(day.visits[j], day.visitDate, tripDates, anchors)
  {
    hide SortedSet, ResolveDayTimeBounds, MayVisitOn, WindowMet, FirstOf, LastOf, MinimumDuration;
    var v := day.visits[j];
    EndsOfTrip(tripDates, m);
    assert DurationMet(v) && InsideDay(v, day.bounds);
    MinimumDurationPositive(v.attraction, DEFAULT_DURATION_RATIO);
    DayBoundsAreExact(m + 1, |SortedSet(tripDates)|, anchors, v.arrivalMin, v.leaveMin);
  }
}
