/** What it means for a chain of visits to be hard-feasible: the vocabulary in which
    every routing stage is specified. */
module Timeline {
  import opened Prelude
  import opened Models
  import opened TimeWindows
  import opened VisitPeriods

  /** C2 and C4 for one visit, with the duration floor and consistent times. */
  predicate SoundVisit(v: RouteVisit, date: Date, bounds: DayTimeBounds) {
    && FitsDay(v.attraction, date, bounds, v.arrivalMin, v.plannedDurationMin)
    && v.leaveMin == v.arrivalMin + v.plannedDurationMin
    && v.plannedDurationMin >= MinimumDuration(v.attraction, DEFAULT_DURATION_RATIO)
  }

  /** C6 between consecutive visits, with the travel stored on the later one. */
  predicate SoundEdge(u: RouteVisit, v: RouteVisit, world: World) {
    var travel := world.provider(u.attraction.id, v.attraction.id);
    && travel.Some?
    && v.travelFromPrevious == travel
    && v.bufferedTravelMin == Buffered(travel.value, world.bufferRatio)
    && v.arrivalMin >= u.leaveMin + v.bufferedTravelMin
  }

  predicate NoTravelBefore(visits: seq<RouteVisit>) {
    visits != [] ==> visits[0].travelFromPrevious == None && visits[0].bufferedTravelMin == 0
  }

  predicate SoundVisits(visits: seq<RouteVisit>, date: Date, bounds: DayTimeBounds, world: World) {
    && (forall i :: 0 <= i < |visits| ==> SoundVisit(visits[i], date, bounds))
    && (forall i :: 1 <= i < |visits| ==> SoundEdge(visits[i - 1], visits[i], world))
  }

  /** A feasible day whose totals are the sums over its consecutive edges. */
  predicate SoundRoute(day: RoutedDay, world: World) {
    && SoundVisits(day.visits, day.visitDate, day.bounds, world)
    && NoTravelBefore(day.visits)
    && day.totalTravelMin == TravelTotal(day.visits)
    && day.totalBufferedMin == BufferedTotal(day.visits)
  }

  /** Re-evaluating a period preference at a new arrival. */
  function Reevaluate(period: Option<VisitPeriodEvaluation>, arrival: int): Option<VisitPeriodEvaluation> {
    if period.Some? then Some(EvaluateVisitPeriod(arrival, period.value.preference)) else None
  }

  /** The stored period evaluation is the one of the current arrival. */
  predicate PeriodCurrent(v: RouteVisit) {
    v.visitPeriod == Reevaluate(v.visitPeriod, v.arrivalMin)
  }

  predicate PeriodsCurrent(visits: seq<RouteVisit>) {
    forall i :: 0 <= i < |visits| ==> PeriodCurrent(visits[i])
  }

  lemma {:induction false} TotalsConcat(a: seq<RouteVisit>, b: seq<RouteVisit>)
    ensures TravelTotal(a + b) == TravelTotal(a) + TravelTotal(b)
    ensures BufferedTotal(a + b) == BufferedTotal(a) + BufferedTotal(b)
  {
    var buffered := (v: RouteVisit) => v.bufferedTravelMin;
    assert Map(TravelOf, a + b) == Map(TravelOf, a) + Map(TravelOf, b);
    SumConcat(Map(TravelOf, a), Map(TravelOf, b));
    assert Map(buffered, a + b) == Map(buffered, a) + Map(buffered, b);
    SumConcat(Map(buffered, a), Map(buffered, b));
  }

  lemma {:induction false} TotalsOfOne(v: RouteVisit)
    ensures TravelTotal([v]) == TravelOf(v)
    ensures BufferedTotal([v]) == v.bufferedTravelMin
  {
    var buffered := (w: RouteVisit) => w.bufferedTravelMin;
    SumOfOne(Map(TravelOf, [v]));
    SumOfOne(Map(buffered, [v]));
  }

  lemma {:induction false} AppendVisit(visits: seq<RouteVisit>, v: RouteVisit)
    ensures TravelTotal(visits + [v]) == TravelTotal(visits) + TravelOf(v)
    ensures BufferedTotal(visits + [v]) == BufferedTotal(visits) + v.bufferedTravelMin
  {
    TotalsConcat(visits, [v]);
    TotalsOfOne(v);
  }

  lemma {:induction false} TotalsEmpty()
    ensures TravelTotal([]) == 0 && BufferedTotal([]) == 0
  {
  }

  lemma {:induction false} BufferedNonNegative(travel: nat, ratio: real)
    requires ratio >= 1.0
    ensures Buffered(travel, ratio) >= travel
  {
    CeilScaledAtLeast(travel, ratio);
  }

  /** Every planned stay takes at least a minute. */
  lemma {:induction false} MinimumDurationPositive(attraction: Attraction, ratio: real)
    requires ratio > 0.0
    ensures MinimumDuration(attraction, ratio) >= 1
  {
    CeilScaledPositive(attraction.suggestedDuration, ratio);
  }
}
