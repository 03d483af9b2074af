/** A segmented day is feasible, accounts for every allocation, and serves dinner whenever a
    considered gap admits one. */
module SegmentProofs {
  import opened Prelude
  import opened Models
  import opened TimeWindows
  import opened VisitPeriods
  import opened Timeline
  import opened Routing
  import opened Validation
  import opened Refinement
  import opened RefinementProofs
  import opened Segments

  // ---- merging ------------------------------------------------------------------------------

  /** A segment's route as the routing stage delivers it. */
  predicate SegmentRoute(route: Option<RoutedDay>, plan: DayPlan, world: World) {
    route.Some? ==>
      && SoundRoute(route.value, world)
      && PeriodsCurrent(route.value.visits)
      && route.value.visitDate == plan.visitDate
      && route.value.bounds == plan.bounds
  }

  function AccountedOf(route: Option<RoutedDay>): seq<Attraction> {
    VisitAttractions(VisitsOf(route)) + UnplacedAttractions(UnplacedOf(route))
  }

  lemma {:induction false} SegmentTotals(route: Option<RoutedDay>, plan: DayPlan, world: World)
    requires SegmentRoute(route, plan, world)
    ensures SoundVisits(VisitsOf(route), plan.visitDate, plan.bounds, world)
    ensures NoTravelBefore(VisitsOf(route)) && PeriodsCurrent(VisitsOf(route))
    ensures TravelOfRoute(route) == TravelTotal(VisitsOf(route))
    ensures BufferedOfRoute(route) == BufferedTotal(VisitsOf(route))
  {
    hide SoundVisits, NoTravelBefore;
    TotalsEmpty();
    if route.None? { EmptyIsSound(plan, world); }
  }

  lemma {:induction false} EmptyIsSound(plan: DayPlan, world: World)
    ensures SoundVisits([], plan.visitDate, plan.bounds, world) && NoTravelBefore([])
  {
  }

  /** A uniform shift keeps every edge; whether the windows still fit is checked afterwards. */
  lemma {:induction false} ShiftKeepsEdges(visits: seq<RouteVisit>, shift: int, world: World)
    requires forall i :: 1 <= i < |visits| ==> SoundEdge(visits[i - 1], visits[i], world)
    requires PeriodsCurrent(visits)
    ensures
      var r := ShiftAll(visits, shift);
      && (forall i :: 1 <= i < |r| ==> SoundEdge(r[i - 1], r[i], world))
      && PeriodsCurrent(r)
      && VisitAttractions(r) == VisitAttractions(visits)
      && TravelTotal(r) == TravelTotal(visits) && BufferedTotal(r) == BufferedTotal(visits)
  {
    hide TimeBucketFor, PreferredPeriodBounds, Buffered;
    var r := ShiftAll(visits, shift);
    forall i | 1 <= i < |r|
      ensures SoundEdge(r[i - 1], r[i], world)
    {
      assert SoundEdge(visits[i - 1], visits[i], world);
    }
    forall i | 0 <= i < |r|
      ensures PeriodCurrent(r[i])
    {
      assert PeriodCurrent(visits[i]);
    }
    assert VisitAttractions(r) == VisitAttractions(visits);
    assert Map(TravelOf, r) == Map(TravelOf, visits);
    var buffered := (v: RouteVisit) => v.bufferedTravelMin;
    assert Map(buffered, r) == Map(buffered, visits);
  }

  /** The first evening visit with the crossing stored on it. */
  function WithCrossing(shifted: seq<RouteVisit>, travel: nat, cross: int): seq<RouteVisit>
    requires shifted != []
  {
    shifted[0 := shifted[0].(travelFromPrevious := Some(travel), bufferedTravelMin := cross)]
  }

  lemma {:induction false} CrossingTotals(shifted: seq<RouteVisit>, travel: nat, cross: int)
    requires shifted != [] && NoTravelBefore(shifted)
    ensures TravelTotal(WithCrossing(shifted, travel, cross)) == TravelTotal(shifted) + travel
    ensures BufferedTotal(WithCrossing(shifted, travel, cross)) == BufferedTotal(shifted) + cross
    ensures VisitAttractions(WithCrossing(shifted, travel, cross)) == VisitAttractions(shifted)
  {
    var r := WithCrossing(shifted, travel, cross);
    assert r == [r[0]] + shifted[1..] && shifted == [shifted[0]] + shifted[1..];
    TotalsConcat([r[0]], shifted[1..]);
    TotalsConcat([shifted[0]], shifted[1..]);
    TotalsOfOne(r[0]);
    TotalsOfOne(shifted[0]);
  }

  /** Two sound stretches with a sound crossing between them are one sound stretch. */
  lemma {:induction false} JoinIsSound(a: seq<RouteVisit>, b: seq<RouteVisit>, world: World)
    requires a != [] && b != []
    requires forall i :: 1 <= i < |a| ==> SoundEdge(a[i - 1], a[i], world)
    requires forall i :: 1 <= i < |b| ==> SoundEdge(b[i - 1], b[i], world)
    requires SoundEdge(a[|a| - 1], b[0], world)
    ensures forall i :: 1 <= i < |a + b| ==> SoundEdge((a + b)[i - 1], (a + b)[i], world)
  {
    hide SoundEdge;
    forall i | 1 <= i < |a + b|
      ensures SoundEdge((a + b)[i - 1], (a + b)[i], world)
    {
      if i > |a| { assert SoundEdge(b[i - |a| - 1], b[i - |a|], world); }
    }
  }

  lemma {:induction false} ShiftKeepsLengths(visits: seq<RouteVisit>, shift: int)
    ensures
      var r := ShiftAll(visits, shift);
      forall i :: 0 <= i < |visits| ==>
        && r[i].arrivalMin == visits[i].arrivalMin + shift && r[i].leaveMin == visits[i].leaveMin + shift
        && r[i].plannedDurationMin == visits[i].plannedDurationMin && r[i].attraction == visits[i].attraction
        && r[i].travelFromPrevious == visits[i].travelFromPrevious
        && r[i].bufferedTravelMin == visits[i].bufferedTravelMin
  {
    hide Reevaluate;
  }

  /** The crossing is a sound edge, and so are the edges on either side of it. */
  lemma {:induction false} CombinedEdges(a: seq<RouteVisit>, e: seq<RouteVisit>, travel: nat, world: World)
    requires a != [] && e != [] && PeriodsCurrent(e)
    requires forall i :: 1 <= i < |a| ==> SoundEdge(a[i - 1], a[i], world)
    requires forall i :: 1 <= i < |e| ==> SoundEdge(e[i - 1], e[i], world)
    requires world.provider(a[|a| - 1].attraction.id, e[0].attraction.id) == Some(travel)
    ensures
      var cross := Buffered(travel, world.bufferRatio);
      var shifted := ShiftAll(e, CrossShift(a[|a| - 1], e[0], cross));
      var visits := a + WithCrossing(shifted, travel, cross);
      forall i :: 1 <= i < |visits| ==> SoundEdge(visits[i - 1], visits[i], world)
  {
    hide Reevaluate, Buffered;
    var cross := Buffered(travel, world.bufferRatio);
    var shift := CrossShift(a[|a| - 1], e[0], cross);
    var shifted := ShiftAll(e, shift);
    ShiftKeepsEdges(e, shift, world);
    ShiftKeepsLengths(e, shift);
    var b := WithCrossing(shifted, travel, cross);
    forall i | 1 <= i < |b|
      ensures SoundEdge(b[i - 1], b[i], world)
    {
      assert SoundEdge(shifted[i - 1], shifted[i], world);
    }
    JoinIsSound(a, b, world);
  }

  lemma {:induction false} CombinedVisits(
    a: seq<RouteVisit>, e: seq<RouteVisit>, shift: int, travel: nat, cross: int, date: Date, bounds: DayTimeBounds)
    requires a != [] && e != [] && PeriodsCurrent(a) && PeriodsCurrent(e)
    requires forall i :: 0 <= i < |a| ==> SoundVisit(a[i], date, bounds)
    requires forall i :: 0 <= i < |e| ==> SoundVisit(e[i], date, bounds)
    requires
      var visits := a + WithCrossing(ShiftAll(e, shift), travel, cross);
      forall i :: 0 <= i < |visits| ==>
        FitsDay(visits[i].attraction, date, bounds, visits[i].arrivalMin, visits[i].plannedDurationMin)
    ensures
      var visits := a + WithCrossing(ShiftAll(e, shift), travel, cross);
      && (forall i :: 0 <= i < |visits| ==> SoundVisit(visits[i], date, bounds))
      && PeriodsCurrent(visits)
  {
    hide FitsDay, MinimumDuration, TimeBucketFor, PreferredPeriodBounds;
    var shifted := ShiftAll(e, shift);
    var visits := a + WithCrossing(shifted, travel, cross);
    forall i | 0 <= i < |visits|
      ensures SoundVisit(visits[i], date, bounds) && PeriodCurrent(visits[i])
    {
      if i >= |a| {
        assert SoundVisit(e[i - |a|], date, bounds) && PeriodCurrent(e[i - |a|]);
      }
    }
  }

  lemma {:induction false} CombinedIsSound(plan: DayPlan, daytime: Option<RoutedDay>, evening: Option<RoutedDay>, world: World, travel: nat)
    requires SegmentRoute(daytime, plan, world) && SegmentRoute(evening, plan, world)
    requires VisitsOf(daytime) != [] && VisitsOf(evening) != []
    requires
      var last := VisitsOf(daytime)[|VisitsOf(daytime)| - 1];
      world.provider(last.attraction.id, VisitsOf(evening)[0].attraction.id) == Some(travel)
    requires TimesFit(CombinedCandidate(plan, daytime, evening, world, travel))
    ensures SoundRoute(CombinedCandidate(plan, daytime, evening, world, travel), world)
    ensures PeriodsCurrent(CombinedCandidate(plan, daytime, evening, world, travel).visits)
  {
    hide Reevaluate, FitsDay, SoundVisit, SoundEdge, Buffered, PeriodCurrent;
    SegmentTotals(daytime, plan, world);
    SegmentTotals(evening, plan, world);
    var a, e := VisitsOf(daytime), VisitsOf(evening);
    var cross := Buffered(travel, world.bufferRatio);
    var shift := CrossShift(a[|a| - 1], e[0], cross);
    var shifted := ShiftAll(e, shift);
    ShiftKeepsEdges(e, shift, world);
    ShiftKeepsLengths(e, shift);
    var b := WithCrossing(shifted, travel, cross);
    CrossingTotals(shifted, travel, cross);
    TotalsConcat(a, b);
    CombinedEdges(a, e, travel, world);
    var day := CombinedCandidate(plan, daytime, evening, world, travel);
    assert day.visits == a + b;
    CombinedVisits(a, e, shift, travel, cross, plan.visitDate, plan.bounds);
  }

  /** The merged route before its windows are checked. */
  function CombinedCandidate(plan: DayPlan, daytime: Option<RoutedDay>, evening: Option<RoutedDay>, world: World, travel: nat): RoutedDay
    requires VisitsOf(daytime) != [] && VisitsOf(evening) != []
  {
    var last := VisitsOf(daytime)[|VisitsOf(daytime)| - 1];
    var cross := Buffered(travel, world.bufferRatio);
    CombinedRoute(
      plan, daytime, evening, ShiftAll(VisitsOf(evening), CrossShift(last, VisitsOf(evening)[0], cross)), travel, cross)
  }

  /** The daytime stays as it was; the evening moves by one common shift, the least that
      leaves time for the crossing. */
  predicate UniformlyShifted(daytime: seq<RouteVisit>, evening: seq<RouteVisit>, visits: seq<RouteVisit>, shift: int) {
    && |visits| == |daytime| + |evening|
    && visits[..|daytime|] == daytime
    && forall i :: 0 <= i < |evening| ==>
         var v := visits[|daytime| + i];
         && v.attraction == evening[i].attraction
         && v.arrivalMin == evening[i].arrivalMin + shift
         && v.leaveMin == evening[i].leaveMin + shift
         && v.plannedDurationMin == evening[i].plannedDurationMin
  }

  predicate LeastShift(last: RouteVisit, first: RouteVisit, cross: int, shift: int) {
    && shift >= 0
    && last.leaveMin + cross <= first.arrivalMin + shift
    && (shift > 0 ==> last.leaveMin + cross == first.arrivalMin + shift)
  }

  predicate MergeAccepted(plan: DayPlan, daytime: Option<RoutedDay>, evening: Option<RoutedDay>, merged: Merged) {
    var a, e := VisitsOf(daytime), VisitsOf(evening);
    && merged.rejection.None?
    && merged.day.unplaced == UnplacedOf(daytime) + UnplacedOf(evening)
    && |merged.day.visits| == |a| + |e|
    && (if a == [] || e == [] then merged.day.visits == a + e
        else
          var shift := merged.day.visits[|a|].arrivalMin - e[0].arrivalMin;
          && UniformlyShifted(a, e, merged.day.visits, shift)
          && LeastShift(a[|a| - 1], e[0], merged.cross, shift))
  }

  predicate MergeRejected(plan: DayPlan, daytime: Option<RoutedDay>, evening: Option<RoutedDay>, merged: Merged) {
    && merged.rejection.Some?
    && merged.day.visits == VisitsOf(daytime)
    && |merged.day.unplaced| == |UnplacedOf(daytime)| + |UnplacedOf(evening)| + |VisitsOf(evening)|
    && merged.day.unplaced[..|UnplacedOf(daytime)| + |UnplacedOf(evening)|] == UnplacedOf(daytime) + UnplacedOf(evening)
    && forall i :: 0 <= i < |VisitsOf(evening)| ==>
         merged.day.unplaced[|UnplacedOf(daytime)| + |UnplacedOf(evening)| + i]
         == RouteUnplaced(VisitsOf(evening)[i].attraction, merged.rejection.value)
  }

  lemma {:induction false} CombinedIsAccepted(plan: DayPlan, daytime: Option<RoutedDay>, evening: Option<RoutedDay>, world: World, travel: nat)
    requires VisitsOf(daytime) != [] && VisitsOf(evening) != []
    ensures
      var cross := Buffered(travel, world.bufferRatio);
      var merged := Merged(CombinedCandidate(plan, daytime, evening, world, travel), None, cross);
      && MergeAccepted(plan, daytime, evening, merged)
      && CrossStored(merged.day, |VisitsOf(daytime)|, cross)
  {
    hide Reevaluate, Buffered;
    var a, e := VisitsOf(daytime), VisitsOf(evening);
    ShiftKeepsLengths(e, CrossShift(a[|a| - 1], e[0], Buffered(travel, world.bufferRatio)));
  }

  lemma {:induction false} OneSegmentIsSound(plan: DayPlan, daytime: Option<RoutedDay>, evening: Option<RoutedDay>, world: World)
    requires SegmentRoute(daytime, plan, world) && SegmentRoute(evening, plan, world)
    requires VisitsOf(daytime) == [] || VisitsOf(evening) == []
    ensures
      var merged := MergeSegments(plan, daytime, evening, world);
      SoundRoute(merged.day, world) && PeriodsCurrent(merged.day.visits)
      && MergeAccepted(plan, daytime, evening, merged)
      && CrossStored(merged.day, |VisitsOf(daytime)|, merged.cross)
  {
    hide SoundVisits, PeriodCurrent;
    SegmentTotals(daytime, plan, world);
    SegmentTotals(evening, plan, world);
    TotalsEmpty();
    var a, e := VisitsOf(daytime), VisitsOf(evening);
    assert a + e == if a == [] then e else a;
  }

  /** Merging yields one feasible route with the evening uniformly shifted, or the daytime
      route with the whole evening listed as unplaced; its totals are always the sums over the
      edges it kept. */
  lemma {:induction false} MergeIsCorrect(plan: DayPlan, daytime: Option<RoutedDay>, evening: Option<RoutedDay>, world: World)
    requires SegmentRoute(daytime, plan, world) && SegmentRoute(evening, plan, world)
    ensures
      var merged := MergeSegments(plan, daytime, evening, world);
      && SoundRoute(merged.day, world)
      && PeriodsCurrent(merged.day.visits)
      && CrossStored(merged.day, |VisitsOf(daytime)|, merged.cross)
      && (MergeAccepted(plan, daytime, evening, merged) || MergeRejected(plan, daytime, evening, merged))
  {
    hide SoundVisits, Buffered, PeriodCurrent, TimesFit, MergeAccepted, MergeRejected, ShiftVisit, SegmentRoute;
    var a, e := VisitsOf(daytime), VisitsOf(evening);
    if a == [] || e == [] {
      OneSegmentIsSound(plan, daytime, evening, world);
    } else {
      SegmentTotals(daytime, plan, world);
      var travel := world.provider(a[|a| - 1].attraction.id, e[0].attraction.id);
      if travel.None? {
        RejectedEvening(plan, daytime, evening, e, OdDataMissing);
      } else {
        var cross := Buffered(travel.value, world.bufferRatio);
        var shifted := ShiftAll(e, CrossShift(a[|a| - 1], e[0], cross));
        var candidate := CombinedCandidate(plan, daytime, evening, world, travel.value);
        if TimesFit(candidate) {
          CombinedIsSound(plan, daytime, evening, world, travel.value);
          CombinedIsAccepted(plan, daytime, evening, world, travel.value);
        } else {
          ShiftKeepsLengths(e, CrossShift(a[|a| - 1], e[0], cross));
          RejectedEvening(plan, daytime, evening, shifted, TransitInfeasible);
        }
      }
    }
  }

  lemma {:induction false} RejectedEvening(
    plan: DayPlan, daytime: Option<RoutedDay>, evening: Option<RoutedDay>, rejected: seq<RouteVisit>, code: RejectionCode)
    requires |rejected| == |VisitsOf(evening)|
    requires forall i :: 0 <= i < |rejected| ==> rejected[i].attraction == VisitsOf(evening)[i].attraction
    ensures MergeRejected(plan, daytime, evening, RejectEvening(plan, daytime, evening, rejected, code))
  {
  }

  /** Delaying the whole evening by `delay` leaves time for the crossing and keeps every
      evening visit inside its window and the day. */
  predicate DelayWorks(last: RouteVisit, evening: seq<RouteVisit>, date: Date, bounds: DayTimeBounds, cross: int, delay: int)
    requires evening != []
  {
    && delay >= 0
    && last.leaveMin + cross <= evening[0].arrivalMin + delay
    && forall i :: 0 <= i < |evening| ==>
         FitsDay(evening[i].attraction, date, bounds, evening[i].arrivalMin + delay, evening[i].plannedDurationMin)
  }

  /** The evening is rejected for lack of travel data, or when no common delay whatsoever
      would make it feasible; trying the least one is enough. */
  lemma {:induction false} MergeRejectsOnlyIfNoDelayWorks(
    plan: DayPlan, daytime: Option<RoutedDay>, evening: Option<RoutedDay>, world: World, delay: int)
    requires SegmentRoute(daytime, plan, world) && SegmentRoute(evening, plan, world)
    requires VisitsOf(daytime) != [] && VisitsOf(evening) != []
    ensures
      var a, e := VisitsOf(daytime), VisitsOf(evening);
      var travel := world.provider(a[|a| - 1].attraction.id, e[0].attraction.id);
      var rejection := MergeSegments(plan, daytime, evening, world).rejection;
      && (rejection == Some(OdDataMissing) <==> travel.None?)
      && (travel.Some? ==>
            var cross := Buffered(travel.value, world.bufferRatio);
            && (DelayWorks(a[|a| - 1], e, plan.visitDate, plan.bounds, cross, delay) ==> rejection.None?)
            && (rejection.None? ==>
                  DelayWorks(a[|a| - 1], e, plan.visitDate, plan.bounds, cross, CrossShift(a[|a| - 1], e[0], cross))))
  {
    hide Buffered, TimesFit, PeriodsCurrent, CombinedRoute, FitsDay, SoundRoute, SegmentRoute;
    SegmentTotals(evening, plan, world);
    var a, e := VisitsOf(daytime), VisitsOf(evening);
    var travel := world.provider(a[|a| - 1].attraction.id, e[0].attraction.id);
    if travel.Some? {
      var cross := Buffered(travel.value, world.bufferRatio);
      var least := CrossShift(a[|a| - 1], e[0], cross);
      CombinedFitsIff(plan, daytime, evening, world, travel.value);
      if DelayWorks(a[|a| - 1], e, plan.visitDate, plan.bounds, cross, delay) {
        forall i | 0 <= i < |e|
          ensures FitsDay(e[i].attraction, plan.visitDate, plan.bounds, e[i].arrivalMin + least, e[i].plannedDurationMin)
        {
          assert SoundVisit(e[i], plan.visitDate, plan.bounds);
          FitsBetween(e[i], plan.visitDate, plan.bounds, least, delay);
        }
      }
    }
  }

  predicate EveningFits(evening: seq<RouteVisit>, date: Date, bounds: DayTimeBounds, delay: int) {
    forall i :: 0 <= i < |evening| ==>
      FitsDay(evening[i].attraction, date, bounds, evening[i].arrivalMin + delay, evening[i].plannedDurationMin)
  }

  lemma {:induction false} CombinedTimes(plan: DayPlan, daytime: Option<RoutedDay>, evening: Option<RoutedDay>, world: World, travel: nat)
    requires VisitsOf(daytime) != [] && VisitsOf(evening) != []
    ensures
      var a, e := VisitsOf(daytime), VisitsOf(evening);
      var least := CrossShift(a[|a| - 1], e[0], Buffered(travel, world.bufferRatio));
      var candidate := CombinedCandidate(plan, daytime, evening, world, travel);
      && candidate.visitDate == plan.visitDate && candidate.bounds == plan.bounds
      && |candidate.visits| == |a| + |e|
      && (forall i :: 0 <= i < |a| ==> candidate.visits[i] == a[i])
      && (forall j :: 0 <= j < |e| ==>
            && candidate.visits[|a| + j].attraction == e[j].attraction
            && candidate.visits[|a| + j].arrivalMin == e[j].arrivalMin + least
            && candidate.visits[|a| + j].plannedDurationMin == e[j].plannedDurationMin)
  {
    CombinedIsAccepted(plan, daytime, evening, world, travel);
    hide Buffered, Reevaluate, CrossShift, ShiftVisit;
    var a, e := VisitsOf(daytime), VisitsOf(evening);
    var visits := CombinedCandidate(plan, daytime, evening, world, travel).visits;
    FirstCombinedArrival(plan, daytime, evening, world, travel);
    forall i | 0 <= i < |a|
      ensures visits[i] == a[i]
    {
      assert visits[..|a|][i] == a[i];
    }
  }

  lemma {:induction false} FirstCombinedArrival(plan: DayPlan, daytime: Option<RoutedDay>, evening: Option<RoutedDay>, world: World, travel: nat)
    requires VisitsOf(daytime) != [] && VisitsOf(evening) != []
    ensures
      var a, e := VisitsOf(daytime), VisitsOf(evening);
      var least := CrossShift(a[|a| - 1], e[0], Buffered(travel, world.bufferRatio));
      var candidate := CombinedCandidate(plan, daytime, evening, world, travel);
      && candidate.visitDate == plan.visitDate && candidate.bounds == plan.bounds
      && |candidate.visits| == |a| + |e| && candidate.visits[|a|].arrivalMin == e[0].arrivalMin + least
  {
    hide Buffered, Reevaluate, CrossShift;
  }

  /** The daytime part of the merged route fits as it did before. */
  lemma {:induction false} DaytimeFits(visits: seq<RouteVisit>, daytime: seq<RouteVisit>, date: Date, bounds: DayTimeBounds, world: World)
    requires SoundVisits(daytime, date, bounds, world) && |daytime| <= |visits|
    requires forall i :: 0 <= i < |daytime| ==> visits[i] == daytime[i]
    ensures forall i :: 0 <= i < |daytime| ==>
      FitsDay(visits[i].attraction, date, bounds, visits[i].arrivalMin, visits[i].plannedDurationMin)
  {
    hide FitsDay;
    forall i | 0 <= i < |daytime|
      ensures FitsDay(visits[i].attraction, date, bounds, visits[i].arrivalMin, visits[i].plannedDurationMin)
    {
      assert SoundVisit(daytime[i], date, bounds);
    }
  }

  /** The window check on the merged route comes down to the delayed evening. */
  lemma {:induction false} CombinedFitsIff(plan: DayPlan, daytime: Option<RoutedDay>, evening: Option<RoutedDay>, world: World, travel: nat)
    requires SegmentRoute(daytime, plan, world)
    requires VisitsOf(daytime) != [] && VisitsOf(evening) != []
    ensures
      var a, e := VisitsOf(daytime), VisitsOf(evening);
      TimesFit(CombinedCandidate(plan, daytime, evening, world, travel)) <==>
        EveningFits(e, plan.visitDate, plan.bounds, CrossShift(a[|a| - 1], e[0], Buffered(travel, world.bufferRatio)))
  {
    hide Buffered, CombinedCandidate, CrossShift, PeriodsCurrent, FitsDay, SegmentRoute, SoundVisits, VisitsOf, TimesFit,
         EveningFits;
    SegmentTotals(daytime, plan, world);
    CombinedTimes(plan, daytime, evening, world, travel);
    var a, e := VisitsOf(daytime), VisitsOf(evening);
    var visits := CombinedCandidate(plan, daytime, evening, world, travel).visits;
    DaytimeFits(visits, a, plan.visitDate, plan.bounds, world);
    EveningDecides(
      CombinedCandidate(plan, daytime, evening, world, travel), |a|, e,
      CrossShift(a[|a| - 1], e[0], Buffered(travel, world.bufferRatio)));
  }

  lemma {:induction false} EveningDecides(day: RoutedDay, count: nat, evening: seq<RouteVisit>, delay: int)
    requires |day.visits| == count + |evening|
    requires forall i :: 0 <= i < count ==>
      FitsDay(day.visits[i].attraction, day.visitDate, day.bounds, day.visits[i].arrivalMin, day.visits[i].plannedDurationMin)
    requires forall j :: 0 <= j < |evening| ==>
      && day.visits[count + j].attraction == evening[j].attraction
      && day.visits[count + j].arrivalMin == evening[j].arrivalMin + delay
      && day.visits[count + j].plannedDurationMin == evening[j].plannedDurationMin
    ensures TimesFit(day) <==> EveningFits(evening, day.visitDate, day.bounds, delay)
  {
    hide FitsDay;
    if TimesFit(day) {
      forall j | 0 <= j < |evening|
        ensures FitsDay(evening[j].attraction, day.visitDate, day.bounds, evening[j].arrivalMin + delay, evening[j].plannedDurationMin)
      {
        assert day.visits[count + j].attraction == evening[j].attraction;
      }
    }
    if EveningFits(evening, day.visitDate, day.bounds, delay) {
      forall i | count <= i < |day.visits|
        ensures FitsDay(day.visits[i].attraction, day.visitDate, day.bounds, day.visits[i].arrivalMin, day.visits[i].plannedDurationMin)
      {
        var j := i - count;
        assert day.visits[count + j].attraction == evening[j].attraction;
        assert FitsDay(evening[j].attraction, day.visitDate, day.bounds, evening[j].arrivalMin + delay, evening[j].plannedDurationMin);
      }
    }
  }

  lemma {:induction false} FitsBetween(v: RouteVisit, date: Date, bounds: DayTimeBounds, less: int, more: int)
    requires FitsDay(v.attraction, date, bounds, v.arrivalMin, v.plannedDurationMin)
    requires FitsDay(v.attraction, date, bounds, v.arrivalMin + more, v.plannedDurationMin)
    requires 0 <= less <= more
    ensures FitsDay(v.attraction, date, bounds, v.arrivalMin + less, v.plannedDurationMin)
  {
  }

  lemma {:induction false} UnplacedConcat(a: seq<RouteUnplaced>, b: seq<RouteUnplaced>)
    ensures UnplacedAttractions(a + b) == UnplacedAttractions(a) + UnplacedAttractions(b)
  {
  }

  lemma {:induction false} VisitsConcat(a: seq<RouteVisit>, b: seq<RouteVisit>)
    ensures VisitAttractions(a + b) == VisitAttractions(a) + VisitAttractions(b)
  {
  }

  /** Merging neither loses nor duplicates an attraction. */
  lemma {:induction false} MergeConserves(plan: DayPlan, daytime: Option<RoutedDay>, evening: Option<RoutedDay>, world: World)
    requires SegmentRoute(daytime, plan, world) && SegmentRoute(evening, plan, world)
    ensures multiset(Accounted(MergeSegments(plan, daytime, evening, world).day))
      == multiset(AccountedOf(daytime)) + multiset(AccountedOf(evening))
  {
    hide MergeSegments, SoundRoute, PeriodsCurrent, MergeAccepted, CrossStored, VisitAttractions, UnplacedAttractions;
    MergeIsCorrect(plan, daytime, evening, world);
    var merged := MergeSegments(plan, daytime, evening, world);
    if MergeAccepted(plan, daytime, evening, merged) {
      AcceptedAttractions(plan, daytime, evening, merged);
    } else {
      RejectedAttractions(plan, daytime, evening, merged);
    }
  }

  lemma {:induction false} AcceptedAttractions(plan: DayPlan, daytime: Option<RoutedDay>, evening: Option<RoutedDay>, merged: Merged)
    requires MergeAccepted(plan, daytime, evening, merged)
    ensures VisitAttractions(merged.day.visits) == VisitAttractions(VisitsOf(daytime)) + VisitAttractions(VisitsOf(evening))
    ensures UnplacedAttractions(merged.day.unplaced)
      == UnplacedAttractions(UnplacedOf(daytime)) + UnplacedAttractions(UnplacedOf(evening))
  {
    hide LeastShift;
    var a, e := VisitsOf(daytime), VisitsOf(evening);
    UnplacedConcat(UnplacedOf(daytime), UnplacedOf(evening));
    VisitsConcat(a, e);
    if a != [] && e != [] {
      forall i | 0 <= i < |a| + |e|
        ensures merged.day.visits[i].attraction == (a + e)[i].attraction
      {
        if i < |a| {
          assert merged.day.visits[..|a|][i] == a[i];
        } else {
          assert merged.day.visits[|a| + (i - |a|)].attraction == e[i - |a|].attraction;
        }
      }
      assert VisitAttractions(merged.day.visits) == VisitAttractions(a + e);
    }
  }

  lemma {:induction false} RejectedAttractions(plan: DayPlan, daytime: Option<RoutedDay>, evening: Option<RoutedDay>, merged: Merged)
    requires MergeRejected(plan, daytime, evening, merged)
    ensures UnplacedAttractions(merged.day.unplaced)
      == UnplacedAttractions(UnplacedOf(daytime)) + UnplacedAttractions(UnplacedOf(evening))
         + VisitAttractions(VisitsOf(evening))
  {
    var u, e := UnplacedOf(daytime) + UnplacedOf(evening), VisitsOf(evening);
    var rejected := merged.day.unplaced[|u|..];
    assert UnplacedAttractions(rejected) == VisitAttractions(e) by {
      forall i | 0 <= i < |e|
        ensures rejected[i].attraction == e[i].attraction
      {
        assert rejected[i] == merged.day.unplaced[|u| + i];
      }
    }
    hide UnplacedAttractions, VisitAttractions, UnplacedOf, VisitsOf;
    UnplacedConcat(UnplacedOf(daytime), UnplacedOf(evening));
    UnplacedConcat(u, rejected);
    assert merged.day.unplaced == u + rejected;
  }

  // ---- dinner -----------------------------------------------------------------------------------

  /** A dinner of the given length starting at `t` fits the gap and the dinner window. */
  predicate MealAt(interval: MealInterval, length: int, s: Settings, t: int) {
    && interval.start <= t && t + length <= interval.end
    && s.dinnerEarliestMin <= t && t + length <= s.dinnerLatestEndMin
  }

  ghost predicate Admits(interval: MealInterval, length: int, s: Settings) {
    exists t :: MealAt(interval, length, s, t)
  }

  lemma {:induction false} FitMealExact(interval: MealInterval, status: MealStatus, s: Settings)
    ensures FitMeal(interval, status, s).Scheduled? <==> Admits(interval, MealLength(status, s), s)
    ensures FitMeal(interval, status, s).Scheduled? ==>
      var meal := FitMeal(interval, status, s);
      && meal.status == status && meal.placement == interval.placement
      && meal.endMin - meal.startMin == MealLength(status, s)
      && MealAt(interval, MealLength(status, s), s, meal.startMin)
      && forall t :: MealAt(interval, MealLength(status, s), s, t) ==>
           if interval.late then t <= meal.startMin else meal.startMin <= t
  {
    var start := Max(interval.start, s.dinnerEarliestMin);
    if FitMeal(interval, status, s).Scheduled? {
      assert MealAt(interval, MealLength(status, s), s, start);
    }
  }

  lemma {:induction false} FirstFitExact(intervals: seq<MealInterval>, status: MealStatus, s: Settings)
    ensures FirstFit(intervals, status, s).Unscheduled? <==>
      forall i :: 0 <= i < |intervals| ==> !Admits(intervals[i], MealLength(status, s), s)
    ensures FirstFit(intervals, status, s).Scheduled? ==>
      exists i :: 0 <= i < |intervals|
        && FirstFit(intervals, status, s) == FitMeal(intervals[i], status, s)
        && (forall j :: 0 <= j < i ==> !Admits(intervals[j], MealLength(status, s), s))
  {
    hide FitMeal, Admits;
    if intervals != [] {
      FitMealExact(intervals[0], status, s);
      var rest := intervals[1..];
      FirstFitExact(rest, status, s);
      assert forall i :: 1 <= i < |intervals| ==> intervals[i] == rest[i - 1];
      if FitMeal(intervals[0], status, s).Scheduled? {
        assert FirstFit(intervals, status, s) == FitMeal(intervals[0], status, s);
      } else if FirstFit(rest, status, s).Scheduled? {
        var k :| 0 <= k < |rest|
          && FirstFit(rest, status, s) == FitMeal(rest[k], status, s)
          && (forall j :: 0 <= j < k ==> !Admits(rest[j], MealLength(status, s), s));
        assert FirstFit(intervals, status, s) == FitMeal(intervals[k + 1], status, s);
      } else {
        assert forall i :: 0 <= i < |rest| ==> !Admits(rest[i], MealLength(status, s), s);
      }
    }
  }

  predicate Disjoint(day: RoutedDay, start: int, end: int) {
    forall i :: 0 <= i < |day.visits| ==>
      end <= day.visits[i].arrivalMin || day.visits[i].leaveMin <= start
  }

  /** A dinner that is served lies in the day and in the dinner window for its full length, meets
      no visit, and ends in time for the travel to the evening. */
  predicate DinnerFits(day: RoutedDay, count: nat, cross: int, meal: MealPlan, s: Settings) {
    meal.Scheduled? ==>
      && meal.endMin - meal.startMin == MealLength(meal.status, s)
      && day.bounds.startMin <= meal.startMin && meal.endMin <= day.bounds.endMin
      && s.dinnerEarliestMin <= meal.startMin && meal.endMin <= s.dinnerLatestEndMin
      && Disjoint(day, meal.startMin, meal.endMin)
      && (meal.placement == BetweenSegments ==>
            0 < count < |day.visits|
            && day.visits[count - 1].leaveMin <= meal.startMin
            && meal.endMin + cross <= day.visits[count].arrivalMin)
  }

  /** Dinner is full exactly if some gap admits it, and missing exactly if none admits the
      reduced one. */
  ghost predicate DinnerBest(day: RoutedDay, count: nat, cross: int, meal: MealPlan, s: Settings) {
    var gaps := MealIntervals(day, count, cross);
    && ((meal.Scheduled? && meal.status == Full) <==>
          exists i :: 0 <= i < |gaps| && Admits(gaps[i], s.fullDinnerMin, s))
    && (meal.Unscheduled? <==> forall i :: 0 <= i < |gaps| ==> !Admits(gaps[i], s.reducedDinnerMin, s))
  }

  /** Dinner placement is complete: full whenever some considered gap admits it, reduced when
      only that fits, and unscheduled exactly when no gap admits even the reduced dinner. */
  lemma {:induction false} DinnerIsComplete(day: RoutedDay, count: nat, cross: int, s: Settings)
    requires ValidSettings(s)
    ensures DinnerBest(day, count, cross, MealSpec(day, count, cross, s), s)
  {
    hide MealIntervals, FitMeal, Admits;
    var gaps := MealIntervals(day, count, cross);
    FirstFitExact(gaps, Full, s);
    FirstFitExact(gaps, Reduced, s);
    forall i | 0 <= i < |gaps|
      ensures Admits(gaps[i], s.fullDinnerMin, s) ==> Admits(gaps[i], s.reducedDinnerMin, s)
      ensures FitMeal(gaps[i], Full, s).Scheduled? ==> FitMeal(gaps[i], Full, s).status == Full
      ensures FitMeal(gaps[i], Reduced, s).Scheduled? ==> FitMeal(gaps[i], Reduced, s).status == Reduced
    {
      FullAdmitsReduced(gaps[i], s);
      FitMealExact(gaps[i], Full, s);
      FitMealExact(gaps[i], Reduced, s);
    }
  }

  lemma {:induction false} FullAdmitsReduced(interval: MealInterval, s: Settings)
    requires ValidSettings(s)
    ensures Admits(interval, s.fullDinnerMin, s) ==> Admits(interval, s.reducedDinnerMin, s)
  {
    if Admits(interval, s.fullDinnerMin, s) {
      var t :| MealAt(interval, s.fullDinnerMin, s, t);
      assert MealAt(interval, s.reducedDinnerMin, s, t);
    }
  }

  /** Dinner can be had at `t`: between the segments in time for the crossing, before the first visit
      or after the last one, and inside the dinner window. */
  predicate DinnerAt(day: RoutedDay, count: nat, cross: int, placement: MealPlacement, length: int, s: Settings, t: int) {
    && s.dinnerEarliestMin <= t && t + length <= s.dinnerLatestEndMin
    && match placement
       case BetweenSegments =>
         && 0 < count < |day.visits|
         && day.visits[count - 1].leaveMin <= t && t + length + cross <= day.visits[count].arrivalMin
       case AfterLastVisit =>
         && (if day.visits == [] then day.bounds.startMin else day.visits[|day.visits| - 1].leaveMin) <= t
         && t + length <= day.bounds.endMin
       case BeforeFirstVisit =>
         day.visits != [] && day.bounds.startMin <= t && t + length <= day.visits[0].arrivalMin
  }

  /** Between the segments if possible, else after the last visit, else before the first. */
  function PlacementRank(placement: MealPlacement): int {
    match placement
    case BetweenSegments => 0
    case AfterLastVisit => 1
    case BeforeFirstVisit => 2
  }

  /** No better place would do for a dinner of this length; after the last visit it begins as early
      as it can, elsewhere as late as it can. */
  ghost predicate DinnerTimed(day: RoutedDay, count: nat, cross: int, meal: MealPlan, s: Settings) {
    meal.Scheduled? ==>
      var length := MealLength(meal.status, s);
      && DinnerAt(day, count, cross, meal.placement, length, s, meal.startMin)
      && meal.endMin == meal.startMin + length
      && (forall t :: DinnerAt(day, count, cross, meal.placement, length, s, t) ==>
            if meal.placement == AfterLastVisit then meal.startMin <= t else t <= meal.startMin)
      && (forall placement, t :: PlacementRank(placement) < PlacementRank(meal.placement) ==>
            !DinnerAt(day, count, cross, placement, length, s, t))
  }

  /** The considered gaps are the places for dinner, in order of preference. */
  lemma {:induction false} GapsArePlaces(day: RoutedDay, count: nat, cross: int, length: int, s: Settings, t: int)
    ensures
      var gaps := MealIntervals(day, count, cross);
      && (forall i :: 0 <= i < |gaps| ==>
            && (MealAt(gaps[i], length, s, t) <==> DinnerAt(day, count, cross, gaps[i].placement, length, s, t))
            && (gaps[i].late <==> gaps[i].placement != AfterLastVisit))
      && (forall i, j :: 0 <= i < j < |gaps| ==> PlacementRank(gaps[i].placement) < PlacementRank(gaps[j].placement))
      && (forall placement :: DinnerAt(day, count, cross, placement, length, s, t) ==>
            exists i :: 0 <= i < |gaps| && gaps[i].placement == placement)
  {
    var gaps := MealIntervals(day, count, cross);
    forall placement | DinnerAt(day, count, cross, placement, length, s, t)
      ensures exists i :: 0 <= i < |gaps| && gaps[i].placement == placement
    {
      assert gaps[|gaps| - 1].placement == if day.visits == [] then AfterLastVisit else BeforeFirstVisit;
      if day.visits != [] { assert gaps[|gaps| - 2].placement == AfterLastVisit; }
      assert placement == BetweenSegments ==> gaps[0].placement == BetweenSegments;
    }
  }

  /** A scheduled dinner takes the best place that fits it, as late as it can before a visit and as
      early as it can after the last one. */
  lemma {:induction false} DinnerIsTimed(day: RoutedDay, count: nat, cross: int, s: Settings)
    ensures DinnerTimed(day, count, cross, MealSpec(day, count, cross, s), s)
  {
    hide MealIntervals, FitMeal, DinnerAt, PlacementRank, MealAt, Admits;
    var gaps, meal := MealIntervals(day, count, cross), MealSpec(day, count, cross, s);
    FirstFitExact(gaps, Full, s);
    FirstFitExact(gaps, Reduced, s);
    if meal.Scheduled? {
      var status := if FirstFit(gaps, Full, s).Scheduled? then Full else Reduced;
      var i :| 0 <= i < |gaps| && meal == FitMeal(gaps[i], status, s)
        && (forall j :: 0 <= j < i ==> !Admits(gaps[j], MealLength(status, s), s));
      FitMealExact(gaps[i], status, s);
      assert meal.status == status && meal.endMin == meal.startMin + MealLength(status, s);
      BestGapIsTimed(day, count, cross, i, meal, s);
    }
  }

  lemma {:induction false} BestGapIsTimed(day: RoutedDay, count: nat, cross: int, i: nat, meal: MealPlan, s: Settings)
    requires meal.Scheduled? && i < |MealIntervals(day, count, cross)|
    requires
      var gaps, length := MealIntervals(day, count, cross), MealLength(meal.status, s);
      && meal.placement == gaps[i].placement && meal.endMin == meal.startMin + length
      && MealAt(gaps[i], length, s, meal.startMin)
      && (forall t :: MealAt(gaps[i], length, s, t) ==> if gaps[i].late then t <= meal.startMin else meal.startMin <= t)
      && (forall j :: 0 <= j < i ==> !Admits(gaps[j], length, s))
    ensures DinnerTimed(day, count, cross, meal, s)
  {
    hide MealIntervals, DinnerAt, MealAt, PlacementRank;
    var gaps, length := MealIntervals(day, count, cross), MealLength(meal.status, s);
    GapsArePlaces(day, count, cross, length, s, meal.startMin);
    forall t | DinnerAt(day, count, cross, meal.placement, length, s, t)
      ensures if meal.placement == AfterLastVisit then meal.startMin <= t else t <= meal.startMin
    {
      GapsArePlaces(day, count, cross, length, s, t);
    }
    forall placement, t | PlacementRank(placement) < PlacementRank(meal.placement)
      ensures !DinnerAt(day, count, cross, placement, length, s, t)
    {
      NoBetterPlace(day, count, cross, i, placement, length, s, t);
    }
  }

  lemma {:induction false} NoBetterPlace(
    day: RoutedDay, count: nat, cross: int, i: nat, placement: MealPlacement, length: int, s: Settings, t: int)
    requires i < |MealIntervals(day, count, cross)|
    requires PlacementRank(placement) < PlacementRank(MealIntervals(day, count, cross)[i].placement)
    requires forall j :: 0 <= j < i ==> !Admits(MealIntervals(day, count, cross)[j], length, s)
    ensures !DinnerAt(day, count, cross, placement, length, s, t)
  {
    hide MealIntervals, DinnerAt, MealAt, PlacementRank;
    var gaps := MealIntervals(day, count, cross);
    GapsArePlaces(day, count, cross, length, s, t);
    if j :| 0 <= j < |gaps| && gaps[j].placement == placement {
      assert j < i;
      assert !Admits(gaps[j], length, s);
    }
  }

  lemma {:induction false} TidyDayIsOrdered(day: RoutedDay, i: nat, j: nat)
    requires Tidy(day) && i < j < |day.visits|
    ensures day.visits[i].leaveMin <= day.visits[j].arrivalMin
    decreases j - i
  {
    hide TimesFit;
    assert TidyVisit(day.visits[i + 1]);
    if i + 1 < j { TidyDayIsOrdered(day, i + 1, j); }
  }

  lemma {:induction false} GapIsFree(day: RoutedDay, count: nat, cross: int, i: nat, t: int, length: int, s: Settings)
    requires Tidy(day) && ValidSettings(s) && length > 0
    requires 0 < count < |day.visits| ==> cross >= 0
    requires i < |MealIntervals(day, count, cross)|
    requires MealAt(MealIntervals(day, count, cross)[i], length, s, t)
    ensures day.bounds.startMin <= t && t + length <= day.bounds.endMin
    ensures Disjoint(day, t, t + length)
  {
    hide Tidy;
    if day.visits != [] {
      VisitIsInOrder(day, count, 0);
      VisitIsInOrder(day, count, |day.visits| - 1);
    }
    if 0 < count < |day.visits| {
      VisitIsInOrder(day, count, count - 1);
      VisitIsInOrder(day, count, count);
    }
    forall k | 0 <= k < |day.visits|
      ensures t + length <= day.visits[k].arrivalMin || day.visits[k].leaveMin <= t
    {
      VisitIsInOrder(day, count, k);
    }
  }

  /** Where visit `k` lies relative to the day, its first and last visit, and the segments. */
  predicate VisitOrder(day: RoutedDay, count: nat, k: nat)
    requires k < |day.visits|
  {
    && day.bounds.startMin <= day.visits[k].arrivalMin < day.visits[k].leaveMin <= day.bounds.endMin
    && (k > 0 ==> day.visits[0].leaveMin <= day.visits[k].arrivalMin)
    && (k < |day.visits| - 1 ==> day.visits[k].leaveMin <= day.visits[|day.visits| - 1].arrivalMin)
    && (count < k ==> day.visits[count].leaveMin <= day.visits[k].arrivalMin)
    && (k < count - 1 < |day.visits| ==> day.visits[k].leaveMin <= day.visits[count - 1].arrivalMin)
  }

  lemma {:induction false} VisitIsInOrder(day: RoutedDay, count: nat, k: nat)
    requires Tidy(day) && k < |day.visits|
    ensures VisitOrder(day, count, k)
  {
    hide ResolveEffectiveWindow;
    var v := day.visits[k];
    assert TidyVisit(v) && FitsDay(v.attraction, day.visitDate, day.bounds, v.arrivalMin, v.plannedDurationMin);
    if k > 0 { TidyDayIsOrdered(day, 0, k); }
    if k < |day.visits| - 1 { TidyDayIsOrdered(day, k, |day.visits| - 1); }
    if count < k { TidyDayIsOrdered(day, count, k); }
    if k < count - 1 < |day.visits| { TidyDayIsOrdered(day, k, count - 1); }
  }

  /** Dinner placement is sound: a scheduled meal has its full length, lies in the day and in
      the dinner window, overlaps no visit, and between the segments it ends in time for the
      buffered travel to the evening. */
  lemma {:induction false} DinnerIsSound(day: RoutedDay, count: nat, cross: int, s: Settings)
    requires Tidy(day) && ValidSettings(s)
    requires 0 < count < |day.visits| ==> cross >= 0
    ensures DinnerFits(day, count, cross, MealSpec(day, count, cross, s), s)
  {
    hide FitMeal, Tidy, Disjoint, Admits;
    var gaps := MealIntervals(day, count, cross);
    FirstFitExact(gaps, Full, s);
    FirstFitExact(gaps, Reduced, s);
    var meal := MealSpec(day, count, cross, s);
    if meal.Scheduled? {
      var status := if FirstFit(gaps, Full, s).Scheduled? then Full else Reduced;
      var i :| 0 <= i < |gaps| && meal == FitMeal(gaps[i], status, s);
      FitMealExact(gaps[i], status, s);
      GapIsFree(day, count, cross, i, meal.startMin, MealLength(status, s), s);
    }
  }

  // ---- the segmented day ---------------------------------------------------------------------------

  lemma {:induction false} SegmentsPartition(allocations: seq<DayAllocation>, date: Date, eveningOpen: int)
    ensures
      multiset(AllocationAttractions(SegmentOf(allocations, date, eveningOpen, false)))
      + multiset(AllocationAttractions(SegmentOf(allocations, date, eveningOpen, true)))
      == multiset(AllocationAttractions(allocations))
  {
    hide IsEvening;
    if allocations != [] {
      var front, last := allocations[..|allocations| - 1], allocations[|allocations| - 1];
      SegmentsPartition(front, date, eveningOpen);
      assert allocations == front + [last];
      MapConcat(AllocationAttraction, front, [last]);
      MapConcat(AllocationAttraction, SegmentOf(front, date, eveningOpen, false), [last]);
      MapConcat(AllocationAttraction, SegmentOf(front, date, eveningOpen, true), [last]);
    }
  }

  /** The hours of the attraction on that date begin at `eveningOpen` or later. */
  ghost predicate OpensLate(attraction: Attraction, date: Date, eveningOpen: int) {
    if attraction.isAlwaysOpen then 0 >= eveningOpen
    else exists i: nat :: OnlyMatch(attraction.timeRules, date, i) && attraction.timeRules[i].openMin >= eveningOpen
  }

  lemma {:induction false} IsEveningIff(a: DayAllocation, date: Date, eveningOpen: int)
    ensures IsEvening(a, date, eveningOpen) <==> OpensLate(a.attraction, date, eveningOpen)
  {
    hide Matches, MatchingRules, ResolveEffectiveWindow;
    EffectiveWindowIsExact(a.attraction, date, DEFAULT_DURATION_RATIO, 0);
    if a.attraction.isAlwaysOpen {
      AlwaysOpenWindow(a.attraction, date);
    } else {
      forall i: nat | OnlyMatch(a.attraction.timeRules, date, i)
        ensures DefaultWindow(a.attraction, date).Window?
        ensures DefaultWindow(a.attraction, date).window.openMin == a.attraction.timeRules[i].openMin
      {
        ResolvesOnlyMatch(a.attraction, date, DEFAULT_DURATION_RATIO, i);
      }
    }
  }

  /** An allocation belongs to the evening if its hours begin at the threshold or later, and to the
      daytime otherwise. */
  lemma {:induction false} SegmentsByOpening(allocations: seq<DayAllocation>, date: Date, eveningOpen: int, a: DayAllocation)
    ensures a in SegmentOf(allocations, date, eveningOpen, true) <==>
      a in allocations && OpensLate(a.attraction, date, eveningOpen)
    ensures a in SegmentOf(allocations, date, eveningOpen, false) <==>
      a in allocations && !OpensLate(a.attraction, date, eveningOpen)
  {
    hide IsEvening, OpensLate;
    if allocations != [] {
      var front, last := allocations[..|allocations| - 1], allocations[|allocations| - 1];
      assert allocations == front + [last];
      SegmentsByOpening(front, date, eveningOpen, a);
      IsEveningIff(last, date, eveningOpen);
    }
  }

  /** All that routing a day learns from the search is its answers to two questions: where to go in the
      evening, and where to go in the daytime so as to end near the evening's first stop. */
  lemma {:induction false} TwoQuestionsAreAsked(plan: DayPlan, world: World, one: Oracle, other: Oracle, k: nat, s: Settings)
    requires OracleObeys(world, one) && OracleObeys(world, other)
    requires
      var question := RebuildDayPlan(plan, SegmentOf(plan.allocations, plan.visitDate, s.eveningOpenMin, true));
      one(k, question, None) == other(k, question, None)
    requires
      var question := RebuildDayPlan(plan, SegmentOf(plan.allocations, plan.visitDate, s.eveningOpenMin, false));
      var evening := EveningSpec(plan, world, one, k, s);
      evening.Ok? ==>
        var visits := VisitsOf(evening.value);
        var near := if visits == [] then None else Some(visits[0].attraction.id);
        one(k + 1, question, near) == other(k + 1, question, near)
    ensures SegmentSpec(plan, world, one, k, s) == SegmentSpec(plan, world, other, k, s)
  {
    hide RouteSpec, FinishDay, SegmentOf, ObeysModel;
  }

  lemma {:induction false} AppendId(s: seq<DayAllocation>, last: DayAllocation)
    ensures AllocationIds(s + [last]) == AllocationIds(s) + [last.attraction.id]
  {
  }

  lemma {:induction false} AppendDistinct(s: seq<int>, x: int)
    ensures NoDuplicates(s + [x]) <==> NoDuplicates(s) && x !in s
  {
    var t := s + [x];
    if NoDuplicates(t) {
      forall i | 0 <= i < |s|
        ensures s[i] != x
      {
        assert t[i] != t[|s|];
      }
      forall i, j | 0 <= i < j < |s|
        ensures s[i] != s[j]
      {
        assert t[i] != t[j];
      }
    }
  }

  lemma {:induction false} SegmentMembers(allocations: seq<DayAllocation>, date: Date, eveningOpen: int, evening: bool)
    ensures forall a :: a in SegmentOf(allocations, date, eveningOpen, evening) ==> a in allocations
    ensures forall x :: x in AllocationIds(SegmentOf(allocations, date, eveningOpen, evening)) ==> x in AllocationIds(allocations)
    ensures NoDuplicates(AllocationIds(allocations)) ==>
      NoDuplicates(AllocationIds(SegmentOf(allocations, date, eveningOpen, evening)))
  {
    hide IsEvening, AllocationIds, NoDuplicates;
    if allocations != [] {
      var front, last := allocations[..|allocations| - 1], allocations[|allocations| - 1];
      var segment := SegmentOf(front, date, eveningOpen, evening);
      SegmentMembers(front, date, eveningOpen, evening);
      assert allocations == front + [last];
      AppendId(front, last);
      AppendId(segment, last);
      AppendDistinct(AllocationIds(front), last.attraction.id);
      AppendDistinct(AllocationIds(segment), last.attraction.id);
    }
  }

  /** What routing one segment delivers. */
  lemma {:induction false} SegmentRouteOutcome(plan: DayPlan, allocations: seq<DayAllocation>, world: World, answer: SearchAnswer)
    requires ObeysModel(RebuildDayPlan(plan, allocations), world, answer)
    requires SegmentRouteSpec(plan, allocations, world, answer).Ok?
    ensures
      var route := SegmentRouteSpec(plan, allocations, world, answer).value;
      && SegmentRoute(route, plan, world)
      && multiset(AccountedOf(route)) == multiset(AllocationAttractions(allocations))
  {
    hide ObeysModel, SoundRoute, PeriodsCurrent;
    if allocations != [] {
      var rebuilt := RebuildDayPlan(plan, allocations);
      RouteIsSound(rebuilt, world, answer);
      RoutePartitions(rebuilt, world, answer);
    }
  }

  /** Routing a segment raises exactly if it is not empty and the model cannot be built. */
  lemma {:induction false} SegmentRoutesIff(plan: DayPlan, allocations: seq<DayAllocation>, world: World, answer: SearchAnswer)
    requires ObeysModel(RebuildDayPlan(plan, allocations), world, answer)
    requires NoDuplicates(AllocationIds(allocations))
    ensures SegmentRouteSpec(plan, allocations, world, answer).Ok? <==>
      allocations == [] || (world.bufferRatio >= 1.0 && AllFitting(allocations, plan.visitDate))
  {
    hide ObeysModel, DecodedVisits, MinimumDuration;
    FirstErrorIffNotLoadable(RebuildDayPlan(plan, allocations), 0);
  }

  lemma {:induction false} SegmentsCover(allocations: seq<DayAllocation>, date: Date, eveningOpen: int)
    ensures
      var evening, daytime := SegmentOf(allocations, date, eveningOpen, true), SegmentOf(allocations, date, eveningOpen, false);
      forall a :: a in allocations <==> a in evening || a in daytime
  {
    hide IsEvening;
    if allocations != [] {
      var front, last := allocations[..|allocations| - 1], allocations[|allocations| - 1];
      SegmentsCover(front, date, eveningOpen);
      assert allocations == front + [last];
    }
  }

  /** The buffered travel from the daytime to the evening. */
  function CrossOf(day: RoutedDay, count: nat): int {
    if 0 < count < |day.visits| then day.visits[count].bufferedTravelMin else 0
  }

  ghost predicate DinnerServed(day: SegmentedDay, s: Settings) {
    var count := |VisitsOf(day.daytimeRoute)|;
    && DinnerFits(day.routedDay, count, CrossOf(day.routedDay, count), day.mealPlan, s)
    && DinnerBest(day.routedDay, count, CrossOf(day.routedDay, count), day.mealPlan, s)
    && DinnerTimed(day.routedDay, count, CrossOf(day.routedDay, count), day.mealPlan, s)
  }

  /** The route of a day before it was refined. */
  function MergedOf(day: SegmentedDay, world: World): Merged {
    MergeSegments(
      DayPlan(day.routedDay.visitDate, day.routedDay.bounds, [], 0, 0), day.daytimeRoute, day.eveningRoute, world)
  }

  /** If the merged route has room for a full dinner between its segments, and leaves for the
      evening within the dinner window, dinner is full. */
  ghost predicate FullDinnerKept(day: SegmentedDay, world: World, s: Settings) {
    var merged, count := MergedOf(day, world), |VisitsOf(day.daytimeRoute)|;
    0 < count < |merged.day.visits| ==>
      var gap := MealIntervals(merged.day, count, merged.cross)[0];
      Admits(gap, s.fullDinnerMin, s) && gap.end <= s.dinnerLatestEndMin ==>
        day.mealPlan.Scheduled? && day.mealPlan.status == Full
  }

  /** What one finished day promises about the plan it was made from. */
  ghost predicate DayOutcome(plan: DayPlan, world: World, s: Settings, day: SegmentedDay) {
    && day.routedDay.visitDate == plan.visitDate
    && day.routedDay.bounds == plan.bounds
    && SoundRoute(day.routedDay, world)
    && (world.bufferRatio >= 1.0 || day.routedDay.visits == [])
    && PeriodsCurrent(day.routedDay.visits)
    && multiset(Accounted(day.routedDay)) == multiset(AllocationAttractions(plan.allocations))
    && ValidationSpec(day.routedDay, world) == Ok(day.validation)
    && DinnerServed(day, s)
    && FullDinnerKept(day, world, s)
  }

  lemma {:induction false} FinishedDayOutcome(plan: DayPlan, daytime: Option<RoutedDay>, evening: Option<RoutedDay>, world: World, s: Settings)
    requires SegmentRoute(daytime, plan, world) && SegmentRoute(evening, plan, world)
    requires (world.bufferRatio >= 1.0 || plan.allocations == []) && ValidSettings(s)
    requires multiset(AccountedOf(daytime)) + multiset(AccountedOf(evening)) == multiset(AllocationAttractions(plan.allocations))
    ensures FinishDay(plan, daytime, evening, world, s).Ok?
    ensures DayOutcome(plan, world, s, FinishDay(plan, daytime, evening, world, s).value)
  {
    hide SegmentRoute, SoundRoute, PeriodsCurrent, Refined, MergeAccepted, MergeRejected, SameStop, ValidationSpec,
         CrossStored, DinnerGap, MergeSegments, MealSpec, VisitAttractions, UnplacedAttractions, AllocationAttractions,
         DinnerServed, FullDinnerKept;
    MergeIsCorrect(plan, daytime, evening, world);
    MergeConserves(plan, daytime, evening, world);
    MergeKeepsDay(plan, daytime, evening, world);
    var merged := MergeSegments(plan, daytime, evening, world);
    var count := |VisitsOf(daytime)|;
    if plan.allocations == [] { NothingAccounted(plan, merged.day); }
    RefinementIsSafe(merged.day, count, merged.cross, s.fullDinnerMin, world);
    SoundDoesNotRaise(Refined(merged.day, count, merged.cross, s.fullDinnerMin), world);
    FinishedDinner(plan, daytime, evening, world, s);
  }

  /** A finished day records a rejected evening exactly if both segments have visits and those of the
      evening are missing from it: for want of travel data between them, or else of time. */
  lemma {:induction false} RejectionIsRecorded(plan: DayPlan, daytime: Option<RoutedDay>, evening: Option<RoutedDay>, world: World, s: Settings)
    requires SegmentRoute(daytime, plan, world) && SegmentRoute(evening, plan, world) && ValidSettings(s)
    requires world.bufferRatio >= 1.0 && FinishDay(plan, daytime, evening, world, s).Ok?
    ensures
      var day, a, e := FinishDay(plan, daytime, evening, world, s).value, VisitsOf(daytime), VisitsOf(evening);
      && (day.crossRejection.Some? <==> a != [] && e != [] && |day.routedDay.visits| == |a|)
      && (day.crossRejection.None? ==> |day.routedDay.visits| == |a| + |e|)
      && (day.crossRejection == Some(OdDataMissing) <==>
            a != [] && e != [] && world.provider(a[|a| - 1].attraction.id, e[0].attraction.id).None?)
      && (day.crossRejection.Some? && day.crossRejection != Some(OdDataMissing) ==>
            day.crossRejection == Some(TransitInfeasible))
      && day.daytimeRoute == daytime && day.eveningRoute == evening
  {
    hide SegmentRoute, SoundRoute, PeriodsCurrent, Refined, SameStop, ValidationSpec, CrossStored, DinnerGap, MealSpec,
         CombinedRoute, TimesFit, Buffered, ShiftAll, RejectVisits;
    MergeIsCorrect(plan, daytime, evening, world);
    var merged, count := MergeSegments(plan, daytime, evening, world), |VisitsOf(daytime)|;
    RefinementIsSafe(merged.day, count, merged.cross, s.fullDinnerMin, world);
  }

  lemma {:induction false} NothingAccounted(plan: DayPlan, day: RoutedDay)
    requires plan.allocations == [] && multiset(Accounted(day)) == multiset(AllocationAttractions(plan.allocations))
    ensures day.visits == []
  {
    CountsNothing(Accounted(day));
    assert |Accounted(day)| == |day.visits| + |day.unplaced|;
  }

  lemma {:induction false} MealIgnoresUnusedCross(day: RoutedDay, count: nat, cross: int, s: Settings)
    requires CrossStored(day, count, cross)
    ensures MealIntervals(day, count, cross) == MealIntervals(day, count, CrossOf(day, count))
    ensures MealSpec(day, count, cross, s) == MealSpec(day, count, CrossOf(day, count), s)
  {
  }

  lemma {:induction false} RefinesKeepsCross(day: RoutedDay, r: RoutedDay, count: nat, cross: int)
    requires Refines(day, r, count) && CrossStored(day, count, cross)
    ensures CrossStored(r, count, cross)
  {
    hide Reevaluate;
    if 0 < count < |day.visits| { SameStopTravel(day.visits[count], r.visits[count]); }
  }

  /** The dinner of a finished day. */
  lemma {:induction false} FinishedDinner(plan: DayPlan, daytime: Option<RoutedDay>, evening: Option<RoutedDay>, world: World, s: Settings)
    requires ValidSettings(s) && FinishDay(plan, daytime, evening, world, s).Ok?
    requires
      var merged, count := MergeSegments(plan, daytime, evening, world), |VisitsOf(daytime)|;
      && SoundRoute(merged.day, world) && PeriodsCurrent(merged.day.visits)
      && (world.bufferRatio >= 1.0 || merged.day.visits == [])
      && CrossStored(merged.day, count, merged.cross)
      && merged.day.visitDate == plan.visitDate && merged.day.bounds == plan.bounds
    ensures DinnerServed(FinishDay(plan, daytime, evening, world, s).value, s)
    ensures FullDinnerKept(FinishDay(plan, daytime, evening, world, s).value, world, s)
  {
    hide SoundRoute, PeriodsCurrent, Refined, SameStop, ValidationSpec, CrossStored, DinnerGap, MergeSegments, MealSpec,
         Tidy, DinnerFits, DinnerBest, DinnerTimed, MealIntervals, Admits;
    var merged, count := MergeSegments(plan, daytime, evening, world), |VisitsOf(daytime)|;
    var day := FinishDay(plan, daytime, evening, world, s).value;
    RefinementIsSafe(merged.day, count, merged.cross, s.fullDinnerMin, world);
    RefinesKeepsCross(merged.day, day.routedDay, count, merged.cross);
    MealIgnoresUnusedCross(day.routedDay, count, merged.cross, s);
    SoundIsTidy(day.routedDay, world);
    CrossNonNegative(day.routedDay, count);
    DinnerIsSound(day.routedDay, count, CrossOf(day.routedDay, count), s);
    DinnerIsComplete(day.routedDay, count, CrossOf(day.routedDay, count), s);
    DinnerIsTimed(day.routedDay, count, CrossOf(day.routedDay, count), s);
    MergeIgnoresAllocations(plan, daytime, evening, world);
    if 0 < count < |merged.day.visits| {
      DinnerSurvives(merged.day, day.routedDay, count, merged.cross, s);
      FirstGapIsServed(day.routedDay, count, CrossOf(day.routedDay, count), day.mealPlan, s);
    }
  }

  lemma {:induction false} CrossNonNegative(day: RoutedDay, count: nat)
    requires Tidy(day)
    ensures CrossOf(day, count) >= 0
  {
    hide TimesFit;
  }

  lemma {:induction false} MergeIgnoresAllocations(plan: DayPlan, daytime: Option<RoutedDay>, evening: Option<RoutedDay>, world: World)
    ensures MergeSegments(DayPlan(plan.visitDate, plan.bounds, [], 0, 0), daytime, evening, world)
      == MergeSegments(plan, daytime, evening, world)
  {
    hide TimesFit, Buffered, Reevaluate;
  }

  lemma {:induction false} FirstGapIsServed(day: RoutedDay, count: nat, cross: int, meal: MealPlan, s: Settings)
    requires 0 < count < |day.visits| && DinnerBest(day, count, cross, meal, s)
    ensures Admits(MealIntervals(day, count, cross)[0], s.fullDinnerMin, s) ==> meal.Scheduled? && meal.status == Full
  {
    hide Admits;
  }

  /** A full dinner before the departure survives refinement. */
  lemma {:induction false} DinnerSurvives(day: RoutedDay, r: RoutedDay, count: nat, cross: int, s: Settings)
    requires 0 < count < |day.visits| && Refines(day, r, count) && ValidSettings(s)
    requires DinnerGap(day, count, cross, s.fullDinnerMin) ==> DinnerGap(r, count, cross, s.fullDinnerMin)
    ensures
      var gap := MealIntervals(day, count, cross)[0];
      Admits(gap, s.fullDinnerMin, s) && gap.end <= s.dinnerLatestEndMin ==>
        Admits(MealIntervals(r, count, cross)[0], s.fullDinnerMin, s)
  {
    hide SameStop;
    var gap, after := MealIntervals(day, count, cross)[0], MealIntervals(r, count, cross)[0];
    if Admits(gap, s.fullDinnerMin, s) && gap.end <= s.dinnerLatestEndMin {
      var t :| MealAt(gap, s.fullDinnerMin, s, t);
      assert DinnerGap(day, count, cross, s.fullDinnerMin);
      assert MealAt(after, s.fullDinnerMin, s, after.end - s.fullDinnerMin);
    }
  }

  lemma {:induction false} MergeKeepsDay(plan: DayPlan, daytime: Option<RoutedDay>, evening: Option<RoutedDay>, world: World)
    ensures
      var merged := MergeSegments(plan, daytime, evening, world);
      merged.day.visitDate == plan.visitDate && merged.day.bounds == plan.bounds
  {
    hide Buffered, TimesFit, Reevaluate;
  }

  lemma {:induction false} SoundDoesNotRaise(day: RoutedDay, world: World)
    requires SoundRoute(day, world) && (world.bufferRatio >= 1.0 || day.visits == [])
    ensures ValidationSpec(day, world).Ok?
  {
    hide Violations, FitsDay;
    forall i | 0 <= i < |day.visits|
      ensures day.visits[i].arrivalMin >= 0 && day.visits[i].leaveMin >= 0
    {
      SoundVisitIsValid(day.visits[i], day.visitDate, day.bounds);
    }
    if world.bufferRatio >= 1.0 { NonNegativeTimesDoNotRaise(day.visits, |day.visits|, world.bufferRatio); }
  }

  /** Whatever the search answers, a segmented day is feasible, accounts for exactly the plan's
      allocations, and serves the best dinner its gaps admit. */
  lemma {:induction false} SegmentedDayIsSafe(plan: DayPlan, world: World, oracle: Oracle, k: nat, s: Settings)
    requires OracleObeys(world, oracle)
    requires SegmentSpec(plan, world, oracle, k, s).Ok?
    ensures DayOutcome(plan, world, s, SegmentSpec(plan, world, oracle, k, s).value)
  {
    hide FinishDay, SegmentRouteSpec, ObeysModel, DayOutcome;
    RoutedSegmentsFinish(plan, world, oracle, k, s);
  }

  lemma {:induction false} UnbufferedSegmentIsEmpty(plan: DayPlan, allocations: seq<DayAllocation>, world: World, answer: SearchAnswer)
    requires ObeysModel(RebuildDayPlan(plan, allocations), world, answer) && world.bufferRatio < 1.0
    requires SegmentRouteSpec(plan, allocations, world, answer).Ok?
    ensures allocations == []
  {
    hide ObeysModel;
  }

  /** Routing a day of distinct attractions raises exactly if it has allocations and the buffer is
      below one or one of them has another date or too short a stay; whatever the search answers. */
  lemma {:induction false} SegmentedDayRoutesIff(plan: DayPlan, world: World, oracle: Oracle, k: nat, s: Settings)
    requires OracleObeys(world, oracle) && ValidSettings(s) && NoDuplicates(AllocationIds(plan.allocations))
    ensures SegmentSpec(plan, world, oracle, k, s).Ok? <==> Routable(plan, world)
  {
    hide SegmentRoute, FinishDay, SegmentRouteSpec, ObeysModel, DayOutcome, Fitting;
    var date, open := plan.visitDate, s.eveningOpenMin;
    var eveningAllocations := SegmentOf(plan.allocations, date, open, true);
    var daytimeAllocations := SegmentOf(plan.allocations, date, open, false);
    SegmentMembers(plan.allocations, date, open, true);
    SegmentMembers(plan.allocations, date, open, false);
    SegmentsCover(plan.allocations, date, open);
    assert plan.allocations != [] ==> plan.allocations[0] in plan.allocations;
    var eveningAnswer := oracle(k, RebuildDayPlan(plan, eveningAllocations), None);
    SegmentRoutesIff(plan, eveningAllocations, world, eveningAnswer);
    var evening := EveningSpec(plan, world, oracle, k, s);
    if evening.Ok? {
      var terminal := TerminalOf(evening.value);
      var daytimeAnswer := oracle(k + 1, RebuildDayPlan(plan, daytimeAllocations), terminal);
      SegmentRoutesIff(plan, daytimeAllocations, world, daytimeAnswer);
      if DaytimeSpec(plan, world, oracle, k, s, terminal).Ok? { RoutedSegmentsFinish(plan, world, oracle, k, s); }
    }
  }

  lemma {:induction false} RoutedSegmentsFinish(plan: DayPlan, world: World, oracle: Oracle, k: nat, s: Settings)
    requires OracleObeys(world, oracle) && ValidSettings(s) && EveningSpec(plan, world, oracle, k, s).Ok?
    requires
      DaytimeSpec(plan, world, oracle, k, s, TerminalOf(EveningSpec(plan, world, oracle, k, s).value)).Ok?
    ensures SegmentSpec(plan, world, oracle, k, s).Ok?
    ensures DayOutcome(plan, world, s, SegmentSpec(plan, world, oracle, k, s).value)
  {
    hide SegmentRoute, FinishDay, SegmentRouteSpec, ObeysModel, DayOutcome, AllFitting;
    var eveningAllocations := SegmentOf(plan.allocations, plan.visitDate, s.eveningOpenMin, true);
    var evening := EveningSpec(plan, world, oracle, k, s).value;
    var eveningAnswer := oracle(k, RebuildDayPlan(plan, eveningAllocations), None);
    SegmentRouteOutcome(plan, eveningAllocations, world, eveningAnswer);
    var daytimeAllocations := SegmentOf(plan.allocations, plan.visitDate, s.eveningOpenMin, false);
    var terminal := TerminalOf(evening);
    var daytime := DaytimeSpec(plan, world, oracle, k, s, terminal).value;
    var daytimeAnswer := oracle(k + 1, RebuildDayPlan(plan, daytimeAllocations), terminal);
    SegmentRouteOutcome(plan, daytimeAllocations, world, daytimeAnswer);
    SegmentsPartition(plan.allocations, plan.visitDate, s.eveningOpenMin);
    if world.bufferRatio < 1.0 {
      UnbufferedSegmentIsEmpty(plan, eveningAllocations, world, eveningAnswer);
      UnbufferedSegmentIsEmpty(plan, daytimeAllocations, world, daytimeAnswer);
      SegmentsCover(plan.allocations, plan.visitDate, s.eveningOpenMin);
      HasMember(plan.allocations);
    }
    FinishedDayOutcome(plan, daytime, evening, world, s);
  }

  /** Routing a loadable plan never raises. */
  lemma {:induction false} SegmentedDaySucceeds(plan: DayPlan, world: World, oracle: Oracle, k: nat, s: Settings)
    requires OracleObeys(world, oracle) && ValidSettings(s) && Routable(plan, world)
    ensures SegmentSpec(plan, world, oracle, k, s).Ok?
  {
    hide SegmentSpec, OracleObeys, AllFitting;
    if plan.allocations == [] { assert AllocationIds(plan.allocations) == []; }
    SegmentedDayRoutesIff(plan, world, oracle, k, s);
  }

  /** A search that ignores how often it was asked routes a day the same way every time. */
  lemma {:induction false} SegmentedDayIsDeterministic(plan: DayPlan, world: World, oracle: Oracle, k: nat, k': nat, s: Settings)
    requires OracleObeys(world, oracle)
    requires forall i: nat, j: nat, p: DayPlan, t: Option<int> :: oracle(i, p, t) == oracle(j, p, t)
    ensures SegmentSpec(plan, world, oracle, k, s) == SegmentSpec(plan, world, oracle, k', s)
  {
    hide FinishDay, SegmentRouteSpec, ObeysModel;
  }
}
