/** Refinement never breaks a feasible day: through every branch it keeps the visits, their
    travel, the evening arrivals, every hard constraint and an existing dinner gap. */
module RefinementProofs {
  import opened Prelude
  import opened Models
  import opened TimeWindows
  import opened VisitPeriods
  import opened Timeline
  import opened Refinement

  /** `w` is `v`, possibly at another time and for no shorter a stay. */
  predicate SameStop(v: RouteVisit, w: RouteVisit) {
    && (w == v || w == Reschedule(v, w.arrivalMin, w.plannedDurationMin))
    && w.plannedDurationMin >= v.plannedDurationMin
  }

  /** Same day, same stops in the same order, evening arrivals (from `count` on) untouched. */
  predicate Refines(day: RoutedDay, r: RoutedDay, count: nat) {
    && r == day.(visits := r.visits)
    && |r.visits| == |day.visits|
    && (forall i :: 0 <= i < |day.visits| ==> SameStop(day.visits[i], r.visits[i]))
    && (forall i :: count <= i < |day.visits| ==> r.visits[i].arrivalMin == day.visits[i].arrivalMin)
  }

  predicate Ordered(visits: seq<RouteVisit>) {
    forall i :: 1 <= i < |visits| ==>
      visits[i].arrivalMin >= visits[i - 1].leaveMin + visits[i].bufferedTravelMin
  }

  predicate TidyVisit(v: RouteVisit) {
    v.leaveMin == v.arrivalMin + v.plannedDurationMin && v.plannedDurationMin >= 1
  }

  /** The timing part of feasibility, without reference to the travel data. */
  predicate Tidy(day: RoutedDay) {
    && TimesFit(day)
    && Ordered(day.visits)
    && (forall i :: 0 <= i < |day.visits| ==> TidyVisit(day.visits[i]))
    && (forall i :: 1 <= i < |day.visits| ==> day.visits[i].bufferedTravelMin >= 0)
  }

  /** The cross-segment travel handed to the refinement is the one stored on the first
      evening visit. */
  predicate CrossStored(day: RoutedDay, count: nat, cross: int) {
    0 < count < |day.visits| ==> cross == day.visits[count].bufferedTravelMin
  }

  predicate DinnerGap(day: RoutedDay, count: nat, cross: int, dinner: int) {
    0 < count < |day.visits| ==>
      day.visits[count].arrivalMin - cross - day.visits[count - 1].leaveMin >= dinner
  }

  // ---- between the two views of feasibility ------------------------------------------

  lemma {:induction false} SoundIsTidy(day: RoutedDay, world: World)
    requires SoundRoute(day, world) && (world.bufferRatio >= 1.0 || day.visits == [])
    ensures Tidy(day)
  {
    hide FitsDay, MinimumDuration;
    forall i | 0 <= i < |day.visits|
      ensures TidyVisit(day.visits[i])
      ensures FitsDay(day.visits[i].attraction, day.visitDate, day.bounds,
                      day.visits[i].arrivalMin, day.visits[i].plannedDurationMin)
    {
      assert SoundVisit(day.visits[i], day.visitDate, day.bounds);
      MinimumDurationPositive(day.visits[i].attraction, DEFAULT_DURATION_RATIO);
    }
    forall i | 1 <= i < |day.visits|
      ensures day.visits[i].bufferedTravelMin >= 0
      ensures day.visits[i].arrivalMin >= day.visits[i - 1].leaveMin + day.visits[i].bufferedTravelMin
    {
      assert SoundEdge(day.visits[i - 1], day.visits[i], world);
      BufferedNonNegative(day.visits[i].travelFromPrevious.value, world.bufferRatio);
    }
  }

  lemma {:induction false} RefinedTotals(day: RoutedDay, r: RoutedDay, count: nat)
    requires Refines(day, r, count)
    ensures TravelTotal(r.visits) == TravelTotal(day.visits)
    ensures BufferedTotal(r.visits) == BufferedTotal(day.visits)
  {
    hide Reevaluate;
    var buffered := (v: RouteVisit) => v.bufferedTravelMin;
    forall i | 0 <= i < |day.visits|
      ensures TravelOf(r.visits[i]) == TravelOf(day.visits[i]) && buffered(r.visits[i]) == buffered(day.visits[i])
    {
      assert SameStop(day.visits[i], r.visits[i]);
    }
    assert Map(TravelOf, r.visits) == Map(TravelOf, day.visits);
    assert Map(buffered, r.visits) == Map(buffered, day.visits);
  }

  lemma {:induction false} TidyRefinementIsSound(day: RoutedDay, r: RoutedDay, count: nat, world: World)
    requires SoundRoute(day, world) && Refines(day, r, count) && Tidy(r)
    ensures SoundRoute(r, world)
  {
    hide FitsDay, MinimumDuration, Reevaluate;
    RefinedTotals(day, r, count);
    forall i | 0 <= i < |r.visits|
      ensures SoundVisit(r.visits[i], r.visitDate, r.bounds)
    {
      assert SoundVisit(day.visits[i], day.visitDate, day.bounds);
      assert SameStop(day.visits[i], r.visits[i]) && TidyVisit(r.visits[i]);
    }
    forall i | 1 <= i < |r.visits|
      ensures SoundEdge(r.visits[i - 1], r.visits[i], world)
    {
      assert SoundEdge(day.visits[i - 1], day.visits[i], world);
      assert SameStop(day.visits[i - 1], r.visits[i - 1]) && SameStop(day.visits[i], r.visits[i]);
    }
    if day.visits != [] { assert SameStop(day.visits[0], r.visits[0]); }
  }

  lemma {:induction false} RescheduleTwice(v: RouteVisit, a: int, d: int, a': int, d': int)
    ensures Reschedule(Reschedule(v, a, d), a', d') == Reschedule(v, a', d')
  {
    hide TimeBucketFor, PreferredPeriodBounds;
  }

  lemma {:induction false} RescheduledIsCurrent(v: RouteVisit, a: int, d: int)
    ensures PeriodCurrent(Reschedule(v, a, d))
  {
    hide TimeBucketFor, PreferredPeriodBounds;
  }

  lemma {:induction false} RefinedPeriods(day: RoutedDay, r: RoutedDay, count: nat)
    requires Refines(day, r, count) && PeriodsCurrent(day.visits)
    ensures PeriodsCurrent(r.visits)
  {
    hide PeriodCurrent, Reschedule;
    forall i | 0 <= i < |r.visits|
      ensures PeriodCurrent(r.visits[i])
    {
      assert SameStop(day.visits[i], r.visits[i]);
      RescheduledIsCurrent(day.visits[i], r.visits[i].arrivalMin, r.visits[i].plannedDurationMin);
    }
  }

  lemma {:induction false} RefinesTransitive(a: RoutedDay, b: RoutedDay, c: RoutedDay, count: nat)
    requires Refines(a, b, count) && Refines(b, c, count)
    ensures Refines(a, c, count)
  {
    hide Reschedule;
    forall i | 0 <= i < |a.visits|
      ensures SameStop(a.visits[i], c.visits[i])
    {
      var v, w, x := a.visits[i], b.visits[i], c.visits[i];
      assert SameStop(v, w) && SameStop(w, x);
      RescheduleTwice(v, w.arrivalMin, w.plannedDurationMin, x.arrivalMin, x.plannedDurationMin);
    }
  }

  lemma {:induction false} RefinesSelf(day: RoutedDay, count: nat)
    ensures Refines(day, day, count)
  {
    hide Reschedule;
  }

  // ---- evening stays -------------------------------------------------------------------

  lemma {:induction false} ExpandedVisitFits(day: RoutedDay, i: nat)
    requires Tidy(day) && i < |day.visits|
    ensures SameStop(day.visits[i], ExpandedVisit(day, i)) && TidyVisit(ExpandedVisit(day, i))
    ensures ExpandedVisit(day, i).arrivalMin == day.visits[i].arrivalMin
    ensures
      var w := ExpandedVisit(day, i);
      FitsDay(w.attraction, day.visitDate, day.bounds, w.arrivalMin, w.plannedDurationMin)
    ensures i + 1 < |day.visits| ==>
      ExpandedVisit(day, i).leaveMin <= day.visits[i + 1].arrivalMin - day.visits[i + 1].bufferedTravelMin
  {
    hide Reevaluate, ResolveEffectiveWindow;
    var v := day.visits[i];
    assert TidyVisit(v);
    assert FitsDay(v.attraction, day.visitDate, day.bounds, v.arrivalMin, v.plannedDurationMin);
    if i + 1 < |day.visits| {
      var next := day.visits[i + 1];
      assert TidyVisit(next);
      assert FitsDay(next.attraction, day.visitDate, day.bounds, next.arrivalMin, next.plannedDurationMin);
    }
  }

  lemma {:induction false} ExpandedEveningIsTidy(day: RoutedDay, count: nat)
    requires Tidy(day) && count <= |day.visits|
    ensures Refines(day, ExpandedEvening(day, count), count) && Tidy(ExpandedEvening(day, count))
  {
    hide Reschedule, FitsDay, ExpandedVisit;
    var r := ExpandedEvening(day, count);
    forall i | 0 <= i < |r.visits|
      ensures SameStop(day.visits[i], r.visits[i]) && TidyVisit(r.visits[i])
      ensures r.visits[i].arrivalMin == day.visits[i].arrivalMin
      ensures FitsDay(r.visits[i].attraction, r.visitDate, r.bounds, r.visits[i].arrivalMin, r.visits[i].plannedDurationMin)
      ensures i + 1 < |r.visits| ==>
        r.visits[i].leaveMin <= day.visits[i + 1].arrivalMin - day.visits[i + 1].bufferedTravelMin
    {
      assert TidyVisit(day.visits[i]);
      ExpandedVisitFits(day, i);
    }
    forall i | 1 <= i < |r.visits|
      ensures r.visits[i].bufferedTravelMin == day.visits[i].bufferedTravelMin
    {
      SameStopTravel(day.visits[i], r.visits[i]);
    }
    forall i | 1 <= i < |r.visits|
      ensures r.visits[i].arrivalMin >= r.visits[i - 1].leaveMin + r.visits[i].bufferedTravelMin
    {
      var j := i - 1;
      assert r.visits[j].leaveMin <= day.visits[j + 1].arrivalMin - day.visits[j + 1].bufferedTravelMin;
    }
  }

  lemma {:induction false} SameStopTravel(v: RouteVisit, w: RouteVisit)
    requires SameStop(v, w)
    ensures w.attraction == v.attraction
    ensures w.travelFromPrevious == v.travelFromPrevious && w.bufferedTravelMin == v.bufferedTravelMin
  {
  }

  // ---- one daytime visit ---------------------------------------------------------------

  /** Moving and stretching the first visit keeps the day tidy if it still ends in time for
      the second. */
  lemma {:induction false} ReplaceFirstIsTidy(day: RoutedDay, arrival: int, duration: int)
    requires Tidy(day) && day.visits != [] && duration >= day.visits[0].plannedDurationMin
    requires |day.visits| > 1 ==> arrival + duration <= day.visits[1].arrivalMin - day.visits[1].bufferedTravelMin
    requires TimesFit(ReplaceFirst(day, arrival, duration))
    ensures Tidy(ReplaceFirst(day, arrival, duration)) && Refines(day, ReplaceFirst(day, arrival, duration), 1)
  {
    hide FitsDay, Reevaluate;
    assert TidyVisit(day.visits[0]);
  }

  lemma {:induction false} SingleDeadlineLeavesRoom(day: RoutedDay, window: EffectiveTimeWindow, cross: int, dinner: int)
    requires |day.visits| > 1 && dinner >= 0
    ensures SingleDeadline(day, window, cross, dinner).0 <= day.visits[1].arrivalMin - cross
    ensures SingleDeadline(day, window, cross, dinner).1 ==>
      SingleDeadline(day, window, cross, dinner).0 <= day.visits[1].arrivalMin - cross - dinner
    ensures DinnerGap(day, 1, cross, dinner) <==> SingleDeadline(day, window, cross, dinner).1
  {
  }

  /** What the expansion of a single daytime visit leaves in place. */
  predicate SingleOutcome(day: RoutedDay, r: RoutedDay, cross: int, dinner: int) {
    && Refines(day, r, 1)
    && Tidy(r)
    && (DinnerGap(day, 1, cross, dinner) ==> DinnerGap(r, 1, cross, dinner))
  }

  lemma {:induction false} ReplaceFirstOutcome(day: RoutedDay, arrival: int, duration: int, window: EffectiveTimeWindow, cross: int, dinner: int)
    requires Tidy(day) && day.visits != [] && CrossStored(day, 1, cross) && dinner >= 0
    requires duration >= day.visits[0].plannedDurationMin
    requires arrival + duration <= SingleDeadline(day, window, cross, dinner).0
    requires TimesFit(ReplaceFirst(day, arrival, duration))
    ensures SingleOutcome(day, ReplaceFirst(day, arrival, duration), cross, dinner)
  {
    hide TimesFit, Reevaluate;
    if |day.visits| > 1 { SingleDeadlineLeavesRoom(day, window, cross, dinner); }
    ReplaceFirstIsTidy(day, arrival, duration);
  }

  lemma {:induction false} ExpandedSingleOutcome(day: RoutedDay, cross: int, dinner: int)
    requires Tidy(day) && day.visits != [] && CrossStored(day, 1, cross) && dinner >= 0
    ensures SingleOutcome(day, ExpandedSingle(day, cross, dinner), cross, dinner)
  {
    hide TimesFit, Reschedule, ResolveEffectiveWindow, SingleDeadline, LatestFor;
    RefinesSelf(day, 1);
    var visit := day.visits[0];
    assert TidyVisit(visit);
    var resolution := DefaultWindow(visit.attraction, day.visitDate);
    if resolution.Window? {
      var window := resolution.window;
      var (deadline, canSpread) := SingleDeadline(day, window, cross, dinner);
      var duration := Min(visit.attraction.suggestedDuration, deadline - visit.arrivalMin);
      if duration >= visit.plannedDurationMin {
        var expanded := if duration > visit.plannedDurationMin then ReplaceFirst(day, visit.arrivalMin, duration) else day;
        if duration > visit.plannedDurationMin && TimesFit(expanded) {
          ReplaceFirstOutcome(day, visit.arrivalMin, duration, window, cross, dinner);
        }
        if TimesFit(expanded) && canSpread {
          SpreadSingleOutcome(day, expanded, window, cross, dinner, duration);
        }
      }
    }
  }

  lemma {:induction false} SpreadSingleOutcome(
    day: RoutedDay, expanded: RoutedDay, window: EffectiveTimeWindow, cross: int, dinner: int, duration: int)
    requires Tidy(day) && day.visits != [] && CrossStored(day, 1, cross) && dinner >= 0
    requires duration >= day.visits[0].plannedDurationMin
    requires expanded == day || expanded == ReplaceFirst(day, day.visits[0].arrivalMin, duration)
    requires SingleOutcome(day, expanded, cross, dinner)
    ensures
      var r := SpreadSingle(day, expanded, window, SingleDeadline(day, window, cross, dinner).0, duration);
      SingleOutcome(day, r, cross, dinner)
  {
    hide TimesFit, Reschedule, ResolveEffectiveWindow, SingleDeadline, LatestFor, SingleOutcome;
    var deadline := SingleDeadline(day, window, cross, dinner).0;
    var r := SpreadSingle(day, expanded, window, deadline, duration);
    if r != expanded {
      var arrival := r.visits[0].arrivalMin;
      var desired := Max(Max(day.visits[0].arrivalMin, Max(day.bounds.startMin, LUNCH_EARLIEST_MIN) + LUNCH_DURATION_MIN),
                         Min(SPREAD_TARGET_END_MIN, deadline) - duration);
      assert r == ReplaceFirst(expanded, desired, duration);
      ReplaceFirstTwice(day, expanded, desired, duration);
      ReplaceFirstOutcome(day, desired, duration, window, cross, dinner);
    }
  }

  lemma {:induction false} ReplaceFirstTwice(day: RoutedDay, expanded: RoutedDay, arrival: int, duration: int)
    requires day.visits != []
    requires expanded == day || expanded == ReplaceFirst(day, day.visits[0].arrivalMin, duration)
    ensures ReplaceFirst(expanded, arrival, duration) == ReplaceFirst(day, arrival, duration)
  {
    hide Reschedule;
    RescheduleTwice(day.visits[0], day.visits[0].arrivalMin, duration, arrival, duration);
  }

  /** A single daytime visit is only moved later behind a full hour of lunch that ends in
      the lunch window, and only when the full dinner before the evening stays free. */
  lemma {:induction false} MovedSingleKeepsMeals(day: RoutedDay, cross: int, dinner: int)
    requires Tidy(day) && day.visits != [] && CrossStored(day, 1, cross) && dinner >= 0
    requires ExpandedSingle(day, cross, dinner).visits[0].arrivalMin != day.visits[0].arrivalMin
    ensures
      var r := ExpandedSingle(day, cross, dinner);
      var lunchStart := Max(day.bounds.startMin, LUNCH_EARLIEST_MIN);
      && lunchStart + LUNCH_DURATION_MIN <= LUNCH_LATEST_END_MIN
      && lunchStart + LUNCH_DURATION_MIN <= r.visits[0].arrivalMin
      && r.visits[0].arrivalMin > day.visits[0].arrivalMin
      && |day.visits| > 1
      && DinnerGap(day, 1, cross, dinner) && DinnerGap(r, 1, cross, dinner)
  {
    hide TimesFit, Reevaluate, ResolveEffectiveWindow, LatestFor;
    ExpandedSingleOutcome(day, cross, dinner);
    var resolution := DefaultWindow(day.visits[0].attraction, day.visitDate);
    if resolution.Window? && |day.visits| > 1 {
      SingleDeadlineLeavesRoom(day, resolution.window, cross, dinner);
    }
  }

  // ---- several daytime visits ------------------------------------------------------------

  /** A candidate under construction: the same stops, in order, never starting before the
      previous one is left and the travel is done. */
  predicate BuiltFrom(visits: seq<RouteVisit>, built: seq<RouteVisit>) {
    && |built| <= |visits|
    && (forall i :: 0 <= i < |built| ==> SameStop(visits[i], built[i]) && TidyVisit(built[i]))
    && Ordered(built)
  }

  lemma {:induction false} RescheduledIsSameStop(v: RouteVisit, arrival: int, duration: int)
    requires TidyVisit(v) && duration >= v.plannedDurationMin
    ensures SameStop(v, Reschedule(v, arrival, duration)) && TidyVisit(Reschedule(v, arrival, duration))
    ensures Reschedule(v, arrival, duration).arrivalMin == arrival
    ensures Reschedule(v, arrival, duration).leaveMin == arrival + duration
    ensures Reschedule(v, arrival, duration).bufferedTravelMin == v.bufferedTravelMin
  {
    hide Reevaluate;
  }

  lemma {:induction false} BuiltIsOrdered(visits: seq<RouteVisit>, n: nat, expand: bool, preserveLunch: bool)
    requires n <= |visits|
    requires forall i :: 0 <= i < |visits| ==> TidyVisit(visits[i])
    ensures BuiltFrom(visits, Built(visits, n, expand, preserveLunch).built)
  {
    hide AppendNext, CandidateDuration, Reschedule, TidyVisit, SameStop;
    if n > 0 {
      BuiltIsOrdered(visits, n - 1, expand, preserveLunch);
      var before, after := Built(visits, n - 1, expand, preserveLunch), Built(visits, n, expand, preserveLunch);
      var v, w := visits[n - 1], after.built[n - 1];
      AppendedArrival(before, v, expand, preserveLunch);
      RescheduledIsSameStop(v, w.arrivalMin, CandidateDuration(v, expand));
      SameStopTravel(v, w);
      assert after.built == before.built + [w];
      OrderedAppend(before.built, w);
    }
  }

  lemma {:induction false} OrderedAppend(built: seq<RouteVisit>, w: RouteVisit)
    requires Ordered(built)
    requires built != [] ==> w.arrivalMin >= built[|built| - 1].leaveMin + w.bufferedTravelMin
    ensures Ordered(built + [w])
  {
  }

  /** The visit appended to a candidate starts no earlier than travel allows. */
  lemma {:induction false} AppendedArrival(progress: Progress, v: RouteVisit, expand: bool, preserveLunch: bool)
    ensures
      var r := AppendNext(progress, v, expand, preserveLunch);
      var w := r.built[|progress.built|];
      && |r.built| == |progress.built| + 1 && r.built[..|progress.built|] == progress.built
      && w == Reschedule(v, w.arrivalMin, CandidateDuration(v, expand))
      && CandidateDuration(v, expand) >= v.plannedDurationMin
      && (progress.built != [] ==>
            w.arrivalMin >= progress.built[|progress.built| - 1].leaveMin + v.bufferedTravelMin)
  {
    hide Reevaluate;
  }

  lemma {:induction false} DelayedIsOrdered(visits: seq<RouteVisit>, built: seq<RouteVisit>, deadline: int)
    requires built != [] && BuiltFrom(visits, built)
    ensures BuiltFrom(visits, DelayLast(built, deadline))
    ensures DelayLast(built, deadline)[|built| - 1].arrivalMin >= built[|built| - 1].arrivalMin
  {
    hide Reevaluate;
    var last := |built| - 1;
    var r := DelayLast(built, deadline);
    assert SameStop(visits[last], built[last]) && TidyVisit(built[last]);
    if r != built {
      RescheduleTwice(visits[last], built[last].arrivalMin, built[last].plannedDurationMin,
                      r[last].arrivalMin, r[last].plannedDurationMin);
    }
  }

  lemma {:induction false} CandidateIsOrdered(visits: seq<RouteVisit>, expand: bool, preserveLunch: bool, deadline: int)
    requires visits != [] && (forall i :: 0 <= i < |visits| ==> TidyVisit(visits[i]))
    requires CandidateSpec(visits, expand, preserveLunch, deadline).Some?
    ensures BuiltFrom(visits, CandidateSpec(visits, expand, preserveLunch, deadline).value)
    ensures CandidateSpec(visits, expand, preserveLunch, deadline).value[|visits| - 1].leaveMin <= deadline
  {
    hide Built, DelayLast, BuiltFrom;
    BuiltIsOrdered(visits, |visits|, expand, preserveLunch);
    DelayedIsOrdered(visits, Built(visits, |visits|, expand, preserveLunch).built, deadline);
  }

  /** Waiting only makes a day longer: the minimum finish is a lower bound. */
  lemma {:induction false} MinimumFinishIsLowerBound(visits: seq<RouteVisit>, n: nat)
    requires 1 <= n <= |visits| && Ordered(visits)
    requires forall i :: 0 <= i < |visits| ==> TidyVisit(visits[i])
    ensures MinimumFinish(visits, n) <= visits[n - 1].leaveMin
  {
    assert TidyVisit(visits[n - 1]);
    if n > 1 { MinimumFinishIsLowerBound(visits, n - 1); }
  }

  lemma {:induction false} DeadlineLeavesRoom(day: RoutedDay, count: nat, cross: int, dinner: int)
    requires Tidy(day) && 1 <= count < |day.visits| && dinner >= 0
    ensures Deadline(day, count, cross, dinner) <= day.visits[count].arrivalMin - cross
    ensures DinnerGap(day, count, cross, dinner) ==>
      Deadline(day, count, cross, dinner) <= day.visits[count].arrivalMin - cross - dinner
  {
    hide TimesFit;
    MinimumFinishIsLowerBound(day.visits[..count], count);
  }

  predicate ManyOutcome(day: RoutedDay, r: RoutedDay, count: nat, cross: int, dinner: int) {
    && Refines(day, r, count)
    && Tidy(r)
    && (DinnerGap(day, count, cross, dinner) ==> DinnerGap(r, count, cross, dinner))
  }

  lemma {:induction false} OfferOutcome(day: RoutedDay, count: nat, cross: int, dinner: int, expand: bool, preserveLunch: bool, c: Candidate)
    requires Tidy(day) && 1 <= count <= |day.visits| && CrossStored(day, count, cross) && dinner >= 0
    requires c in Offer(day, count, Deadline(day, count, cross, dinner), expand, preserveLunch)
    ensures ManyOutcome(day, c.day, count, cross, dinner)
  {
    hide TimesFit, CandidateSpec, ScoreOf, SameStop, Deadline;
    var deadline := Deadline(day, count, cross, dinner);
    var daytime, evening := day.visits[..count], day.visits[count..];
    var refined := CandidateSpec(daytime, expand, preserveLunch, deadline).value;
    CandidateIsOrdered(daytime, expand, preserveLunch, deadline);
    var r := c.day;
    assert r.visits == refined + evening;
    if count < |day.visits| { DeadlineLeavesRoom(day, count, cross, dinner); }
    forall i | 0 <= i < |r.visits|
      ensures SameStop(day.visits[i], r.visits[i]) && TidyVisit(r.visits[i])
      ensures i >= count ==> r.visits[i] == day.visits[i]
    {
      if i < count {
        assert day.visits[i] == daytime[i];
      } else {
        SameStopSelf(day.visits[i]);
      }
    }
    forall i | 1 <= i < |r.visits|
      ensures r.visits[i].bufferedTravelMin >= 0
      ensures r.visits[i].arrivalMin >= r.visits[i - 1].leaveMin + r.visits[i].bufferedTravelMin
    {
      SameStopTravel(day.visits[i], r.visits[i]);
      if i < count {
        assert r.visits[i] == refined[i] && r.visits[i - 1] == refined[i - 1];
      } else if i == count {
        assert r.visits[i - 1] == refined[count - 1];
      } else {
        assert r.visits[i] == day.visits[i] && r.visits[i - 1] == day.visits[i - 1];
      }
    }
  }

  lemma {:induction false} SameStopSelf(v: RouteVisit)
    ensures SameStop(v, v)
  {
    hide Reschedule;
  }

  lemma {:induction false} OffersOutcome(day: RoutedDay, count: nat, cross: int, dinner: int, k: nat, c: Candidate)
    requires Tidy(day) && 1 <= count <= |day.visits| && CrossStored(day, count, cross) && dinner >= 0
    requires c in Offers(day, count, Deadline(day, count, cross, dinner), k)
    ensures ManyOutcome(day, c.day, count, cross, dinner)
  {
    hide Tidy, CrossStored, Offer, ManyOutcome, Deadline;
    if k > 0 {
      var deadline := Deadline(day, count, cross, dinner);
      if c in Offers(day, count, deadline, k - 1) {
        OffersOutcome(day, count, cross, dinner, k - 1, c);
      } else {
        OfferOutcome(day, count, cross, dinner, k - 1 < 2, (k - 1) % 2 == 0, c);
      }
    }
  }

  lemma {:induction false} RefinedManyOutcome(day: RoutedDay, count: nat, cross: int, dinner: int)
    requires Tidy(day) && 1 <= count <= |day.visits| && CrossStored(day, count, cross) && dinner >= 0
    ensures ManyOutcome(day, RefinedMany(day, count, cross, dinner), count, cross, dinner)
  {
    hide Offers, Deadline, Tidy;
    var candidates := Offers(day, count, Deadline(day, count, cross, dinner), 4);
    if candidates == [] {
      RefinesSelf(day, count);
    } else {
      OffersOutcome(day, count, cross, dinner, 4, Best(candidates));
    }
  }

  // ---- the whole refinement ----------------------------------------------------------------

  lemma {:induction false} RefinedOutcome(day: RoutedDay, count: nat, cross: int, dinner: int)
    requires Tidy(day) && CrossStored(day, count, cross) && dinner >= 0
    ensures ManyOutcome(day, Refined(day, count, cross, dinner), count, cross, dinner)
  {
    hide Tidy, ExpandedSingle, RefinedMany, ExpandedEvening, SameStop;
    RefinesSelf(day, count);
    if count <= |day.visits| {
      ExpandedEveningIsTidy(day, count);
      var expanded := ExpandedEvening(day, count);
      ExpandedEveningKeepsDaytime(day, count, cross, dinner);
      if count == 1 && expanded.visits != [] {
        ExpandedSingleOutcome(expanded, cross, dinner);
        RefinesTransitive(day, expanded, ExpandedSingle(expanded, cross, dinner), 1);
      } else if count >= 2 {
        RefinedManyOutcome(expanded, count, cross, dinner);
        RefinesTransitive(day, expanded, RefinedMany(expanded, count, cross, dinner), count);
      }
    }
  }

  lemma {:induction false} ExpandedEveningKeepsDaytime(day: RoutedDay, count: nat, cross: int, dinner: int)
    requires count <= |day.visits| && Refines(day, ExpandedEvening(day, count), count)
    ensures CrossStored(day, count, cross) ==> CrossStored(ExpandedEvening(day, count), count, cross)
    ensures DinnerGap(day, count, cross, dinner) ==> DinnerGap(ExpandedEvening(day, count), count, cross, dinner)
  {
    hide ExpandedVisit, SameStop;
    if 0 < count < |day.visits| {
      SameStopTravel(day.visits[count], ExpandedEvening(day, count).visits[count]);
    }
  }

  /** Refinement preserves validity: from a feasible route it makes a feasible route of the
      same stops, with the same travel, the same evening arrivals, no stay shortened, period
      evaluations of the new arrivals, and the full dinner gap if there was one. */
  lemma {:induction false} RefinementIsSafe(day: RoutedDay, count: nat, cross: int, dinner: int, world: World)
    requires SoundRoute(day, world) && (world.bufferRatio >= 1.0 || day.visits == []) && PeriodsCurrent(day.visits)
    requires CrossStored(day, count, cross) && dinner >= 0
    ensures
      var r := Refined(day, count, cross, dinner);
      && SoundRoute(r, world)
      && PeriodsCurrent(r.visits)
      && Refines(day, r, count)
      && VisitAttractions(r.visits) == VisitAttractions(day.visits)
      && (DinnerGap(day, count, cross, dinner) ==> DinnerGap(r, count, cross, dinner))
  {
    hide Refined, SoundRoute, Tidy, SameStop, PeriodsCurrent;
    SoundIsTidy(day, world);
    RefinedOutcome(day, count, cross, dinner);
    var r := Refined(day, count, cross, dinner);
    TidyRefinementIsSound(day, r, count, world);
    RefinedPeriods(day, r, count);
    forall i | 0 <= i < |day.visits|
      ensures r.visits[i].attraction == day.visits[i].attraction
    {
      SameStopTravel(day.visits[i], r.visits[i]);
    }
    assert VisitAttractions(r.visits) == VisitAttractions(day.visits);
  }
}
