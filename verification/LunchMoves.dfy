/** Exactly when a stop comes earlier than it was routed: only the stop that lunch is put before,
    and only if it was routed later than lunch leaves it. */
module LunchMoves {
  import opened Prelude
  import opened Models
  import opened TimeWindows
  import opened Timeline
  import opened Routing
  import opened Validation
  import opened Refinement
  import opened Segments
  import opened SegmentProofs
  import opened SmallRuns

  // ---- the lunch stop of a candidate ----------------------------------------------------------------

  /** Without any lunch so far, lunch fits before stop `i`. */
  predicate LunchBefore(visits: seq<RouteVisit>, expand: bool, i: nat)
    requires 1 <= i < |visits|
  {
    var leave := Built(visits, i, expand, false).built[i - 1].leaveMin;
    LunchFits(leave, leave + visits[i].bufferedTravelMin)
  }

  /** The stop lunch is put before: the first it fits before. */
  predicate LunchStop(visits: seq<RouteVisit>, expand: bool, m: nat) {
    && 1 <= m < |visits| && LunchBefore(visits, expand, m)
    && forall i :: 1 <= i < m ==> !LunchBefore(visits, expand, i)
  }

  function LunchArrival(visits: seq<RouteVisit>, expand: bool, m: nat): int
    requires 1 <= m < |visits|
  {
    Max(Built(visits, m, expand, false).built[m - 1].leaveMin + visits[m].bufferedTravelMin + LUNCH_DURATION_MIN,
        LUNCH_TARGET_END_MIN)
  }

  /** How far the last stop is moved towards the afternoon target. */
  function LastDelay(leave: int, deadline: int): int {
    Max(0, Min(Min(SPREAD_TARGET_END_MIN, deadline) - leave, SPREAD_MAX_DELAY_MIN))
  }

  /** When the stop after lunch begins in the end. */
  function LunchStart(visits: seq<RouteVisit>, expand: bool, deadline: int, m: nat): int
    requires 1 <= m < |visits|
  {
    var arrival := LunchArrival(visits, expand, m);
    if m < |visits| - 1 then arrival
    else arrival + LastDelay(arrival + CandidateDuration(visits[m], expand), deadline)
  }

  /** The stop after lunch was routed later than it begins. */
  predicate LunchSetsBack(visits: seq<RouteVisit>, expand: bool, deadline: int) {
    exists m :: 1 <= m < |visits| && LunchStop(visits, expand, m)
      && LunchStart(visits, expand, deadline, m) < visits[m].arrivalMin
  }

  lemma {:induction false} PlainNeverInserts(visits: seq<RouteVisit>, n: nat, expand: bool)
    requires n <= |visits|
    ensures !Built(visits, n, expand, false).lunchInserted
    ensures forall i :: 0 <= i < n ==> Built(visits, n, expand, false).built[i].arrivalMin >= visits[i].arrivalMin
  {
    hide CandidateDuration, Reevaluate;
    if n > 0 { PlainNeverInserts(visits, n - 1, expand); }
  }

  /** Up to the lunch stop a candidate is the plain one; the lunch stop begins after lunch; every
      other stop begins no earlier than routed. */
  lemma {:induction false} BuiltArrivals(visits: seq<RouteVisit>, n: nat, expand: bool)
    requires n <= |visits|
    ensures
      var p := Built(visits, n, expand, true);
      && (p.lunchInserted <==> exists m :: 0 <= m < n && LunchStop(visits, expand, m))
      && (!p.lunchInserted ==> p == Built(visits, n, expand, false))
      && (forall i :: 0 <= i < n ==>
            if LunchStop(visits, expand, i) then
              p.built[i].arrivalMin == LunchArrival(visits, expand, i)
              && p.built[i].leaveMin == LunchArrival(visits, expand, i) + CandidateDuration(visits[i], expand)
            else p.built[i].arrivalMin >= visits[i].arrivalMin)
  {
    hide CandidateDuration, Reschedule, LunchFits, LunchStop, LunchArrival, AppendNext, LunchBefore;
    if n > 0 {
      BuiltArrivals(visits, n - 1, expand);
      PlainNeverInserts(visits, n - 1, expand);
      LunchStopIff(visits, expand, n - 1);
      LunchStep(visits, n - 1, expand);
    }
  }

  /** What one more stop does to a candidate that keeps lunch. */
  lemma {:induction false} LunchStep(visits: seq<RouteVisit>, n: nat, expand: bool)
    requires n < |visits| && !Built(visits, n, expand, false).lunchInserted
    ensures
      var p, r, v := Built(visits, n, expand, true), Built(visits, n + 1, expand, true), visits[n];
      && r.built[..n] == p.built
      && r.built[n].leaveMin == r.built[n].arrivalMin + CandidateDuration(v, expand)
      && (p.lunchInserted ==> r.lunchInserted && r.built[n].arrivalMin >= v.arrivalMin)
      && (p == Built(visits, n, expand, false) ==>
            if n >= 1 && LunchBefore(visits, expand, n) then
              r.lunchInserted && r.built[n].arrivalMin == LunchArrival(visits, expand, n)
            else r == Built(visits, n + 1, expand, false) && !r.lunchInserted && r.built[n].arrivalMin >= v.arrivalMin)
  {
    hide CandidateDuration, Reevaluate, LunchFits;
  }

  lemma {:induction false} LunchStopIff(visits: seq<RouteVisit>, expand: bool, m: nat)
    requires m < |visits|
    ensures LunchStop(visits, expand, m) <==>
      m >= 1 && LunchBefore(visits, expand, m) && !exists i :: 0 <= i < m && LunchStop(visits, expand, i)
  {
    hide LunchBefore;
    if m >= 1 && LunchBefore(visits, expand, m) && !LunchStop(visits, expand, m) {
      var i :| 1 <= i < m && LunchBefore(visits, expand, i);
      FirstLunch(visits, expand, i);
    }
  }

  lemma {:induction false} FirstLunch(visits: seq<RouteVisit>, expand: bool, i: nat)
    requires 1 <= i < |visits| && LunchBefore(visits, expand, i)
    ensures exists m :: 1 <= m <= i && LunchStop(visits, expand, m)
    decreases i
  {
    hide LunchBefore;
    if j :| 1 <= j < i && LunchBefore(visits, expand, j) {
      FirstLunch(visits, expand, j);
    } else {
      assert LunchStop(visits, expand, i);
    }
  }

  predicate SetsBack(visits: seq<RouteVisit>, built: seq<RouteVisit>)
    requires |visits| <= |built|
  {
    exists i :: 0 <= i < |visits| && built[i].arrivalMin < visits[i].arrivalMin
  }

  lemma {:induction false} DelayedArrivals(built: seq<RouteVisit>, deadline: int)
    requires built != []
    ensures
      var r, last := DelayLast(built, deadline), |built| - 1;
      && (forall i :: 0 <= i < last ==> r[i] == built[i])
      && r[last].arrivalMin == built[last].arrivalMin + LastDelay(built[last].leaveMin, deadline)
  {
    hide Reevaluate;
  }

  /** A candidate sets a stop back if and only if it keeps lunch and its lunch stop was routed
      later than lunch leaves it. */
  lemma {:induction false} CandidateSetsBackIff(visits: seq<RouteVisit>, expand: bool, preserveLunch: bool, deadline: int)
    requires visits != [] && CandidateSpec(visits, expand, preserveLunch, deadline).Some?
    ensures SetsBack(visits, CandidateSpec(visits, expand, preserveLunch, deadline).value) <==>
      preserveLunch && LunchSetsBack(visits, expand, deadline)
  {
    hide Built, DelayLast, LunchStop, LunchArrival, LastDelay, CandidateDuration, LunchSetsBack, SetsBack;
    var n := |visits|;
    var built := Built(visits, n, expand, preserveLunch).built;
    DelayedArrivals(built, deadline);
    if preserveLunch { BuiltArrivals(visits, n, expand); } else { PlainNeverInserts(visits, n, expand); }
    var r := CandidateSpec(visits, expand, preserveLunch, deadline).value;
    SetBackMeansLunch(visits, r, built, expand, preserveLunch, deadline);
    LunchMeansSetBack(visits, r, built, expand, preserveLunch, deadline);
  }

  /** The arrivals of a finished candidate. */
  predicate CandidateArrivals(visits: seq<RouteVisit>, r: seq<RouteVisit>, built: seq<RouteVisit>, expand: bool, preserveLunch: bool, deadline: int) {
    && visits != [] && |r| == |built| == |visits|
    && (forall i :: 0 <= i < |visits| - 1 ==> r[i] == built[i])
    && r[|visits| - 1].arrivalMin == built[|visits| - 1].arrivalMin + LastDelay(built[|visits| - 1].leaveMin, deadline)
    && (forall i :: 0 <= i < |visits| ==>
          if preserveLunch && LunchStop(visits, expand, i) then
            built[i].arrivalMin == LunchArrival(visits, expand, i)
            && built[i].leaveMin == LunchArrival(visits, expand, i) + CandidateDuration(visits[i], expand)
          else built[i].arrivalMin >= visits[i].arrivalMin)
  }

  lemma {:induction false} SetBackMeansLunch(
    visits: seq<RouteVisit>, r: seq<RouteVisit>, built: seq<RouteVisit>, expand: bool, preserveLunch: bool, deadline: int)
    requires CandidateArrivals(visits, r, built, expand, preserveLunch, deadline)
    ensures SetsBack(visits, r) ==> preserveLunch && LunchSetsBack(visits, expand, deadline)
  {
    hide LunchArrival, LastDelay, CandidateDuration, LunchBefore;
    DelayIsForward(built[|visits| - 1].leaveMin, deadline);
    if SetsBack(visits, r) {
      var i :| 0 <= i < |visits| && r[i].arrivalMin < visits[i].arrivalMin;
      assert LunchStop(visits, expand, i);
      assert LunchStart(visits, expand, deadline, i) < visits[i].arrivalMin;
    }
  }

  lemma {:induction false} LunchMeansSetBack(
    visits: seq<RouteVisit>, r: seq<RouteVisit>, built: seq<RouteVisit>, expand: bool, preserveLunch: bool, deadline: int)
    requires CandidateArrivals(visits, r, built, expand, preserveLunch, deadline)
    ensures preserveLunch && LunchSetsBack(visits, expand, deadline) ==> SetsBack(visits, r)
  {
    hide LunchArrival, LastDelay, CandidateDuration, LunchStop;
    if preserveLunch && LunchSetsBack(visits, expand, deadline) {
      var m :| 1 <= m < |visits| && LunchStop(visits, expand, m) && LunchStart(visits, expand, deadline, m) < visits[m].arrivalMin;
      assert r[m].arrivalMin < visits[m].arrivalMin;
    }
  }

  lemma {:induction false} DelayIsForward(leave: int, deadline: int)
    ensures LastDelay(leave, deadline) >= 0
  {
  }

  // ---- the whole refinement ------------------------------------------------------------------------------

  /** A single daytime visit never begins earlier. */
  lemma {:induction false} SingleNeverEarlier(day: RoutedDay, cross: int, dinner: int)
    requires day.visits != []
    ensures |ExpandedSingle(day, cross, dinner).visits| == |day.visits|
    ensures !SetsBack(day.visits, ExpandedSingle(day, cross, dinner).visits)
  {
    hide DefaultWindow, TimesFit, Reevaluate, LatestFor;
  }

  lemma {:induction false} EveningArrivalsStay(day: RoutedDay, count: nat)
    ensures ExpandedEvening(day, count) == day.(visits := ExpandedEvening(day, count).visits)
    ensures forall i :: 0 <= i < |day.visits| ==>
      ExpandedEvening(day, count).visits[i].arrivalMin == day.visits[i].arrivalMin
    ensures forall i :: 0 <= i < count && i < |day.visits| ==> ExpandedEvening(day, count).visits[i] == day.visits[i]
  {
    hide DefaultWindow, Reevaluate;
  }

  /** The options under which the chosen candidate was built. */
  predicate ChosenWith(day: RoutedDay, count: nat, deadline: int, expand: bool, preserveLunch: bool, r: RoutedDay)
    requires 1 <= count <= |day.visits|
  {
    exists c :: c in Offer(day, count, deadline, expand, preserveLunch) && c.day == r
  }

  lemma {:induction false} OfferedSetsBackIff(
    day: RoutedDay, count: nat, deadline: int, expand: bool, preserveLunch: bool, r: RoutedDay)
    requires 1 <= count <= |day.visits| && ChosenWith(day, count, deadline, expand, preserveLunch, r)
    ensures |r.visits| == |day.visits|
    ensures SetsBack(day.visits, r.visits) <==>
      preserveLunch && LunchSetsBack(day.visits[..count], expand, deadline)
  {
    hide CandidateSpec, TimesFit, ScoreOf, LunchSetsBack;
    var daytime := day.visits[..count];
    CandidateSetsBackIff(daytime, expand, preserveLunch, deadline);
    var refined := CandidateSpec(daytime, expand, preserveLunch, deadline).value;
    assert r.visits == refined + day.visits[count..];
    if SetsBack(daytime, refined) {
      var i :| 0 <= i < count && refined[i].arrivalMin < daytime[i].arrivalMin;
      assert r.visits[i].arrivalMin < day.visits[i].arrivalMin;
    }
    assert forall j :: count <= j < |day.visits| ==> r.visits[j] == day.visits[j];
    if SetsBack(day.visits, r.visits) {
      var i :| 0 <= i < |day.visits| && r.visits[i].arrivalMin < day.visits[i].arrivalMin;
      assert refined[i].arrivalMin < daytime[i].arrivalMin;
    }
  }

  lemma {:induction false} OffersChosenWith(day: RoutedDay, count: nat, deadline: int, k: nat, c: Candidate)
    requires 1 <= count <= |day.visits| && k <= 4 && c in Offers(day, count, deadline, k)
    ensures exists expand, preserveLunch :: ChosenWith(day, count, deadline, expand, preserveLunch, c.day)
  {
    hide Offer;
    if c in Offers(day, count, deadline, k - 1) {
      OffersChosenWith(day, count, deadline, k - 1, c);
    } else {
      assert ChosenWith(day, count, deadline, k - 1 < 2, (k - 1) % 2 == 0, c.day);
    }
  }

  /** The refined day was chosen among candidates that keep lunch, and its lunch stop was routed
      later than lunch leaves it. */
  ghost predicate LunchChosen(day: RoutedDay, count: nat, cross: int, dinner: int) {
    2 <= count <= |day.visits|
    && exists expand ::
         ChosenWith(
           ExpandedEvening(day, count), count, Deadline(day, count, cross, dinner), expand, true,
           Refined(day, count, cross, dinner))
         && LunchSetsBack(day.visits[..count], expand, Deadline(day, count, cross, dinner))
  }

  /** Refinement begins a stop earlier than it was routed if and only if a candidate that sets its
      lunch stop back is chosen. */
  lemma {:induction false} RefinedSetsBackIff(day: RoutedDay, count: nat, cross: int, dinner: int)
    ensures |Refined(day, count, cross, dinner).visits| == |day.visits|
    ensures SetsBack(day.visits, Refined(day, count, cross, dinner).visits) <==> LunchChosen(day, count, cross, dinner)
  {
    hide ExpandedEvening, ExpandedSingle, Offers, Offer, LunchSetsBack, Deadline, ChosenWith;
    if count <= |day.visits| {
      var expanded := ExpandedEvening(day, count);
      EveningArrivalsStay(day, count);
      if count == 1 {
        SingleNeverEarlier(expanded, cross, dinner);
      } else if count >= 2 {
        var deadline := Deadline(day, count, cross, dinner);
        assert expanded.visits[..count] == day.visits[..count];
        SameDeadline(day, expanded, count, cross, dinner);
        var r := RefinedMany(expanded, count, cross, dinner);
        var candidates := Offers(expanded, count, deadline, 4);
        if candidates != [] {
          OffersChosenWith(expanded, count, deadline, 4, Best(candidates));
          var expand, preserveLunch :| ChosenWith(expanded, count, deadline, expand, preserveLunch, r);
          OfferedSetsBackIff(expanded, count, deadline, expand, preserveLunch, r);
        }
        forall expand | ChosenWith(expanded, count, deadline, expand, true, r)
          ensures SetsBack(expanded.visits, r.visits) <==> LunchSetsBack(day.visits[..count], expand, deadline)
        {
          OfferedSetsBackIff(expanded, count, deadline, expand, true, r);
        }
      }
    }
  }

  /** In particular no stop begins earlier if neither with longer stays nor without a lunch stop
      was routed later than lunch leaves it. */
  lemma {:induction false} RefinedNeverEarlier(day: RoutedDay, count: nat, cross: int, dinner: int)
    requires 2 <= count <= |day.visits| ==>
      forall expand :: !LunchSetsBack(day.visits[..count], expand, Deadline(day, count, cross, dinner))
    ensures |Refined(day, count, cross, dinner).visits| == |day.visits|
    ensures !SetsBack(day.visits, Refined(day, count, cross, dinner).visits)
  {
    hide Refined, LunchSetsBack, Deadline, ChosenWith, ExpandedEvening;
    RefinedSetsBackIff(day, count, cross, dinner);
  }

  lemma {:induction false} SameDeadline(day: RoutedDay, expanded: RoutedDay, count: nat, cross: int, dinner: int)
    requires 1 <= count <= |day.visits| == |expanded.visits| && expanded.bounds == day.bounds
    requires expanded.visits[..count] == day.visits[..count]
    requires count < |day.visits| ==> expanded.visits[count].arrivalMin == day.visits[count].arrivalMin
    ensures Deadline(expanded, count, cross, dinner) == Deadline(day, count, cross, dinner)
  {
  }

  // ---- a stop that comes earlier ------------------------------------------------------------------------

  function Walled(): DayAllocation { DayAllocation(Always(1, 90), 1, 1, 90, None) }

  function Garden(): DayAllocation { DayAllocation(Always(2, 60), 1, 1, 60, None) }

  function GardenPlan(): DayPlan { DayPlan(1, DayTimeBounds(540, 1260), [Walled(), Garden()], 0, 0) }

  /** Visits the first stop at nine and the second at twenty to five. */
  function GardenOracle(): Oracle {
    (k: nat, plan: DayPlan, terminal: Option<int>) =>
      if plan == RebuildDayPlan(GardenPlan(), GardenPlan().allocations) then PairAt(plan, 540, 1000)
      else NoSolution(false)
  }

  function GardenRoute(): RoutedDay {
    RoutedDay(
      1, DayTimeBounds(540, 1260),
      [RouteVisit(Always(1, 90), 540, 630, 90, None, 0, None), RouteVisit(Always(2, 60), 1000, 1060, 60, Some(10), 12, None)],
      [], 10, 12)
  }

  lemma {:induction false} GardenFits()
    ensures FitsPair(RebuildDayPlan(GardenPlan(), GardenPlan().allocations), CITY, 540, 1000)
    ensures !IsEvening(Walled(), 1, DEFAULT_SETTINGS.eveningOpenMin) && !IsEvening(Garden(), 1, DEFAULT_SETTINGS.eveningOpenMin)
  {
    assert MinimumDuration(Always(1, 90), DEFAULT_DURATION_RATIO) == 54;
    assert MinimumDuration(Always(2, 60), DEFAULT_DURATION_RATIO) == 36;
    CityTravel();
  }

  lemma {:induction false} GardenVisits()
    ensures
      var visits := PairVisits(RebuildDayPlan(GardenPlan(), GardenPlan().allocations), CITY, 540, 1000);
      visits == GardenRoute().visits && TravelOf(visits[1]) == 10 && visits[1].bufferedTravelMin == 12
  {
    CityTravel();
  }

  lemma {:induction false} GardenSegments()
    ensures SegmentOf(GardenPlan().allocations, 1, DEFAULT_SETTINGS.eveningOpenMin, true) == []
    ensures SegmentOf(GardenPlan().allocations, 1, DEFAULT_SETTINGS.eveningOpenMin, false) == GardenPlan().allocations
  {
    hide IsEvening;
    GardenFits();
    var allocations, open := GardenPlan().allocations, DEFAULT_SETTINGS.eveningOpenMin;
    assert allocations[..1] == [Walled()] && [Walled()][..0] == [];
    assert SegmentOf([Walled()], 1, open, true) == [] && SegmentOf([Walled()], 1, open, false) == [Walled()];
    assert allocations == [Walled()] + [Garden()];
  }

  lemma {:induction false} GardenIsRouted()
    ensures OracleObeys(CITY, GardenOracle())
    ensures EveningSpec(GardenPlan(), CITY, GardenOracle(), 0, DEFAULT_SETTINGS) == Ok(None)
    ensures DaytimeSpec(GardenPlan(), CITY, GardenOracle(), 0, DEFAULT_SETTINGS, None) == Ok(Some(GardenRoute()))
  {
    hide FitsPair, SegmentRouteSpec, ObeysModel, SegmentOf, PairVisits, PairAt, TravelOf, OracleObeys;
    GardenFits();
    GardenOracleObeys();
    GardenSegments();
    GardenVisits();
    PairSegment(GardenPlan(), CITY, 540, 1000);
    OracleObeysAt(CITY, GardenOracle(), 0, RebuildDayPlan(GardenPlan(), []), None);
    NothingToRoute(GardenPlan(), CITY, GardenOracle()(0, RebuildDayPlan(GardenPlan(), []), None));
  }

  lemma {:induction false} GardenOracleObeys()
    ensures OracleObeys(CITY, GardenOracle())
  {
    hide FitsPair, PairAt;
    GardenFits();
    PairObeys(RebuildDayPlan(GardenPlan(), GardenPlan().allocations), CITY, 540, 1000);
  }

  /** The candidates that keep lunch begin the garden at two, the others leave it. */
  lemma {:induction false} GardenCandidates(expand: bool)
    ensures
      var lunch := CandidateSpec(GardenRoute().visits, expand, true, 1260);
      && lunch.Some? && lunch.value[0] == GardenRoute().visits[0]
      && lunch.value[1] == Reschedule(Reschedule(GardenRoute().visits[1], 780, 60), 840, 60)
    ensures CandidateSpec(GardenRoute().visits, expand, false, 1260) == Some(GardenRoute().visits)
  {
    var visits := GardenRoute().visits;
    assert Built(visits, 0, expand, true) == Progress([], false) && Built(visits, 0, expand, false) == Progress([], false);
    assert Built(visits, 1, expand, true) == Progress([visits[0]], false);
    assert Built(visits, 1, expand, false) == Progress([visits[0]], false);
    assert Built(visits, 2, expand, true) == Progress([visits[0], Reschedule(visits[1], 780, 60)], true);
    assert Built(visits, 2, expand, false) == Progress([visits[0], visits[1]], false);
  }

  lemma {:induction false} GardenScores(r: seq<RouteVisit>)
    requires |r| == 2 && r[0] == GardenRoute().visits[0] && r[1].plannedDurationMin == 60
    requires r[1].leaveMin == r[1].arrivalMin + 60 && r[1].bufferedTravelMin == 12 && 840 <= r[1].arrivalMin
    ensures ScoreOf(r, GardenRoute().visits, 1260) == Score(1, 0, -Abs(r[1].arrivalMin - 900), -(r[1].arrivalMin + 60))
  {
    var planned := (v: RouteVisit) => v.plannedDurationMin;
    assert Map(planned, r) == [90, 60] && Map(planned, GardenRoute().visits) == [90, 60];
    assert LunchGap(r[..1]) == 0;
  }

  function EarlyGarden(): RoutedDay {
    GardenRoute().(visits := [
      GardenRoute().visits[0], Reschedule(Reschedule(GardenRoute().visits[1], 780, 60), 840, 60)])
  }

  lemma {:induction false} GardenTimesFit()
    ensures TimesFit(GardenRoute()) && TimesFit(EarlyGarden())
  {
    assert MinimumDuration(Always(1, 90), DEFAULT_DURATION_RATIO) == 54;
    assert MinimumDuration(Always(2, 60), DEFAULT_DURATION_RATIO) == 36;
  }

  /** What is offered with and without lunch, whatever the stays. */
  lemma {:induction false} GardenOffers(expand: bool)
    ensures
      var visits := GardenRoute().visits;
      && Offer(GardenRoute(), 2, 1260, expand, true)
         == [Candidate(ScoreOf(EarlyGarden().visits, visits, 1260), EarlyGarden())]
      && Offer(GardenRoute(), 2, 1260, expand, false) == [Candidate(ScoreOf(visits, visits, 1260), GardenRoute())]
  {
    GardenCandidates(expand);
    GardenTimesFit();
    hide CandidateSpec, ScoreOf, TimesFit, Reschedule;
    var day := GardenRoute();
    assert day.visits[..2] == day.visits && day.visits[2..] == [];
    assert EarlyGarden().visits + [] == EarlyGarden().visits && day.visits + [] == day.visits;
    assert CandidateSpec(day.visits, expand, true, 1260).value == EarlyGarden().visits;
  }

  lemma {:induction false} BestOfTwo(lunch: Candidate, plain: Candidate)
    requires Higher(lunch.score, plain.score)
    ensures Best([lunch, plain, lunch, plain]) == lunch
  {
    var candidates := [lunch, plain, lunch, plain];
    assert Best(candidates) in candidates && candidates[0] in candidates;
  }

  lemma {:induction false} LunchIsBetter()
    ensures Higher(
      ScoreOf(EarlyGarden().visits, GardenRoute().visits, 1260), ScoreOf(GardenRoute().visits, GardenRoute().visits, 1260))
  {
    GardenScores(EarlyGarden().visits);
    GardenScores(GardenRoute().visits);
  }

  /** Refinement takes the later of two visits from twenty to five to two: lunch is put before it. */
  lemma {:induction false} GardenIsRefined()
    ensures Refined(GardenRoute(), 2, 0, 90) == EarlyGarden()
  {
    hide Offers, ScoreOf, EarlyGarden, Higher, Best;
    var day := GardenRoute();
    assert ExpandedEvening(day, 2) == day;
    GardenOffers(true);
    GardenOffers(false);
    LunchIsBetter();
    var lunch := Candidate(ScoreOf(EarlyGarden().visits, day.visits, 1260), EarlyGarden());
    var plain := Candidate(ScoreOf(day.visits, day.visits, 1260), day);
    FourOffers(day, 2, 1260, lunch, plain);
    BestOfTwo(lunch, plain);
  }

  lemma {:induction false} FourOffers(day: RoutedDay, count: nat, deadline: int, lunch: Candidate, plain: Candidate)
    requires 1 <= count <= |day.visits|
    requires forall expand :: Offer(day, count, deadline, expand, true) == [lunch]
    requires forall expand :: Offer(day, count, deadline, expand, false) == [plain]
    ensures Offers(day, count, deadline, 4) == [lunch, plain, lunch, plain]
  {
    hide Offer;
    assert Offers(day, count, deadline, 0) == [];
    assert Offers(day, count, deadline, 1) == [lunch];
    assert Offers(day, count, deadline, 2) == [lunch, plain];
    assert Offers(day, count, deadline, 3) == [lunch, plain, lunch];
  }

  /** A whole day whose daytime route, as it was searched, has a stop that ends up earlier. */
  lemma {:induction false} LunchSetsGardenBack()
    ensures OracleObeys(CITY, GardenOracle())
    ensures
      var day := SegmentSpec(GardenPlan(), CITY, GardenOracle(), 0, DEFAULT_SETTINGS);
      && day.Ok? && day.value.daytimeRoute == Some(GardenRoute())
      && |day.value.routedDay.visits| == 2
      && day.value.routedDay.visits[1].arrivalMin == 840 < GardenRoute().visits[1].arrivalMin
  {
    hide OracleObeys, SegmentRouteSpec, Refined, ValidationSpec, EveningSpec, DaytimeSpec, MealSpec, GardenOracle;
    GardenIsRouted();
    GardenIsRefined();
    RoutedSegmentsFinish(GardenPlan(), CITY, GardenOracle(), 0, DEFAULT_SETTINGS);
    assert GardenRoute().visits + [] == GardenRoute().visits;
    assert [] + [] == GardenRoute().unplaced;
  }
}
