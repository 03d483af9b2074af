/** Which day step 1 gives an attraction, in terms of the days' dates, minutes and energy, and what
    that means for the finished plan: nobody is kept away from a nearer day that could take them. */
module AssignmentChoice {
  import opened Prelude
  import opened Models
  import opened TimeWindows
  import opened Assignment
  import opened AssignmentProofs

  // ---- which dates can take an attraction -----------------------------------------------------------

  /** A minute at which a stay can begin on a day. */
  ghost predicate CanBeginAt(attraction: Attraction, date: Date, bounds: DayTimeBounds, stay: int, t: int) {
    bounds.startMin <= t && t + stay <= bounds.endMin && StayAdmitted(attraction, date, t, stay)
  }

  ghost predicate CanBegin(attraction: Attraction, date: Date, bounds: DayTimeBounds, stay: int) {
    exists t :: CanBeginAt(attraction, date, bounds, stay, t)
  }

  /** C1, C5, C2 with C4, and the minutes left: the day can take a stay of this length. */
  ghost predicate CanTake(attraction: Attraction, date: Date, bounds: DayTimeBounds, used: int, stay: int, weather: Weather) {
    && MayVisitOn(attraction, date, weather)
    && CanBegin(attraction, date, bounds, stay)
    && used + stay <= bounds.endMin - bounds.startMin
  }

  lemma {:induction false} WindowAdmits(attraction: Attraction, date: Date, ratio: real, t: int)
    requires 0.0 < ratio <= 1.0
    ensures
      var r := ResolveEffectiveWindow(attraction, date, ratio);
      (r.Window? && r.window.openMin <= t <= r.window.latestArrivalMin) <==>
        StayAdmitted(attraction, date, t, MinimumDuration(attraction, ratio))
  {
    hide Matches, MinimumDuration, ResolveEffectiveWindow;
    EffectiveWindowIsExact(attraction, date, ratio, t);
  }

  lemma {:induction false} NoTimingReasonIff(attraction: Attraction, load: DayLoad, ratio: real)
    requires 0.0 < ratio <= 1.0
    ensures TimingReasons(attraction, load, MinimumDuration(attraction, ratio), ratio) == [] <==>
      CanBegin(attraction, load.visitDate, load.bounds, MinimumDuration(attraction, ratio))
    ensures ResolveEffectiveWindow(attraction, load.visitDate, ratio).NoWindow? ==>
      !CanBegin(attraction, load.visitDate, load.bounds, MinimumDuration(attraction, ratio))
  {
    hide MinimumDuration, ResolveEffectiveWindow, StayAdmitted;
    var date, stay := load.visitDate, MinimumDuration(attraction, ratio);
    var r := ResolveEffectiveWindow(attraction, date, ratio);
    if r.Window? {
      var earliest := Max(load.bounds.startMin, r.window.openMin);
      WindowAdmits(attraction, date, ratio, earliest);
      if TimingReasons(attraction, load, stay, ratio) == [] {
        assert CanBeginAt(attraction, date, load.bounds, stay, earliest);
      }
    }
    if CanBegin(attraction, date, load.bounds, stay) {
      var t :| CanBeginAt(attraction, date, load.bounds, stay, t);
      WindowAdmits(attraction, date, ratio, t);
    }
  }

  /** A reason is recorded against a date exactly if it holds. */
  ghost predicate ReasonHolds(p: AttractionPreference, date: Date, loads: Loads, trip: Trip, c: RejectionCode) {
    var stay := MinimumDuration(p.attraction, trip.ratio);
    if date !in loads then c == EmptyDayWindow
    else
      var load := loads[date];
      match c
      case ClosedOnDate => !IsOpenOn(p.attraction, date)
      case WeatherDataMissing => date !in trip.weather
      case ExtremeWeatherOutdoor => date in trip.weather && !WeatherPermits(p.attraction, trip.weather[date])
      case NoMatchingTimeRule => ResolveEffectiveWindow(p.attraction, date, trip.ratio) == NoWindow(NoMatchingTimeRule)
      case TimeRuleConflict => ResolveEffectiveWindow(p.attraction, date, trip.ratio) == NoWindow(TimeRuleConflict)
      case ArrivalAfterLatestArrival =>
        ResolveEffectiveWindow(p.attraction, date, trip.ratio).Window? && !CanBegin(p.attraction, date, load.bounds, stay)
      case DayCapacityExceeded =>
        && MayVisitOn(p.attraction, date, trip.weather) && CanBegin(p.attraction, date, load.bounds, stay)
        && load.usedMin + stay > load.bounds.endMin - load.bounds.startMin
      case _ => false
  }

  lemma {:induction false} ReasonsAreExact(p: AttractionPreference, date: Date, loads: Loads, trip: Trip, c: RejectionCode)
    requires 0.0 < trip.ratio <= 1.0 && (date in loads ==> loads[date].visitDate == date)
    ensures c in DateReasons(p, date, loads, trip) <==> ReasonHolds(p, date, loads, trip, c)
  {
    hide MinimumDuration, ResolveEffectiveWindow, CanBegin, IsOpenOn, WeatherPermits;
    if date in loads { NoTimingReasonIff(p.attraction, loads[date], trip.ratio); }
  }

  /** A date has no reason against an attraction exactly if its day can take the minimum stay. */
  lemma {:induction false} NoReasonIff(p: AttractionPreference, date: Date, loads: Loads, trip: Trip)
    requires 0.0 < trip.ratio <= 1.0 && (date in loads ==> loads[date].visitDate == date)
    ensures DateReasons(p, date, loads, trip) == [] <==>
      date in loads
      && CanTake(p.attraction, date, loads[date].bounds, loads[date].usedMin,
                 MinimumDuration(p.attraction, trip.ratio), trip.weather)
  {
    hide MinimumDuration, ResolveEffectiveWindow, CanBegin, IsOpenOn, WeatherPermits;
    if date in loads { NoTimingReasonIff(p.attraction, loads[date], trip.ratio); }
  }

  // ---- which of them is taken ----------------------------------------------------------------------

  /** The first difference decides. */
  predicate Less(a: int, b: int, otherwise: bool) {
    a < b || (a == b && otherwise)
  }

  /** Day `a` is taken before day `b`: in normal and speed mode the nearer one, then the one with
      less energy or minutes; in leisure mode the one with less energy, then the nearer one. */
  predicate TakenBefore(mode: TravelMode, preferred: Date, a: DayLoad, b: DayLoad) {
    var near, far := DaysApart(a.visitDate, preferred), DaysApart(b.visitDate, preferred);
    match mode
    case NormalPace =>
      Less(near, far, Less(a.energyTotal, b.energyTotal, Less(a.usedMin, b.usedMin, a.visitDate < b.visitDate)))
    case Speed =>
      Less(near, far, Less(a.usedMin, b.usedMin, Less(a.energyTotal, b.energyTotal, a.visitDate < b.visitDate)))
    case Leisure =>
      Less(a.energyTotal, b.energyTotal, Less(near, far, Less(a.usedMin, b.usedMin, a.visitDate < b.visitDate)))
  }

  predicate Keeps(loads: Loads) {
    forall d :: d in loads ==> loads[d].visitDate == d
  }

  /** Date `c` has no reason against the attraction and comes before every other such date. */
  ghost predicate FirstChoice(state: AssignState, p: AttractionPreference, trip: Trip, c: Date) {
    && c in trip.dates && c in state.loads && DateReasons(p, c, state.loads, trip) == []
    && forall d :: d in trip.dates && d != c && DateReasons(p, d, state.loads, trip) == [] ==>
         d in state.loads && TakenBefore(trip.mode, p.preferredDate, state.loads[c], state.loads[d])
  }

  lemma {:induction false} KeyDecides(a: DayLoad, b: DayLoad, p: AttractionPreference, trip: Trip)
    requires !KeyLess(CandidateKey(b, p, trip), CandidateKey(a, p, trip)) && a.visitDate != b.visitDate
    ensures TakenBefore(trip.mode, p.preferredDate, a, b)
  {
  }

  /** An attraction goes to the first choice among the dates without a reason, and is unplaced only if
      there is none. */
  lemma {:induction false} FirstChoiceIsTaken(state: AssignState, p: AttractionPreference, trip: Trip) returns (c: Option<Date>)
    requires 0.0 < trip.ratio && Keeps(state.loads)
    ensures c.Some? ==>
      && FirstChoice(state, p, trip, c.value)
      && AssignOne(state, p, trip)
         == state.(loads := state.loads[c.value := WithAllocation(state.loads[c.value], AllocationFor(p, c.value, trip))])
    ensures c.None? ==>
      && (forall d :: d in trip.dates ==> DateReasons(p, d, state.loads, trip) != [])
      && AssignOne(state, p, trip) == state.(unplaced := state.unplaced + [UnplacedFor(p, state.loads, trip)])
  {
    hide DateReasons, CandidateKey, KeyLess, TakenBefore, DateRejections, OverallCode;
    CandidatesHaveLoads(p, trip.dates, state.loads, trip);
    var candidates := CandidateDates(p, trip.dates, state.loads, trip);
    if candidates == [] {
      c := None;
    } else {
      var best := BestDate(candidates, p, state.loads, trip);
      c := Some(best);
      forall d | d in trip.dates && d != best && DateReasons(p, d, state.loads, trip) == []
        ensures d in state.loads && TakenBefore(trip.mode, p.preferredDate, state.loads[best], state.loads[d])
      {
        assert d in candidates;
        KeyDecides(state.loads[best], state.loads[d], p, trip);
      }
    }
  }

  /** In normal and speed mode a preferred date without a reason is the date taken. */
  lemma {:induction false} PreferredDateIsTaken(state: AssignState, p: AttractionPreference, trip: Trip)
    requires 0.0 < trip.ratio && Keeps(state.loads) && trip.mode != Leisure
    requires p.preferredDate in trip.dates && DateReasons(p, p.preferredDate, state.loads, trip) == []
    ensures p.preferredDate in state.loads
    ensures
      AssignOne(state, p, trip) == state.(loads := state.loads[
        p.preferredDate := WithAllocation(state.loads[p.preferredDate], AllocationFor(p, p.preferredDate, trip))])
  {
    hide DateReasons, AssignOne;
    var c := FirstChoiceIsTaken(state, p, trip);
  }

  // ---- the finished plan ------------------------------------------------------------------------------

  /** No day nearer to its preferred date could still take the allocation, unless energy counts
      first. */
  ghost predicate NoNearerDay(a: DayAllocation, date: Date, loads: Loads, trip: Trip) {
    trip.mode != Leisure ==>
      forall e :: e in loads && DaysApart(e, a.preferredDate) < DaysApart(date, a.preferredDate) ==>
        !CanTake(a.attraction, e, loads[e].bounds, loads[e].usedMin, a.requiredDurationMin, trip.weather)
  }

  ghost predicate NoDay(u: UnplacedAttraction, loads: Loads, trip: Trip) {
    forall e :: e in loads ==>
      !CanTake(u.attraction, e, loads[e].bounds, loads[e].usedMin, MinimumDuration(u.attraction, trip.ratio), trip.weather)
  }

  ghost predicate Settled(state: AssignState, trip: Trip) {
    && Keeps(state.loads)
    && (forall d, i :: d in state.loads && 0 <= i < |state.loads[d].allocations| ==>
          NoNearerDay(state.loads[d].allocations[i], d, state.loads, trip))
    && (forall i :: 0 <= i < |state.unplaced| ==> NoDay(state.unplaced[i], state.loads, trip))
  }

  /** Days only fill up. */
  predicate Fuller(before: Loads, after: Loads) {
    && after.Keys == before.Keys
    && forall e :: e in before ==> after[e].bounds == before[e].bounds && after[e].usedMin >= before[e].usedMin
  }

  lemma {:induction false} StaySettled(a: DayAllocation, date: Date, before: Loads, after: Loads, trip: Trip)
    requires NoNearerDay(a, date, before, trip) && Fuller(before, after)
    ensures NoNearerDay(a, date, after, trip)
  {
    hide CanBegin, MayVisitOn;
  }

  lemma {:induction false} StayUnplaced(u: UnplacedAttraction, before: Loads, after: Loads, trip: Trip)
    requires NoDay(u, before, trip) && Fuller(before, after)
    ensures NoDay(u, after, trip)
  {
    hide CanBegin, MayVisitOn, MinimumDuration;
  }

  lemma {:induction false} PlacingFills(loads: Loads, c: Date, a: DayAllocation)
    requires c in loads
    ensures Fuller(loads, loads[c := WithAllocation(loads[c], a)])
  {
  }

  /** The allocation just made has no nearer day. */
  lemma {:induction false} FirstChoiceHasNoNearerDay(state: AssignState, p: AttractionPreference, trip: Trip, c: Date)
    requires 0.0 < trip.ratio <= 1.0 && Keeps(state.loads) && FirstChoice(state, p, trip, c)
    requires forall d :: d in state.loads ==> d in trip.dates
    ensures NoNearerDay(AllocationFor(p, c, trip), c, state.loads, trip)
  {
    hide DateReasons, CanTake, MinimumDuration;
    if trip.mode != Leisure {
      forall e | e in state.loads && DaysApart(e, p.preferredDate) < DaysApart(c, p.preferredDate)
        ensures !CanTake(p.attraction, e, state.loads[e].bounds, state.loads[e].usedMin,
                         MinimumDuration(p.attraction, trip.ratio), trip.weather)
      {
        NoReasonIff(p, e, state.loads, trip);
      }
    }
  }

  lemma {:induction false} PlacingSettles(state: AssignState, p: AttractionPreference, trip: Trip)
    requires 0.0 < trip.ratio <= 1.0 && Settled(state, trip)
    requires forall d :: d in state.loads ==> d in trip.dates
    ensures Settled(AssignOne(state, p, trip), trip)
    ensures AssignOne(state, p, trip).loads.Keys == state.loads.Keys
  {
    hide DateReasons, AssignOne, NoNearerDay, NoDay, FirstChoice, Fuller, DateRejections, OverallCode;
    var c := FirstChoiceIsTaken(state, p, trip);
    var after := AssignOne(state, p, trip);
    if c.Some? {
      assert c.value in state.loads by { FirstChoiceHasLoad(state, p, trip, c.value); }
      var a := AllocationFor(p, c.value, trip);
      FirstChoiceHasNoNearerDay(state, p, trip, c.value);
      PlacingFills(state.loads, c.value, a);
      StaySettled(a, c.value, state.loads, after.loads, trip);
      forall d, i | d in after.loads && 0 <= i < |after.loads[d].allocations|
        ensures NoNearerDay(after.loads[d].allocations[i], d, after.loads, trip)
      {
        if i < |state.loads[d].allocations| {
          StaySettled(state.loads[d].allocations[i], d, state.loads, after.loads, trip);
        }
      }
      forall i | 0 <= i < |after.unplaced|
        ensures NoDay(after.unplaced[i], after.loads, trip)
      {
        StayUnplaced(after.unplaced[i], state.loads, after.loads, trip);
      }
    } else {
      RefusedHasNoDay(state, p, trip);
    }
  }

  lemma {:induction false} FirstChoiceHasLoad(state: AssignState, p: AttractionPreference, trip: Trip, c: Date)
    requires FirstChoice(state, p, trip, c)
    ensures c in state.loads
  {
  }

  lemma {:induction false} RefusedHasNoDay(state: AssignState, p: AttractionPreference, trip: Trip)
    requires 0.0 < trip.ratio <= 1.0 && Keeps(state.loads)
    requires forall d :: d in state.loads ==> d in trip.dates
    requires forall d :: d in trip.dates ==> DateReasons(p, d, state.loads, trip) != []
    ensures NoDay(UnplacedFor(p, state.loads, trip), state.loads, trip)
  {
    hide DateReasons, CanTake, MinimumDuration, DateRejections, OverallCode;
    forall e | e in state.loads
      ensures !CanTake(p.attraction, e, state.loads[e].bounds, state.loads[e].usedMin,
                       MinimumDuration(p.attraction, trip.ratio), trip.weather)
    {
      NoReasonIff(p, e, state.loads, trip);
    }
  }

  lemma {:induction false} RunSettles(initial: Loads, preferences: seq<AttractionPreference>, n: nat, trip: Trip)
    requires n <= |preferences| && 0.0 < trip.ratio <= 1.0 && Keeps(initial)
    requires forall d :: d in initial ==> d in trip.dates && initial[d].allocations == []
    ensures Settled(AssignFirst(initial, preferences, n, trip), trip)
    ensures AssignFirst(initial, preferences, n, trip).loads.Keys == initial.Keys
  {
    hide AssignOne, NoNearerDay, NoDay;
    if n > 0 {
      hide Settled;
      RunSettles(initial, preferences, n - 1, trip);
      PlacingSettles(AssignFirst(initial, preferences, n - 1, trip), preferences[n - 1], trip);
    }
  }

  // ---- the order of placing -----------------------------------------------------------------------------

  /** Demanding attractions first, and among equally demanding ones the smaller id. */
  predicate Demanding(a: Attraction, b: Attraction) {
    a.energyLevel > b.energyLevel || (a.energyLevel == b.energyLevel && a.id < b.id)
  }

  predicate DemandingFirst(attractions: seq<Attraction>) {
    forall i, j :: 0 <= i < j < |attractions| ==> Demanding(attractions[i], attractions[j])
  }

  lemma {:induction false} ByEnergyIsPreorder()
    ensures TotalPreorder(ByEnergy())
  {
  }

  lemma {:induction false} PlacedDemandingFirst(preferences: seq<AttractionPreference>)
    requires NoDuplicates(Map((a: Attraction) => a.id, PreferenceAttractions(preferences)))
    ensures DemandingFirst(PreferenceAttractions(Sort(preferences, ByEnergy())))
  {
    hide Sort, TotalPreorder;
    var ordered, id := Sort(preferences, ByEnergy()), (a: Attraction) => a.id;
    ByEnergyIsPreorder();
    PreferencesPermute(preferences, ordered);
    MapMultiset(id, PreferenceAttractions(preferences), PreferenceAttractions(ordered));
    var ids := Map(id, PreferenceAttractions(ordered));
    NoDuplicatesMultiset(Map(id, PreferenceAttractions(preferences)), ids);
    assert SortedBy(ordered, ByEnergy());
    forall i, j | 0 <= i < j < |ordered|
      ensures Demanding(ordered[i].attraction, ordered[j].attraction)
    {
      assert ids[i] != ids[j] && ByEnergy()(ordered[i], ordered[j]);
    }
  }

  /** The attractions of a list come in the order they were placed, from the first `n`. */
  ghost predicate InPlacingOrder(attractions: seq<Attraction>, placed: seq<Attraction>, n: nat)
    requires n <= |placed|
  {
    DemandingFirst(attractions) && forall i :: 0 <= i < |attractions| ==> attractions[i] in placed[..n]
  }

  lemma {:induction false} NextInOrder(attractions: seq<Attraction>, placed: seq<Attraction>, n: nat)
    requires n < |placed| && DemandingFirst(placed) && InPlacingOrder(attractions, placed, n)
    ensures InPlacingOrder(attractions, placed, n + 1)
    ensures InPlacingOrder(attractions + [placed[n]], placed, n + 1)
  {
    forall i | 0 <= i < |attractions|
      ensures attractions[i] in placed[..n + 1] && Demanding(attractions[i], placed[n])
    {
      var k :| 0 <= k < n && placed[..n][k] == attractions[i];
      assert placed[..n + 1][k] == attractions[i];
    }
    assert placed[..n + 1][n] == placed[n];
  }

  ghost predicate AllInOrder(state: AssignState, placed: seq<Attraction>, n: nat)
    requires n <= |placed|
  {
    && (forall d :: d in state.loads ==> InPlacingOrder(AllocationAttractions(state.loads[d].allocations), placed, n))
    && InPlacingOrder(UnplacedAttractionsOf(state.unplaced), placed, n)
  }

  lemma {:induction false} PlacingKeepsOrder(
    state: AssignState, preferences: seq<AttractionPreference>, n: nat, trip: Trip)
    requires n < |preferences| && 0.0 < trip.ratio && Keeps(state.loads)
    requires DemandingFirst(PreferenceAttractions(preferences))
    requires AllInOrder(state, PreferenceAttractions(preferences), n)
    ensures Keeps(AssignOne(state, preferences[n], trip).loads)
    ensures AllInOrder(AssignOne(state, preferences[n], trip), PreferenceAttractions(preferences), n + 1)
  {
    hide DateReasons, AssignOne, FirstChoice, InPlacingOrder, DemandingFirst, DateRejections, OverallCode;
    var p, placed := preferences[n], PreferenceAttractions(preferences);
    var c := FirstChoiceIsTaken(state, p, trip);
    var after := AssignOne(state, p, trip);
    NextInOrder(UnplacedAttractionsOf(state.unplaced), placed, n);
    if c.Some? {
      FirstChoiceHasLoad(state, p, trip, c.value);
      forall d | d in after.loads
        ensures InPlacingOrder(AllocationAttractions(after.loads[d].allocations), placed, n + 1)
      {
        NextInOrder(AllocationAttractions(state.loads[d].allocations), placed, n);
        if d == c.value {
          MapConcat(AllocationAttraction, state.loads[d].allocations, [AllocationFor(p, d, trip)]);
          assert AllocationAttractions([AllocationFor(p, d, trip)]) == [p.attraction];
        }
      }
    } else {
      forall d | d in after.loads
        ensures InPlacingOrder(AllocationAttractions(after.loads[d].allocations), placed, n + 1)
      {
        NextInOrder(AllocationAttractions(state.loads[d].allocations), placed, n);
      }
      var u := UnplacedFor(p, state.loads, trip);
      assert UnplacedAttractionsOf(state.unplaced + [u]) == UnplacedAttractionsOf(state.unplaced) + [p.attraction];
    }
  }

  lemma {:induction false} RunKeepsOrder(initial: Loads, preferences: seq<AttractionPreference>, n: nat, trip: Trip)
    requires n <= |preferences| && 0.0 < trip.ratio && Keeps(initial)
    requires forall d :: d in initial ==> initial[d].allocations == []
    requires DemandingFirst(PreferenceAttractions(preferences))
    ensures |PreferenceAttractions(preferences)| == |preferences|
    ensures Keeps(AssignFirst(initial, preferences, n, trip).loads)
    ensures AllInOrder(AssignFirst(initial, preferences, n, trip), PreferenceAttractions(preferences), n)
  {
    hide AssignOne, DemandingFirst;
    if n > 0 {
      hide AllInOrder;
      RunKeepsOrder(initial, preferences, n - 1, trip);
      PlacingKeepsOrder(AssignFirst(initial, preferences, n - 1, trip), preferences, n - 1, trip);
    } else {
      NothingInOrder(PreferenceAttractions(preferences));
    }
  }

  lemma {:induction false} NothingInOrder(placed: seq<Attraction>)
    ensures InPlacingOrder([], placed, 0)
  {
  }

  // ---- what is recorded ---------------------------------------------------------------------------------

  /** The gate lets exactly the active, verified and unconflicted attractions through, and names the
      first of these that fails. */
  lemma {:induction false} GateIsExact(preferences: seq<AttractionPreference>, p: AttractionPreference, code: RejectionCode)
    ensures p in EligibleOf(preferences) <==>
      p in preferences && p.attraction.active && p.attraction.dataVerified && !p.attraction.conflict
    ensures RejectedAttraction(p.attraction, code) in RejectedOf(preferences) <==>
      && (exists i :: 0 <= i < |preferences| && preferences[i].attraction == p.attraction)
      && (|| (code == Inactive && !p.attraction.active)
          || (code == DataUnverified && p.attraction.active && !p.attraction.dataVerified)
          || (code == DataConflict && p.attraction.active && p.attraction.dataVerified && p.attraction.conflict))
  {
    if preferences != [] {
      var rest := preferences[1..];
      assert preferences == [preferences[0]] + rest;
      GateIsExact(rest, p, code);
      assert forall i :: 1 <= i < |preferences| ==> preferences[i] == rest[i - 1];
      if i :| 0 <= i < |rest| && rest[i].attraction == p.attraction {
        assert preferences[i + 1].attraction == p.attraction;
      }
    }
  }

  lemma {:induction false} RejectionsAreReasons(p: AttractionPreference, dates: seq<Date>, loads: Loads, trip: Trip)
    requires CandidateDates(p, dates, loads, trip) == []
    ensures
      var r := DateRejections(p, dates, loads, trip);
      |r| == |dates| && forall i :: 0 <= i < |dates| ==> r[i] == DateRejection(dates[i], DateReasons(p, dates[i], loads, trip))
    ensures UnavailableDays(dates, loads) <= |dates|
    ensures UnavailableDays(dates, loads) == |dates| <==> forall d :: d in dates ==> d !in loads
  {
    hide DateReasons;
    if dates != [] {
      RejectionsAreReasons(p, dates[..|dates| - 1], loads, trip);
      assert dates == dates[..|dates| - 1] + [dates[|dates| - 1]];
    }
  }

  ghost predicate EverywhereFor(p: AttractionPreference, loads: Loads, trip: Trip, c: RejectionCode) {
    forall d :: d in trip.dates ==> ReasonHolds(p, d, loads, trip, c)
  }

  /** The code of an unplaced attraction: no day had the minutes left; or extreme weather kept it off
      every day; or the trip has no usable day at all; or none of these. */
  lemma {:induction false} UnplacedCodeIsExact(p: AttractionPreference, loads: Loads, trip: Trip)
    requires 0.0 < trip.ratio <= 1.0 && Keeps(loads) && trip.dates != []
    requires CandidateDates(p, trip.dates, loads, trip) == []
    ensures UnplacedFor(p, loads, trip).rejectionCode ==
      if EverywhereFor(p, loads, trip, DayCapacityExceeded) then DayCapacityExceeded
      else if EverywhereFor(p, loads, trip, ExtremeWeatherOutdoor) then NoWeatherSafeDate
      else if EverywhereFor(p, loads, trip, EmptyDayWindow) then EmptyDayWindow
      else NoAvailableDate
  {
    hide DateReasons, ReasonHolds, DateRejections, UnavailableDays;
    RejectionsAreReasons(p, trip.dates, loads, trip);
    var r := DateRejections(p, trip.dates, loads, trip);
    EverywhereIsAllHave(p, loads, trip, r, DayCapacityExceeded);
    EverywhereIsAllHave(p, loads, trip, r, ExtremeWeatherOutdoor);
    forall d | d in trip.dates
      ensures ReasonHolds(p, d, loads, trip, EmptyDayWindow) <==> d !in loads
    {
      EmptyDayIff(p, d, loads, trip);
    }
  }

  lemma {:induction false} EmptyDayIff(p: AttractionPreference, d: Date, loads: Loads, trip: Trip)
    ensures ReasonHolds(p, d, loads, trip, EmptyDayWindow) <==> d !in loads
  {
  }

  lemma {:induction false} EverywhereIsAllHave(
    p: AttractionPreference, loads: Loads, trip: Trip, r: seq<DateRejection>, c: RejectionCode)
    requires 0.0 < trip.ratio <= 1.0 && Keeps(loads) && trip.dates != [] && |r| == |trip.dates|
    requires forall i :: 0 <= i < |r| ==> r[i] == DateRejection(trip.dates[i], DateReasons(p, trip.dates[i], loads, trip))
    ensures AllHave(r, c) <==> EverywhereFor(p, loads, trip, c)
  {
    hide DateReasons, ReasonHolds;
    forall i | 0 <= i < |r|
      ensures c in r[i].reasons <==> ReasonHolds(p, trip.dates[i], loads, trip, c)
    {
      ReasonsAreExact(p, trip.dates[i], loads, trip, c);
    }
    if AllHave(r, c) {
      forall d | d in trip.dates
        ensures ReasonHolds(p, d, loads, trip, c)
      {
        var i :| 0 <= i < |trip.dates| && trip.dates[i] == d;
        assert c in r[i].reasons;
      }
    }
  }

  /** The allocation carries the wishes of a preference and the minimum stay. */
  predicate AllocationWished(a: DayAllocation, preferences: seq<AttractionPreference>, ratio: real) {
    && AttractionPreference(a.attraction, a.preferredDate, a.visitPeriod) in preferences
    && a.requiredDurationMin == MinimumDuration(a.attraction, ratio)
  }

  ghost predicate UnplacedWished(u: UnplacedAttraction, preferences: seq<AttractionPreference>) {
    exists period :: AttractionPreference(u.attraction, u.preferredDate, period) in preferences
  }

  /** Everything placed or refused so far carries the wishes it was made for. */
  ghost predicate CarriesWishes(state: AssignState, preferences: seq<AttractionPreference>, trip: Trip) {
    && (forall d, i :: d in state.loads && 0 <= i < |state.loads[d].allocations| ==>
          AllocationWished(state.loads[d].allocations[i], preferences, trip.ratio))
    && (forall i :: 0 <= i < |state.unplaced| ==> UnplacedWished(state.unplaced[i], preferences))
  }

  lemma {:induction false} MadeAsWished(p: AttractionPreference, c: Date, loads: Loads, preferences: seq<AttractionPreference>, trip: Trip)
    requires 0.0 < trip.ratio && p in preferences
    ensures AllocationWished(AllocationFor(p, c, trip), preferences, trip.ratio)
    ensures UnplacedWished(UnplacedFor(p, loads, trip), preferences)
  {
    hide DateRejections, OverallCode, MinimumDuration;
    assert p == AttractionPreference(p.attraction, p.preferredDate, p.visitPeriod);
  }

  lemma {:induction false} PlacingCarriesWishes(
    state: AssignState, p: AttractionPreference, preferences: seq<AttractionPreference>, trip: Trip)
    requires 0.0 < trip.ratio && Keeps(state.loads) && p in preferences && CarriesWishes(state, preferences, trip)
    ensures CarriesWishes(AssignOne(state, p, trip), preferences, trip)
  {
    hide DateReasons, AssignOne, FirstChoice, UnplacedFor, AllocationFor, AllocationWished, UnplacedWished;
    var c := FirstChoiceIsTaken(state, p, trip);
    MadeAsWished(p, if c.Some? then c.value else 0, state.loads, preferences, trip);
    if c.Some? { FirstChoiceHasLoad(state, p, trip, c.value); }
  }

  lemma {:induction false} RunCarriesWishes(initial: Loads, preferences: seq<AttractionPreference>, n: nat, trip: Trip)
    requires n <= |preferences| && 0.0 < trip.ratio && Keeps(initial)
    requires forall d :: d in initial ==> initial[d].allocations == []
    ensures CarriesWishes(AssignFirst(initial, preferences, n, trip), preferences, trip)
  {
    hide AssignOne;
    if n > 0 {
      hide CarriesWishes;
      RunCarriesWishes(initial, preferences, n - 1, trip);
      BoundsNeverChange(initial, preferences, n - 1, trip);
      PlacingCarriesWishes(AssignFirst(initial, preferences, n - 1, trip), preferences[n - 1], preferences, trip);
    }
  }

  lemma {:induction false} SameWishes(state: AssignState, a: seq<AttractionPreference>, b: seq<AttractionPreference>, trip: Trip)
    requires CarriesWishes(state, a, trip) && forall p :: p in a ==> p in b
    ensures CarriesWishes(state, b, trip)
  {
    hide MinimumDuration;
    forall i | 0 <= i < |state.unplaced|
      ensures UnplacedWished(state.unplaced[i], b)
    {
      assert UnplacedWished(state.unplaced[i], a);
    }
  }

  // ---- step 1 -------------------------------------------------------------------------------------------

  /** The days a trip can use: each within the bounds its place in the trip gives it. */
  lemma {:induction false} OpenDaysAreExact(dates: seq<Date>, n: nat, anchors: TripTimeAnchors)
    requires n <= |dates| && StrictlyIncreasing(dates)
    ensures forall d :: d in InitialLoads(dates, n, anchors) ==> d in dates[..n]
    ensures forall i :: 0 <= i < n ==>
      var resolution := ResolveDayTimeBounds(i + 1, |dates|, anchors);
      && (dates[i] in InitialLoads(dates, n, anchors) <==> resolution.Bounds?)
      && (resolution.Bounds? ==>
            InitialLoads(dates, n, anchors)[dates[i]] == DayLoad(dates[i], resolution.bounds, [], 0, 0))
  {
    hide ResolveDayTimeBounds;
    if n > 0 {
      OpenDaysAreExact(dates, n - 1, anchors);
      assert dates[..n] == dates[..n - 1] + [dates[n - 1]];
      forall i | 0 <= i < n - 1
        ensures dates[i] != dates[n - 1]
      {
      }
      assert dates[n - 1] !in dates[..n - 1];
    }
  }

  lemma {:induction false} BoundsNeverChange(initial: Loads, preferences: seq<AttractionPreference>, n: nat, trip: Trip)
    requires n <= |preferences| && 0.0 < trip.ratio && Keeps(initial)
    ensures Keeps(AssignFirst(initial, preferences, n, trip).loads)
    ensures Fuller(initial, AssignFirst(initial, preferences, n, trip).loads)
  {
    hide AssignOne, DateReasons, FirstChoice, DateRejections, OverallCode;
    if n > 0 {
      BoundsNeverChange(initial, preferences, n - 1, trip);
      var state := AssignFirst(initial, preferences, n - 1, trip);
      var c := FirstChoiceIsTaken(state, preferences[n - 1], trip);
      if c.Some? {
        FirstChoiceHasLoad(state, preferences[n - 1], trip, c.value);
        assert AllocationFor(preferences[n - 1], c.value, trip).requiredDurationMin > 0;
      }
    }
  }

  lemma {:induction false} BuiltDaysFind(dates: seq<Date>, loads: Loads)
    requires StrictlyIncreasing(dates) && Keeps(loads)
    ensures forall d :: d in dates && d in loads ==> DayPlanOf(loads[d]) in BuildDays(dates, loads)
  {
    if dates != [] {
      var front, last := dates[..|dates| - 1], dates[|dates| - 1];
      assert dates == front + [last];
      BuiltDaysFind(front, loads);
    }
  }

  predicate PlannedOn(plan: Step1Plan, d: Date) {
    exists k :: 0 <= k < |plan.days| && plan.days[k].visitDate == d
  }

  /** The day is one of the trip, within the bounds its place in the trip gives it. */
  predicate OnTrip(day: DayPlan, trip: Trip, anchors: TripTimeAnchors) {
    exists i :: 0 <= i < |trip.dates| && day.visitDate == trip.dates[i]
      && ResolveDayTimeBounds(i + 1, |trip.dates|, anchors) == Bounds(day.bounds)
  }

  /** Every trip date whose bounds admit anything is a day of the plan, and there are no others. */
  ghost predicate TripDays(plan: Step1Plan, trip: Trip, anchors: TripTimeAnchors) {
    && (forall i :: 0 <= i < |trip.dates| ==>
          (PlannedOn(plan, trip.dates[i]) <==> ResolveDayTimeBounds(i + 1, |trip.dates|, anchors).Bounds?))
    && (forall k :: 0 <= k < |plan.days| ==> OnTrip(plan.days[k], trip, anchors))
  }

  /** If the other day is nearer to the preferred date, it cannot take the allocation. */
  ghost predicate StaysAway(a: DayAllocation, own: DayPlan, other: DayPlan, trip: Trip) {
    DaysApart(other.visitDate, a.preferredDate) < DaysApart(own.visitDate, a.preferredDate) ==>
      !CanTake(a.attraction, other.visitDate, other.bounds, other.usedDurationMin, a.requiredDurationMin, trip.weather)
  }

  /** No day of the plan can still take the attraction. */
  ghost predicate Homeless(u: UnplacedAttraction, plan: Step1Plan, trip: Trip) {
    forall e :: 0 <= e < |plan.days| ==>
      !CanTake(u.attraction, plan.days[e].visitDate, plan.days[e].bounds, plan.days[e].usedDurationMin,
               MinimumDuration(u.attraction, trip.ratio), trip.weather)
  }

  /** In normal and speed mode no allocation has a nearer day that could still take it, and in any
      mode no day could still take an unplaced attraction. */
  ghost predicate NobodyKeptAway(plan: Step1Plan, trip: Trip) {
    && (trip.mode != Leisure ==>
          forall k, j, e :: 0 <= k < |plan.days| && 0 <= j < |plan.days[k].allocations| && 0 <= e < |plan.days| ==>
            StaysAway(plan.days[k].allocations[j], plan.days[k], plan.days[e], trip))
    && (forall u :: 0 <= u < |plan.unplaced| ==> Homeless(plan.unplaced[u], plan, trip))
  }

  /** Every day, and the list of the unplaced, is in placing order. */
  predicate ListedDemandingFirst(plan: Step1Plan) {
    && (forall k :: 0 <= k < |plan.days| ==> DemandingFirst(AllocationAttractions(plan.days[k].allocations)))
    && DemandingFirst(UnplacedAttractionsOf(plan.unplaced))
  }

  /** What a day's load looks like in the end, by its place in the trip. */
  lemma {:induction false} LoadOnTrip(loads: Loads, initial: Loads, dates: seq<Date>, anchors: TripTimeAnchors, i: nat)
    requires StrictlyIncreasing(dates) && i < |dates| && initial == InitialLoads(dates, |dates|, anchors)
    requires Fuller(initial, loads)
    ensures
      var resolution := ResolveDayTimeBounds(i + 1, |dates|, anchors);
      && (dates[i] in loads <==> resolution.Bounds?)
      && (resolution.Bounds? ==> loads[dates[i]].bounds == resolution.bounds)
  {
    hide InitialLoads, ResolveDayTimeBounds;
    OpenDaysAreExact(dates, |dates|, anchors);
  }

  lemma {:induction false} BuiltOnTrip(plan: Step1Plan, loads: Loads, initial: Loads, trip: Trip, anchors: TripTimeAnchors)
    requires StrictlyIncreasing(trip.dates) && initial == InitialLoads(trip.dates, |trip.dates|, anchors)
    requires Fuller(initial, loads) && Keeps(loads) && plan.days == BuildDays(trip.dates, loads)
    ensures TripDays(plan, trip, anchors)
  {
    hide InitialLoads, ResolveDayTimeBounds, BuildDays, Fuller, StrictlyIncreasing;
    var dates := trip.dates;
    BuiltDays(dates, loads);
    BuiltDaysFind(dates, loads);
    forall i | 0 <= i < |dates|
      ensures PlannedOn(plan, dates[i]) <==> ResolveDayTimeBounds(i + 1, |dates|, anchors).Bounds?
    {
      LoadOnTrip(loads, initial, dates, anchors, i);
      assert dates[i] in dates;
      if dates[i] in loads {
        var k :| 0 <= k < |plan.days| && plan.days[k] == DayPlanOf(loads[dates[i]]);
        assert plan.days[k].visitDate == dates[i];
      }
    }
    forall k | 0 <= k < |plan.days|
      ensures OnTrip(plan.days[k], trip, anchors)
    {
      var i :| 0 <= i < |dates| && dates[i] == plan.days[k].visitDate;
      LoadOnTrip(loads, initial, dates, anchors, i);
      assert ResolveDayTimeBounds(i + 1, |dates|, anchors) == Bounds(plan.days[k].bounds);
    }
  }

  lemma {:induction false} BuiltIsSettled(plan: Step1Plan, state: AssignState, trip: Trip)
    requires StrictlyIncreasing(trip.dates) && Settled(state, trip)
    requires plan.days == BuildDays(trip.dates, state.loads) && plan.unplaced == state.unplaced
    ensures NobodyKeptAway(plan, trip)
  {
    hide CanTake, BuildDays, MinimumDuration;
    BuiltDays(trip.dates, state.loads);
    if trip.mode != Leisure {
      forall k, j, e | 0 <= k < |plan.days| && 0 <= j < |plan.days[k].allocations| && 0 <= e < |plan.days|
        ensures StaysAway(plan.days[k].allocations[j], plan.days[k], plan.days[e], trip)
      {
        var d := plan.days[k].visitDate;
        assert NoNearerDay(state.loads[d].allocations[j], d, state.loads, trip);
      }
    }
    forall u | 0 <= u < |plan.unplaced|
      ensures Homeless(plan.unplaced[u], plan, trip)
    {
      assert NoDay(state.unplaced[u], state.loads, trip);
    }
  }

  lemma {:induction false} BuiltIsListed(plan: Step1Plan, state: AssignState, trip: Trip, placed: seq<Attraction>)
    requires StrictlyIncreasing(trip.dates) && Keeps(state.loads) && AllInOrder(state, placed, |placed|)
    requires plan.days == BuildDays(trip.dates, state.loads) && plan.unplaced == state.unplaced
    ensures ListedDemandingFirst(plan)
  {
    hide BuildDays, DemandingFirst;
    BuiltDays(trip.dates, state.loads);
  }

  /** Step 1 uses exactly the days the trip has room on, within their bounds; it places demanding
      attractions first; in normal and speed mode it keeps no attraction from a nearer day of the
      finished plan that could take it; and it leaves nobody out whom some day of the finished plan
      could take. */
  lemma {:induction false} Step1ChoosesWell(
    preferences: seq<AttractionPreference>, tripDates: seq<Date>, weather: Weather, anchors: TripTimeAnchors,
    mode: TravelMode, ratio: Option<real>)
    requires AssignSpec(preferences, tripDates, weather, anchors, mode, ratio).Ok?
    ensures
      var plan := AssignSpec(preferences, tripDates, weather, anchors, mode, ratio).value;
      var trip := TripOf(tripDates, weather, mode, ratio);
      TripDays(plan, trip, anchors) && ListedDemandingFirst(plan) && NobodyKeptAway(plan, trip)
  {
    hide AssignOne, EligibleOf, RejectedOf, InitialLoads, BuildDays, SortedSet, Sort, Settled, Fuller, TripDays,
         NobodyKeptAway, ListedDemandingFirst, DemandingFirst, PreferenceAttractions, AllInOrder, LoadsSound;
    var trip := TripOf(tripDates, weather, mode, ratio);
    var initial := InitialLoads(trip.dates, |trip.dates|, anchors);
    var ordered := OrderedEligible(preferences);
    OpenDaysAreExact(trip.dates, |trip.dates|, anchors);
    InitialLoadsSound(trip.dates, |trip.dates|, anchors, trip);
    assert trip.dates[..|trip.dates|] == trip.dates;
    assert Keeps(initial) by { SoundLoadsKeep(initial, trip); }
    RunSettles(initial, ordered, |ordered|, trip);
    BoundsNeverChange(initial, ordered, |ordered|, trip);
    EligibleAreDistinct(preferences, trip.dates);
    PlacedDemandingFirst(EligibleOf(preferences));
    RunKeepsOrder(initial, ordered, |ordered|, trip);
    var final := AssignFirst(initial, ordered, |ordered|, trip);
    var plan := AssignSpec(preferences, tripDates, weather, anchors, mode, ratio).value;
    BuiltOnTrip(plan, final.loads, initial, trip, anchors);
    BuiltIsSettled(plan, final, trip);
    BuiltIsListed(plan, final, trip, PreferenceAttractions(ordered));
  }

  lemma {:induction false} SoundLoadsKeep(loads: Loads, trip: Trip)
    requires LoadsSound(loads, trip)
    ensures Keeps(loads)
  {
  }

  predicate DistinctPreferences(preferences: seq<AttractionPreference>) {
    forall i, j :: 0 <= i < j < |preferences| ==> preferences[i].attraction.id != preferences[j].attraction.id
  }

  lemma {:induction false} EligibleAreDistinct(preferences: seq<AttractionPreference>, dates: seq<Date>)
    requires FirstPreferenceError(preferences, |preferences|, dates).None?
    ensures NoDuplicates(Map((a: Attraction) => a.id, PreferenceAttractions(EligibleOf(preferences))))
  {
    NoErrorMeansDistinct(preferences, |preferences|, dates);
    EligibleKeepDistinct(preferences);
  }

  lemma {:induction false} EligibleKeepDistinct(preferences: seq<AttractionPreference>)
    requires DistinctPreferences(preferences)
    ensures DistinctPreferences(EligibleOf(preferences))
    ensures forall p :: p in EligibleOf(preferences) ==> p in preferences
  {
    if preferences != [] {
      hide GateCode;
      var rest := preferences[1..];
      EligibleKeepDistinct(rest);
      assert preferences == [preferences[0]] + rest;
      var kept := EligibleOf(rest);
      forall i | 0 <= i < |kept|
        ensures kept[i].attraction.id != preferences[0].attraction.id
      {
        assert kept[i] in rest;
      }
    }
  }

  /** Three fifths of the suggested stay, or seven tenths at leisure, unless a ratio is given. */
  function ShareOfStay(mode: TravelMode, ratio: Option<real>): real {
    match (mode, ratio)
    case (_, Some(r)) => r
    case (Leisure, None) => 0.7
    case _ => 0.6
  }

  /** Every allocation carries the wishes of a preference, its date and the least whole minutes of its
      share of the suggested stay; every unplaced attraction carries the wishes of a preference too. */
  ghost predicate PlannedAsWished(plan: Step1Plan, preferences: seq<AttractionPreference>, share: real) {
    && (forall k, j :: 0 <= k < |plan.days| && 0 <= j < |plan.days[k].allocations| ==>
          && AllocationWished(plan.days[k].allocations[j], preferences, share)
          && plan.days[k].allocations[j].assignedDate == plan.days[k].visitDate)
    && (forall u :: 0 <= u < |plan.unplaced| ==> UnplacedWished(plan.unplaced[u], preferences))
  }

  lemma {:induction false} BuiltAsWished(plan: Step1Plan, state: AssignState, preferences: seq<AttractionPreference>, trip: Trip)
    requires StrictlyIncreasing(trip.dates) && LoadsSound(state.loads, trip) && CarriesWishes(state, preferences, trip)
    requires plan.days == BuildDays(trip.dates, state.loads) && plan.unplaced == state.unplaced
    ensures PlannedAsWished(plan, preferences, trip.ratio)
  {
    hide LoadSound, AllocationWished, UnplacedWished, BuildDays;
    BuiltDays(trip.dates, state.loads);
    forall k, j | 0 <= k < |plan.days| && 0 <= j < |plan.days[k].allocations|
      ensures AllocationWished(plan.days[k].allocations[j], preferences, trip.ratio)
      ensures plan.days[k].allocations[j].assignedDate == plan.days[k].visitDate
    {
      AllocationsAreDated(state.loads, plan.days[k].visitDate, trip, j);
    }
  }

  /** Step 1 plans its eligible preferences as they were wished for. */
  lemma {:induction false} Step1CarriesWishes(
    preferences: seq<AttractionPreference>, tripDates: seq<Date>, weather: Weather, anchors: TripTimeAnchors,
    mode: TravelMode, ratio: Option<real>)
    requires AssignSpec(preferences, tripDates, weather, anchors, mode, ratio).Ok?
    ensures
      PlannedAsWished(
        AssignSpec(preferences, tripDates, weather, anchors, mode, ratio).value, EligibleOf(preferences),
        ShareOfStay(mode, ratio))
  {
    hide AssignOne, EligibleOf, RejectedOf, InitialLoads, SortedSet, Sort, LoadsSound, CarriesWishes, PlannedAsWished,
         BuildDays, AssignFirst, RunSound;
    var trip := TripOf(tripDates, weather, mode, ratio);
    var initial := InitialLoads(trip.dates, |trip.dates|, anchors);
    var ordered := OrderedEligible(preferences);
    InitialLoadsSound(trip.dates, |trip.dates|, anchors, trip);
    assert Keeps(initial) by { SoundLoadsKeep(initial, trip); }
    RunCarriesWishes(initial, ordered, |ordered|, trip);
    AssignmentInvariant(initial, ordered, |ordered|, trip);
    MultisetMembers(EligibleOf(preferences), ordered);
    var final := AssignFirst(initial, ordered, |ordered|, trip);
    SameWishes(final, ordered, EligibleOf(preferences), trip);
    RunIsSound(final, trip);
    BuiltAsWished(
      AssignSpec(preferences, tripDates, weather, anchors, mode, ratio).value, final, EligibleOf(preferences), trip);
  }

  lemma {:induction false} RunIsSound(state: AssignState, trip: Trip)
    requires RunSound(state, trip)
    ensures LoadsSound(state.loads, trip)
  {
    hide LoadsSound;
  }

  lemma {:induction false} AllocationsAreDated(loads: Loads, d: Date, trip: Trip, j: nat)
    requires LoadsSound(loads, trip) && d in loads && j < |loads[d].allocations|
    ensures loads[d].allocations[j].assignedDate == d
  {
    hide MayVisitOn, ResolveEffectiveWindow, MinimumDuration;
    assert AllocationSound(loads[d].allocations[j], loads[d].visitDate, loads[d].bounds, trip);
  }

  // ---- what step 1 objects to -----------------------------------------------------------------------------

  /** The preference repeats an id, or wishes for a date outside the trip. */
  predicate Objectionable(preferences: seq<AttractionPreference>, dates: seq<Date>, i: nat)
    requires i < |preferences|
  {
    RepeatsId(preferences, i) || preferences[i].preferredDate !in dates
  }

  predicate RepeatsId(preferences: seq<AttractionPreference>, i: nat)
    requires i < |preferences|
  {
    exists k :: 0 <= k < i && preferences[k].attraction.id == preferences[i].attraction.id
  }

  predicate FirstObjection(preferences: seq<AttractionPreference>, dates: seq<Date>, i: nat) {
    && i < |preferences| && Objectionable(preferences, dates, i)
    && forall k :: 0 <= k < i ==> !Objectionable(preferences, dates, k)
  }

  lemma {:induction false} PreferenceErrorIsFirst(preferences: seq<AttractionPreference>, n: nat, dates: seq<Date>)
    requires n <= |preferences|
    ensures
      match FirstPreferenceError(preferences, n, dates)
      case None => forall k :: 0 <= k < n ==> !Objectionable(preferences, dates, k)
      case Some(error) =>
        exists i: nat ::
          && i < n && FirstObjection(preferences, dates, i)
          && error == if RepeatsId(preferences, i) then DuplicateAttraction else PreferredDateOutsideTrip
  {
    if n > 0 {
      PreferenceErrorIsFirst(preferences, n - 1, dates);
      if FirstPreferenceError(preferences, n - 1, dates).None? && Objectionable(preferences, dates, n - 1) {
        assert FirstObjection(preferences, dates, n - 1);
      }
    }
  }

  predicate WeatherOfTrip(weather: Weather, tripDates: seq<Date>) {
    forall d :: d in weather ==> d in tripDates
  }

  /** Step 1 raises for a trip without dates, then for weather of another date, then for the first
      preference that repeats an id or wishes for a date outside the trip, then for a ratio outside of
      (0, 1].  It raises for nothing else. */
  lemma {:induction false} Step1ErrorsAreExact(
    preferences: seq<AttractionPreference>, tripDates: seq<Date>, weather: Weather, anchors: TripTimeAnchors,
    mode: TravelMode, ratio: Option<real>)
    ensures
      var dates, share := SortedSet(tripDates), ShareOfStay(mode, ratio);
      match AssignSpec(preferences, tripDates, weather, anchors, mode, ratio)
      case Raised(EmptyTrip) => tripDates == []
      case Raised(WeatherOutsideTrip) => tripDates != [] && !WeatherOfTrip(weather, tripDates)
      case Raised(DuplicateAttraction) =>
        && tripDates != [] && WeatherOfTrip(weather, tripDates)
        && exists i: nat :: FirstObjection(preferences, dates, i) && RepeatsId(preferences, i)
      case Raised(PreferredDateOutsideTrip) =>
        && tripDates != [] && WeatherOfTrip(weather, tripDates)
        && exists i: nat :: FirstObjection(preferences, dates, i) && !RepeatsId(preferences, i)
      case Raised(DurationRatioOutOfRange) =>
        && tripDates != [] && WeatherOfTrip(weather, tripDates)
        && (forall k :: 0 <= k < |preferences| ==> !Objectionable(preferences, dates, k)) && !(0.0 < share <= 1.0)
      case Raised(_) => false
      case Ok(_) =>
        && tripDates != [] && WeatherOfTrip(weather, tripDates)
        && (forall k :: 0 <= k < |preferences| ==> !Objectionable(preferences, dates, k)) && 0.0 < share <= 1.0
  {
    hide SortedSet, InitialLoads, AssignFirst, BuildDays, OrderedEligible, RejectedOf, FirstPreferenceError, Objectionable,
         RepeatsId, FirstObjection;
    var dates, error := SortedSet(tripDates), FirstPreferenceError(preferences, |preferences|, SortedSet(tripDates));
    assert tripDates != [] ==> tripDates[0] in dates;
    assert dates != [] ==> dates[0] in tripDates;
    assert WeatherOfTrip(weather, tripDates) <==> !exists d :: d in weather && d !in dates;
    PreferenceErrorIsFirst(preferences, |preferences|, dates);
    assert RatioOf(mode, ratio) == ShareOfStay(mode, ratio);
    if error.Some? {
      var i: nat :| i < |preferences| && FirstObjection(preferences, dates, i)
        && error.value == if RepeatsId(preferences, i) then DuplicateAttraction else PreferredDateOutsideTrip;
    }
  }
}
