/** What the placing loop keeps, after any number of preferences. */
module AssignmentProofs {
  import opened Prelude
  import opened Models
  import opened TimeWindows
  import opened Assignment

  /** An allocation its day can hold: open, weather-safe, long enough, and with a feasible
      start inside the window and the day. */
  predicate AllocationSound(a: DayAllocation, date: Date, bounds: DayTimeBounds, trip: Trip) {
    && a.assignedDate == date
    && MayVisitOn(a.attraction, date, trip.weather)
    && a.requiredDurationMin == MinimumDuration(a.attraction, trip.ratio)
    && var resolution := ResolveEffectiveWindow(a.attraction, date, trip.ratio);
       && resolution.Window?
       && Max(bounds.startMin, resolution.window.openMin)
            <= Min(bounds.endMin - a.requiredDurationMin, resolution.window.latestArrivalMin)
  }

  /** The running totals are the sums over the allocations, and the minutes fit the day. */
  predicate LoadSound(load: DayLoad, trip: Trip) {
    && load.usedMin == RequiredMinutes(load.allocations)
    && load.energyTotal == EnergyOf(load.allocations)
    && load.usedMin <= Capacity(load)
    && forall i :: 0 <= i < |load.allocations| ==>
         AllocationSound(load.allocations[i], load.visitDate, load.bounds, trip)
  }

  predicate LoadsSound(loads: Loads, trip: Trip) {
    forall d :: d in loads ==> loads[d].visitDate == d && LoadSound(loads[d], trip)
  }

  /** An unplaced attraction carries a reason for every single trip date. */
  predicate Justified(u: UnplacedAttraction, trip: Trip) {
    && |u.dateRejections| == |trip.dates|
    && forall i :: 0 <= i < |trip.dates| ==>
         u.dateRejections[i].visitDate == trip.dates[i] && u.dateRejections[i].reasons != []
  }

  lemma {:induction false} AppendTotals(allocations: seq<DayAllocation>, a: DayAllocation)
    ensures RequiredMinutes(allocations + [a]) == RequiredMinutes(allocations) + a.requiredDurationMin
    ensures EnergyOf(allocations + [a]) == EnergyOf(allocations) + a.attraction.energyLevel
  {
    var minutes := (x: DayAllocation) => x.requiredDurationMin;
    var energy := (x: DayAllocation) => x.attraction.energyLevel;
    MapConcat(minutes, allocations, [a]);
    SumConcat(Map(minutes, allocations), Map(minutes, [a]));
    SumOfOne(Map(minutes, [a]));
    MapConcat(energy, allocations, [a]);
    SumConcat(Map(energy, allocations), Map(energy, [a]));
    SumOfOne(Map(energy, [a]));
  }

  lemma {:induction false} AcceptedDateIsSound(p: AttractionPreference, date: Date, loads: Loads, trip: Trip)
    requires trip.ratio > 0.0 && date in loads && loads[date].visitDate == date
    requires DateReasons(p, date, loads, trip) == []
    ensures AllocationSound(AllocationFor(p, date, trip), date, loads[date].bounds, trip)
    ensures loads[date].usedMin + AllocationFor(p, date, trip).requiredDurationMin <= Capacity(loads[date])
  {
    hide ResolveEffectiveWindow, MinimumDuration, IsOpenOn, WeatherPermits;
  }

  lemma {:induction false} PlacedLoadIsSound(load: DayLoad, a: DayAllocation, trip: Trip)
    requires LoadSound(load, trip) && AllocationSound(a, load.visitDate, load.bounds, trip)
    requires load.usedMin + a.requiredDurationMin <= Capacity(load)
    ensures LoadSound(WithAllocation(load, a), trip)
  {
    hide AllocationSound, RequiredMinutes, EnergyOf;
    AppendTotals(load.allocations, a);
  }

  lemma {:induction false} RejectionsCoverDates(p: AttractionPreference, dates: seq<Date>, loads: Loads, trip: Trip)
    requires CandidateDates(p, dates, loads, trip) == []
    ensures
      var r := DateRejections(p, dates, loads, trip);
      |r| == |dates| && forall i :: 0 <= i < |dates| ==> r[i].visitDate == dates[i] && r[i].reasons != []
  {
    hide DateReasons;
    if dates != [] { RejectionsCoverDates(p, dates[..|dates| - 1], loads, trip); }
  }

  /** The invariant of the placing loop. */
  predicate RunSound(state: AssignState, trip: Trip) {
    && LoadsSound(state.loads, trip)
    && forall i :: 0 <= i < |state.unplaced| ==> Justified(state.unplaced[i], trip)
  }

  lemma {:induction false} AssignOneKeepsSound(state: AssignState, p: AttractionPreference, trip: Trip)
    requires trip.ratio > 0.0 && RunSound(state, trip)
    ensures RunSound(AssignOne(state, p, trip), trip)
    ensures AssignOne(state, p, trip).loads.Keys == state.loads.Keys
  {
    hide LoadSound, AllocationSound, DateReasons, CandidateKey, OverallCode;
    CandidatesHaveLoads(p, trip.dates, state.loads, trip);
    var candidates := CandidateDates(p, trip.dates, state.loads, trip);
    if candidates == [] {
      RejectionsCoverDates(p, trip.dates, state.loads, trip);
    } else {
      var date := BestDate(candidates, p, state.loads, trip);
      AcceptedDateIsSound(p, date, state.loads, trip);
      PlacedLoadIsSound(state.loads[date], AllocationFor(p, date, trip), trip);
    }
  }

  lemma {:induction false} InitialLoadsSound(dates: seq<Date>, n: nat, anchors: TripTimeAnchors, trip: Trip)
    requires n <= |dates|
    ensures LoadsSound(InitialLoads(dates, n, anchors), trip)
    ensures forall d :: d in InitialLoads(dates, n, anchors) ==> d in dates[..n]
    ensures forall d :: d in InitialLoads(dates, n, anchors) ==> InitialLoads(dates, n, anchors)[d].allocations == []
  {
    if n > 0 {
      InitialLoadsSound(dates, n - 1, anchors, trip);
      assert dates[..n] == dates[..n - 1] + [dates[n - 1]];
    }
  }

  /** After any number of preferences each day's totals are the sums over its allocations,
      its minutes fit its capacity, its allocations satisfy C1 and C5 there, and whoever was
      left out has a reason for every date. */
  lemma {:induction false} AssignmentInvariant(initial: Loads, preferences: seq<AttractionPreference>, n: nat, trip: Trip)
    requires n <= |preferences| && trip.ratio > 0.0 && LoadsSound(initial, trip)
    ensures RunSound(AssignFirst(initial, preferences, n, trip), trip)
    ensures AssignFirst(initial, preferences, n, trip).loads.Keys == initial.Keys
  {
    hide RunSound, AssignOne;
    if n == 0 {
      NothingPlacedIsSound(initial, trip);
    } else {
      AssignmentInvariant(initial, preferences, n - 1, trip);
      AssignOneKeepsSound(AssignFirst(initial, preferences, n - 1, trip), preferences[n - 1], trip);
    }
  }

  lemma {:induction false} NothingPlacedIsSound(initial: Loads, trip: Trip)
    requires LoadsSound(initial, trip)
    ensures RunSound(AssignState(initial, []), trip)
  {
  }

  // ---- nothing lost, nothing twice ---------------------------------------------------------------

  function LoadAttractions(dates: seq<Date>, loads: Loads): seq<Attraction> {
    if dates == [] then []
    else
      var front, last := LoadAttractions(dates[..|dates| - 1], loads), dates[|dates| - 1];
      if last in loads then front + AllocationAttractions(loads[last].allocations) else front
  }

  lemma {:induction false} OtherDayUnchanged(dates: seq<Date>, loads: Loads, d: Date, load: DayLoad)
    requires d !in dates
    ensures LoadAttractions(dates, loads[d := load]) == LoadAttractions(dates, loads)
  {
    if dates != [] {
      assert dates == dates[..|dates| - 1] + [dates[|dates| - 1]];
      OtherDayUnchanged(dates[..|dates| - 1], loads, d, load);
    }
  }

  lemma {:induction false} PlacingAddsOne(dates: seq<Date>, loads: Loads, d: Date, a: DayAllocation)
    requires NoDuplicates(dates) && d in dates && d in loads
    ensures multiset(LoadAttractions(dates, loads[d := WithAllocation(loads[d], a)]))
      == multiset(LoadAttractions(dates, loads)) + multiset{a.attraction}
  {
    var front, last := dates[..|dates| - 1], dates[|dates| - 1];
    assert dates == front + [last];
    if last == d {
      OtherDayUnchanged(front, loads, d, WithAllocation(loads[d], a));
      MapConcat(AllocationAttraction, loads[d].allocations, [a]);
      assert AllocationAttractions([a]) == [a.attraction];
    } else {
      PlacingAddsOne(front, loads, d, a);
    }
  }

  function StateAttractions(state: AssignState, trip: Trip): seq<Attraction> {
    LoadAttractions(trip.dates, state.loads) + UnplacedAttractionsOf(state.unplaced)
  }

  lemma {:induction false} AssignOneAddsOne(state: AssignState, p: AttractionPreference, trip: Trip)
    requires trip.ratio > 0.0 && NoDuplicates(trip.dates)
    ensures multiset(StateAttractions(AssignOne(state, p, trip), trip))
      == multiset(StateAttractions(state, trip)) + multiset{p.attraction}
  {
    hide DateReasons, CandidateKey, OverallCode, LoadAttractions;
    CandidatesHaveLoads(p, trip.dates, state.loads, trip);
    var candidates := CandidateDates(p, trip.dates, state.loads, trip);
    if candidates == [] {
      var u := UnplacedFor(p, state.loads, trip);
      assert UnplacedAttractionsOf(state.unplaced + [u]) == UnplacedAttractionsOf(state.unplaced) + [p.attraction];
    } else {
      var date := BestDate(candidates, p, state.loads, trip);
      PlacingAddsOne(trip.dates, state.loads, date, AllocationFor(p, date, trip));
    }
  }

  lemma {:induction false} RunConserves(initial: Loads, preferences: seq<AttractionPreference>, n: nat, trip: Trip)
    requires n <= |preferences| && trip.ratio > 0.0 && NoDuplicates(trip.dates)
    ensures multiset(StateAttractions(AssignFirst(initial, preferences, n, trip), trip))
      == multiset(LoadAttractions(trip.dates, initial)) + multiset(PreferenceAttractions(preferences[..n]))
  {
    hide AssignOne, StateAttractions, LoadAttractions;
    if n == 0 {
      NothingUnplaced(initial, trip);
    } else {
      RunConserves(initial, preferences, n - 1, trip);
      AssignOneAddsOne(AssignFirst(initial, preferences, n - 1, trip), preferences[n - 1], trip);
      assert preferences[..n] == preferences[..n - 1] + [preferences[n - 1]];
      assert PreferenceAttractions(preferences[..n])
          == PreferenceAttractions(preferences[..n - 1]) + [preferences[n - 1].attraction];
    }
  }

  lemma {:induction false} NothingUnplaced(initial: Loads, trip: Trip)
    ensures StateAttractions(AssignState(initial, []), trip) == LoadAttractions(trip.dates, initial)
  {
  }

  lemma {:induction false} EmptyLoadsHoldNothing(dates: seq<Date>, loads: Loads)
    requires forall d :: d in loads ==> loads[d].allocations == []
    ensures LoadAttractions(dates, loads) == []
  {
    if dates != [] { EmptyLoadsHoldNothing(dates[..|dates| - 1], loads); }
  }

  lemma {:induction false} PrependPreference(p: AttractionPreference, rest: seq<AttractionPreference>)
    ensures PreferenceAttractions([p] + rest) == [p.attraction] + PreferenceAttractions(rest)
  {
  }

  lemma {:induction false} PrependRejected(r: RejectedAttraction, rest: seq<RejectedAttraction>)
    ensures RejectedAttractionsOf([r] + rest) == [r.attraction] + RejectedAttractionsOf(rest)
  {
  }

  lemma {:induction false} GateConserves(preferences: seq<AttractionPreference>)
    ensures
      multiset(PreferenceAttractions(EligibleOf(preferences)))
      + multiset(RejectedAttractionsOf(RejectedOf(preferences)))
      == multiset(PreferenceAttractions(preferences))
  {
    if preferences != [] {
      hide GateCode, PreferenceAttractions, RejectedAttractionsOf;
      var first, rest := preferences[0], preferences[1..];
      GateConserves(rest);
      assert preferences == [first] + rest;
      PrependPreference(first, rest);
      if GateCode(first.attraction).None? {
        PrependPreference(first, EligibleOf(rest));
      } else {
        PrependRejected(RejectedAttraction(first.attraction, GateCode(first.attraction).value), RejectedOf(rest));
      }
    }
  }

  // ---- the plan -------------------------------------------------------------------------------------

  function PlannedAttractions(days: seq<DayPlan>): seq<Attraction> {
    if days == [] then []
    else PlannedAttractions(days[..|days| - 1]) + AllocationAttractions(days[|days| - 1].allocations)
  }

  /** Everything a first-step plan accounts for. */
  function Step1Attractions(plan: Step1Plan): seq<Attraction> {
    PlannedAttractions(plan.days) + UnplacedAttractionsOf(plan.unplaced) + RejectedAttractionsOf(plan.dataRejected)
  }

  lemma {:induction false} AppendDay(days: seq<DayPlan>, load: DayLoad)
    ensures PlannedAttractions(days + [DayPlanOf(load)]) == PlannedAttractions(days) + AllocationAttractions(load.allocations)
    ensures DayPlanOf(load).visitDate == load.visitDate
  {
    assert (days + [DayPlanOf(load)])[..|days|] == days;
  }

  lemma {:induction false} BuiltDaysHold(dates: seq<Date>, loads: Loads)
    ensures PlannedAttractions(BuildDays(dates, loads)) == LoadAttractions(dates, loads)
  {
    if dates != [] {
      hide DayPlanOf, PlannedAttractions, AllocationAttractions;
      var front, last := dates[..|dates| - 1], dates[|dates| - 1];
      BuiltDaysHold(front, loads);
      if last in loads { AppendDay(BuildDays(front, loads), loads[last]); }
    }
  }

  lemma {:induction false} BuiltDays(dates: seq<Date>, loads: Loads)
    requires StrictlyIncreasing(dates) && forall d :: d in loads ==> loads[d].visitDate == d
    ensures forall i :: 0 <= i < |BuildDays(dates, loads)| ==>
      var day := BuildDays(dates, loads)[i];
      day.visitDate in dates && day.visitDate in loads && day == DayPlanOf(loads[day.visitDate])
    ensures forall i, j :: 0 <= i < j < |BuildDays(dates, loads)| ==>
      BuildDays(dates, loads)[i].visitDate < BuildDays(dates, loads)[j].visitDate
  {
    if dates != [] {
      var front, last := dates[..|dates| - 1], dates[|dates| - 1];
      assert dates == front + [last];
      BuiltDays(front, loads);
      assert forall d :: d in front ==> d < last;
    }
  }

  /** A planned day: its totals, its capacity and its allocations' hard constraints. */
  predicate DaySound(day: DayPlan, trip: Trip) {
    && day.usedDurationMin == RequiredMinutes(day.allocations)
    && day.energyTotal == EnergyOf(day.allocations)
    && day.usedDurationMin <= day.bounds.endMin - day.bounds.startMin
    && forall i :: 0 <= i < |day.allocations| ==>
         AllocationSound(day.allocations[i], day.visitDate, day.bounds, trip)
  }

  lemma {:induction false} NoErrorMeansDistinct(preferences: seq<AttractionPreference>, n: nat, dates: seq<Date>)
    requires n <= |preferences| && FirstPreferenceError(preferences, n, dates).None?
    ensures forall i, j :: 0 <= i < j < n ==> preferences[i].attraction.id != preferences[j].attraction.id
    ensures forall i :: 0 <= i < n ==> preferences[i].preferredDate in dates
  {
    if n > 0 { NoErrorMeansDistinct(preferences, n - 1, dates); }
  }

  lemma {:induction false} Step1IsSound(
    preferences: seq<AttractionPreference>, tripDates: seq<Date>, weather: Weather, anchors: TripTimeAnchors,
    mode: TravelMode, ratio: Option<real>)
    requires AssignSpec(preferences, tripDates, weather, anchors, mode, ratio).Ok?
    ensures
      var plan := AssignSpec(preferences, tripDates, weather, anchors, mode, ratio).value;
      var trip := TripOf(tripDates, weather, mode, ratio);
      && (forall i :: 0 <= i < |plan.days| ==> DaySound(plan.days[i], trip) && plan.days[i].visitDate in tripDates)
      && (forall i, j :: 0 <= i < j < |plan.days| ==> plan.days[i].visitDate < plan.days[j].visitDate)
      && (forall i :: 0 <= i < |plan.unplaced| ==> Justified(plan.unplaced[i], trip))
  {
    hide AssignOne, Justified, AllocationSound, RequiredMinutes, EnergyOf, EligibleOf, RejectedOf, InitialLoads,
         BuildDays, SortedSet, Sort;
    var trip := TripOf(tripDates, weather, mode, ratio);
    var initial := InitialLoads(trip.dates, |trip.dates|, anchors);
    var ordered := OrderedEligible(preferences);
    InitialLoadsSound(trip.dates, |trip.dates|, anchors, trip);
    AssignmentInvariant(initial, ordered, |ordered|, trip);
    BuiltDays(trip.dates, AssignFirst(initial, ordered, |ordered|, trip).loads);
  }

  lemma {:induction false} AcceptedIdsAreDistinct(preferences: seq<AttractionPreference>, dates: seq<Date>)
    requires FirstPreferenceError(preferences, |preferences|, dates).None?
    ensures NoDuplicates(Map((a: Attraction) => a.id, PreferenceAttractions(preferences)))
  {
    NoErrorMeansDistinct(preferences, |preferences|, dates);
  }

  lemma {:induction false} PreferencesPermute(a: seq<AttractionPreference>, b: seq<AttractionPreference>)
    requires multiset(a) == multiset(b)
    ensures multiset(PreferenceAttractions(a)) == multiset(PreferenceAttractions(b))
  {
    MapMultiset((p: AttractionPreference) => p.attraction, a, b);
  }

  lemma {:induction false} Step1AccountsForAll(
    preferences: seq<AttractionPreference>, tripDates: seq<Date>, weather: Weather, anchors: TripTimeAnchors,
    mode: TravelMode, ratio: Option<real>)
    requires AssignSpec(preferences, tripDates, weather, anchors, mode, ratio).Ok?
    ensures
      var plan := AssignSpec(preferences, tripDates, weather, anchors, mode, ratio).value;
      && multiset(Step1Attractions(plan)) == multiset(PreferenceAttractions(preferences))
      && NoDuplicates(Map((a: Attraction) => a.id, PreferenceAttractions(preferences)))
  {
    hide AssignOne, EligibleOf, RejectedOf, InitialLoads, LoadAttractions, PlannedAttractions, BuildDays, SortedSet, Sort,
         PreferenceAttractions, RejectedAttractionsOf, UnplacedAttractionsOf, LoadsSound;
    var trip := TripOf(tripDates, weather, mode, ratio);
    var initial := InitialLoads(trip.dates, |trip.dates|, anchors);
    var ordered := OrderedEligible(preferences);
    var final := AssignFirst(initial, ordered, |ordered|, trip);
    BuiltDaysHold(trip.dates, final.loads);
    RunConserves(initial, ordered, |ordered|, trip);
    InitialLoadsSound(trip.dates, |trip.dates|, anchors, trip);
    EmptyLoadsHoldNothing(trip.dates, initial);
    assert ordered[..|ordered|] == ordered;
    PreferencesPermute(ordered, EligibleOf(preferences));
    GateConserves(preferences);
    AcceptedIdsAreDistinct(preferences, trip.dates);
  }

  /** The outcome of step 1: sound days in date order, justified refusals, and every input
      attraction exactly once among planned, unplaced and data-rejected. */
  lemma {:induction false} Step1Outcome(
    preferences: seq<AttractionPreference>, tripDates: seq<Date>, weather: Weather, anchors: TripTimeAnchors,
    mode: TravelMode, ratio: Option<real>)
    requires AssignSpec(preferences, tripDates, weather, anchors, mode, ratio).Ok?
    ensures
      var plan := AssignSpec(preferences, tripDates, weather, anchors, mode, ratio).value;
      var trip := TripOf(tripDates, weather, mode, ratio);
      && (forall i :: 0 <= i < |plan.days| ==> DaySound(plan.days[i], trip) && plan.days[i].visitDate in tripDates)
      && (forall i, j :: 0 <= i < j < |plan.days| ==> plan.days[i].visitDate < plan.days[j].visitDate)
      && (forall i :: 0 <= i < |plan.unplaced| ==> Justified(plan.unplaced[i], trip))
      && multiset(Step1Attractions(plan)) == multiset(PreferenceAttractions(preferences))
      && NoDuplicates(Map((a: Attraction) => a.id, PreferenceAttractions(preferences)))
  {
    hide AssignSpec, DaySound, Justified;
    Step1IsSound(preferences, tripDates, weather, anchors, mode, ratio);
    Step1AccountsForAll(preferences, tripDates, weather, anchors, mode, ratio);
  }

  // ---- leisure mode balances energy -----------------------------------------------------------------

  /** No date was ever refused while placing the first `n` preferences. */
  predicate NeverRefused(initial: Loads, preferences: seq<AttractionPreference>, n: nat, trip: Trip)
    requires n <= |preferences| && trip.ratio > 0.0
  {
    forall i, d :: 0 <= i < n && d in trip.dates ==>
      DateReasons(preferences[i], d, AssignFirst(initial, preferences, i, trip).loads, trip) == []
  }

  predicate Balanced(loads: Loads, dates: seq<Date>) {
    forall d, e :: d in dates && e in dates && d in loads && e in loads ==>
      loads[d].energyTotal - loads[e].energyTotal <= 5
  }

  lemma {:induction false} LighterDayFirst(a: DayLoad, b: DayLoad, p: AttractionPreference, trip: Trip)
    requires trip.ratio > 0.0 && trip.mode == Leisure
    requires !KeyLess(CandidateKey(a, p, trip), CandidateKey(b, p, trip))
    ensures b.energyTotal <= a.energyTotal
  {
  }

  /** When no date is refused, the chosen day is one of the least demanding. */
  lemma {:induction false} LeisurePicksLightest(state: AssignState, p: AttractionPreference, trip: Trip)
    requires trip.ratio > 0.0 && trip.mode == Leisure && trip.dates != []
    requires forall d :: d in trip.dates ==> DateReasons(p, d, state.loads, trip) == []
    ensures
      var candidates := CandidateDates(p, trip.dates, state.loads, trip);
      && candidates != [] && (forall d :: d in candidates ==> d in state.loads)
      && var best := BestDate(candidates, p, state.loads, trip);
         forall d :: d in trip.dates ==>
           d in state.loads && state.loads[best].energyTotal <= state.loads[d].energyTotal
  {
    hide DateReasons, CandidateKey, KeyLess, BestDate;
    CandidatesHaveLoads(p, trip.dates, state.loads, trip);
    var candidates := CandidateDates(p, trip.dates, state.loads, trip);
    var first := trip.dates[0];
    assert first in trip.dates && DateReasons(p, first, state.loads, trip) == [];
    assert first in candidates;
    var best := BestDate(candidates, p, state.loads, trip);
    forall d | d in trip.dates
      ensures d in state.loads && state.loads[best].energyTotal <= state.loads[d].energyTotal
    {
      assert d in candidates;
      LighterDayFirst(state.loads[d], state.loads[best], p, trip);
    }
  }

  lemma {:induction false} LeisureStepKeepsBalance(state: AssignState, p: AttractionPreference, trip: Trip)
    requires trip.ratio > 0.0 && trip.mode == Leisure && trip.dates != []
    requires forall d :: d in trip.dates ==> DateReasons(p, d, state.loads, trip) == []
    requires Balanced(state.loads, trip.dates)
    ensures Balanced(AssignOne(state, p, trip).loads, trip.dates)
  {
    hide DateReasons, CandidateKey, KeyLess, BestDate, RequiredFor;
    LeisurePicksLightest(state, p, trip);
  }

  /** In leisure mode, as long as no date is ever refused, the energy totals of any two trip
      days differ by at most the energy of one attraction. */
  lemma {:induction false} LeisureBalance(
    initial: Loads, preferences: seq<AttractionPreference>, n: nat, trip: Trip)
    requires n <= |preferences| && trip.ratio > 0.0 && trip.mode == Leisure && trip.dates != []
    requires forall d :: d in initial ==> initial[d].energyTotal == 0
    requires NeverRefused(initial, preferences, n, trip)
    ensures Balanced(AssignFirst(initial, preferences, n, trip).loads, trip.dates)
  {
    hide AssignOne, DateReasons;
    if n > 0 {
      LeisureBalance(initial, preferences, n - 1, trip);
      LeisureStepKeepsBalance(AssignFirst(initial, preferences, n - 1, trip), preferences[n - 1], trip);
    }
  }
}
