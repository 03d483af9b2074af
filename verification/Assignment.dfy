/** Step 1: the data gate, and the greedy placing of every eligible attraction on a day. */
module Assignment {
  import opened Prelude
  import opened Models
  import opened TimeWindows

  // ---- data gate --------------------------------------------------------------------------

  /** Inactive, then unverified, then conflicting data keeps an attraction out. */
  function GateCode(a: Attraction): Option<RejectionCode> {
    if !a.active then Some(Inactive)
    else if !a.dataVerified then Some(DataUnverified)
    else if a.conflict then Some(DataConflict)
    else None
  }

  function EligibleOf(preferences: seq<AttractionPreference>): seq<AttractionPreference> {
    if preferences == [] then []
    else if GateCode(preferences[0].attraction).None? then [preferences[0]] + EligibleOf(preferences[1..])
    else EligibleOf(preferences[1..])
  }

  function RejectedOf(preferences: seq<AttractionPreference>): seq<RejectedAttraction> {
    if preferences == [] then []
    else
      var code := GateCode(preferences[0].attraction);
      if code.None? then RejectedOf(preferences[1..])
      else [RejectedAttraction(preferences[0].attraction, code.value)] + RejectedOf(preferences[1..])
  }

  function PreferenceAttractions(preferences: seq<AttractionPreference>): seq<Attraction> {
    Map((p: AttractionPreference) => p.attraction, preferences)
  }

  function RejectedAttractionsOf(rejected: seq<RejectedAttraction>): seq<Attraction> {
    Map((r: RejectedAttraction) => r.attraction, rejected)
  }

  function UnplacedAttractionsOf(unplaced: seq<UnplacedAttraction>): seq<Attraction> {
    Map((u: UnplacedAttraction) => u.attraction, unplaced)
  }

  /** Demanding attractions first, ties by id. */
  function ByEnergy(): (AttractionPreference, AttractionPreference) -> bool {
    (p: AttractionPreference, q: AttractionPreference) =>
      p.attraction.energyLevel > q.attraction.energyLevel
      || (p.attraction.energyLevel == q.attraction.energyLevel && p.attraction.id <= q.attraction.id)
  }

  // ---- one day's load -------------------------------------------------------------------------

  datatype DayLoad = DayLoad(
    visitDate: Date, bounds: DayTimeBounds, allocations: seq<DayAllocation>, usedMin: int, energyTotal: int)

  function Capacity(load: DayLoad): int {
    load.bounds.endMin - load.bounds.startMin
  }

  function WithAllocation(load: DayLoad, allocation: DayAllocation): DayLoad {
    load.(allocations := load.allocations + [allocation],
          usedMin := load.usedMin + allocation.requiredDurationMin,
          energyTotal := load.energyTotal + allocation.attraction.energyLevel)
  }

  /** The day a run of the assignment fills: its fields are updated as attractions arrive. */
  class DayState {
    const visitDate: Date
    const bounds: DayTimeBounds
    var allocations: seq<DayAllocation>
    var usedMin: int
    var energyTotal: int

    function Value(): DayLoad
      reads this
    {
      DayLoad(visitDate, bounds, allocations, usedMin, energyTotal)
    }

    constructor (visitDate: Date, bounds: DayTimeBounds)
      ensures Value() == DayLoad(visitDate, bounds, [], 0, 0)
    {
      this.visitDate := visitDate;
      this.bounds := bounds;
      allocations := [];
      usedMin := 0;
      energyTotal := 0;
    }

    method Place(allocation: DayAllocation)
      modifies this
      ensures Value() == WithAllocation(old(Value()), allocation)
    {
      allocations := allocations + [allocation];
      usedMin := usedMin + allocation.requiredDurationMin;
      energyTotal := energyTotal + allocation.attraction.energyLevel;
    }
  }

  // ---- one preference ---------------------------------------------------------------------------

  /** What every placing decision reads. */
  datatype Trip = Trip(dates: seq<Date>, weather: Weather, mode: TravelMode, ratio: real)

  type Loads = map<Date, DayLoad>

  function RequiredFor(p: AttractionPreference, ratio: real): int {
    MinimumDuration(p.attraction, ratio)
  }

  function TimingReasons(attraction: Attraction, load: DayLoad, required: int, ratio: real): seq<RejectionCode> {
    var resolution := ResolveEffectiveWindow(attraction, load.visitDate, ratio);
    if resolution.NoWindow? then [resolution.code]
    else
      var earliest := Max(load.bounds.startMin, resolution.window.openMin);
      var latest := Min(load.bounds.endMin - required, resolution.window.latestArrivalMin);
      if earliest > latest then [ArrivalAfterLatestArrival] else []
  }

  function WeatherReasons(attraction: Attraction, date: Date, weather: Weather): seq<RejectionCode> {
    if date !in weather then [WeatherDataMissing]
    else if WeatherPermits(attraction, weather[date]) then []
    else [ExtremeWeatherOutdoor]
  }

  /** Why a date cannot take an attraction; empty when it can. */
  function DateReasons(p: AttractionPreference, date: Date, loads: Loads, trip: Trip): seq<RejectionCode> {
    if date !in loads then [EmptyDayWindow]
    else
      var load, required := loads[date], RequiredFor(p, trip.ratio);
      var reasons :=
        (if IsOpenOn(p.attraction, date) then [] else [ClosedOnDate])
        + WeatherReasons(p.attraction, date, trip.weather)
        + TimingReasons(p.attraction, load, required, trip.ratio);
      if reasons == [] && load.usedMin + required > Capacity(load) then [DayCapacityExceeded] else reasons
  }

  function DateRejections(p: AttractionPreference, dates: seq<Date>, loads: Loads, trip: Trip): seq<DateRejection> {
    if dates == [] then []
    else
      var front := DateRejections(p, dates[..|dates| - 1], loads, trip);
      var last := dates[|dates| - 1];
      var reasons := DateReasons(p, last, loads, trip);
      if reasons == [] then front else front + [DateRejection(last, reasons)]
  }

  function CandidateDates(p: AttractionPreference, dates: seq<Date>, loads: Loads, trip: Trip): (r: seq<Date>)
    ensures forall d :: d in r <==> d in dates && DateReasons(p, d, loads, trip) == []
  {
    if dates == [] then []
    else
      var front := CandidateDates(p, dates[..|dates| - 1], loads, trip);
      var last := dates[|dates| - 1];
      assert dates == dates[..|dates| - 1] + [last];
      if DateReasons(p, last, loads, trip) == [] then front + [last] else front
  }

  datatype Key = Key(first: int, second: int, third: int, date: Date)

  predicate KeyLess(a: Key, b: Key) {
    || a.first < b.first
    || (a.first == b.first && a.second < b.second)
    || (a.first == b.first && a.second == b.second && a.third < b.third)
    || (a.first == b.first && a.second == b.second && a.third == b.third && a.date < b.date)
  }

  /** How good a day is for a preference; what counts first depends on the travel mode. */
  function CandidateKey(load: DayLoad, p: AttractionPreference, trip: Trip): Key {
    var distance := Abs(load.visitDate - p.preferredDate);
    var energy := load.energyTotal + p.attraction.energyLevel;
    var minutes := load.usedMin + RequiredFor(p, trip.ratio);
    match trip.mode
    case Leisure => Key(energy, distance, minutes, load.visitDate)
    case NormalPace => Key(distance, energy, minutes, load.visitDate)
    case Speed => Key(distance, minutes, energy, load.visitDate)
  }

  /** The first candidate with the least key. */
  function BestDate(candidates: seq<Date>, p: AttractionPreference, loads: Loads, trip: Trip): (best: Date)
    requires candidates != [] && forall d :: d in candidates ==> d in loads
    ensures best in candidates
    ensures forall d :: d in candidates ==>
      !KeyLess(CandidateKey(loads[d], p, trip), CandidateKey(loads[best], p, trip))
  {
    if |candidates| == 1 then candidates[0]
    else
      var front, last := candidates[..|candidates| - 1], candidates[|candidates| - 1];
      assert candidates == front + [last];
      var best := BestDate(front, p, loads, trip);
      if KeyLess(CandidateKey(loads[last], p, trip), CandidateKey(loads[best], p, trip)) then last else best
  }

  function AllHave(rejections: seq<DateRejection>, code: RejectionCode): bool {
    rejections != [] && forall i :: 0 <= i < |rejections| ==> code in rejections[i].reasons
  }

  function OverallCode(rejections: seq<DateRejection>, unavailableDays: nat): RejectionCode {
    if AllHave(rejections, DayCapacityExceeded) then DayCapacityExceeded
    else if AllHave(rejections, ExtremeWeatherOutdoor) then NoWeatherSafeDate
    else if unavailableDays != 0 && unavailableDays == |rejections| then EmptyDayWindow
    else NoAvailableDate
  }

  datatype AssignState = AssignState(loads: Loads, unplaced: seq<UnplacedAttraction>)

  function AllocationFor(p: AttractionPreference, date: Date, trip: Trip): DayAllocation
    requires trip.ratio > 0.0
  {
    CeilScaledPositive(p.attraction.suggestedDuration, trip.ratio);
    DayAllocation(p.attraction, p.preferredDate, date, RequiredFor(p, trip.ratio), p.visitPeriod)
  }

  function UnplacedFor(p: AttractionPreference, loads: Loads, trip: Trip): UnplacedAttraction {
    var rejections := DateRejections(p, trip.dates, loads, trip);
    UnplacedAttraction(
      p.attraction, p.preferredDate, OverallCode(rejections, UnavailableDays(trip.dates, loads)), rejections)
  }

  function UnavailableDays(dates: seq<Date>, loads: Loads): nat {
    if dates == [] then 0
    else UnavailableDays(dates[..|dates| - 1], loads) + (if dates[|dates| - 1] in loads then 0 else 1)
  }

  /** One preference placed on its best day, or recorded as unplaced. */
  function AssignOne(progress: AssignState, p: AttractionPreference, trip: Trip): AssignState
    requires trip.ratio > 0.0
  {
    var candidates := CandidateDates(p, trip.dates, progress.loads, trip);
    if candidates == [] then
      progress.(unplaced := progress.unplaced + [UnplacedFor(p, progress.loads, trip)])
    else
      var date := BestDate(candidates, p, progress.loads, trip);
      progress.(loads := progress.loads[date := WithAllocation(progress.loads[date], AllocationFor(p, date, trip))])
  }

  function AssignFirst(initial: Loads, preferences: seq<AttractionPreference>, n: nat, trip: Trip): AssignState
    requires n <= |preferences| && trip.ratio > 0.0
  {
    if n == 0 then AssignState(initial, [])
    else AssignOne(AssignFirst(initial, preferences, n - 1, trip), preferences[n - 1], trip)
  }

  // ---- the whole of step 1 ------------------------------------------------------------------------

  /** The days that have a usable window, empty. */
  function InitialLoads(dates: seq<Date>, n: nat, anchors: TripTimeAnchors): Loads
    requires n <= |dates|
  {
    if n == 0 then map[]
    else
      var earlier := InitialLoads(dates, n - 1, anchors);
      var resolution := ResolveDayTimeBounds(n, |dates|, anchors);
      if resolution.EmptyDay? then earlier
      else earlier[dates[n - 1] := DayLoad(dates[n - 1], resolution.bounds, [], 0, 0)]
  }

  function DayPlanOf(load: DayLoad): DayPlan {
    DayPlan(load.visitDate, load.bounds, load.allocations, load.usedMin, load.energyTotal)
  }

  function BuildDays(dates: seq<Date>, loads: Loads): seq<DayPlan> {
    if dates == [] then []
    else
      var front, last := BuildDays(dates[..|dates| - 1], loads), dates[|dates| - 1];
      if last in loads then front + [DayPlanOf(loads[last])] else front
  }

  function FirstPreferenceError(preferences: seq<AttractionPreference>, n: nat, dates: seq<Date>): Option<Error>
    requires n <= |preferences|
  {
    if n == 0 then None
    else
      var earlier := FirstPreferenceError(preferences, n - 1, dates);
      if earlier.Some? then earlier
      else if exists i :: 0 <= i < n - 1 && preferences[i].attraction.id == preferences[n - 1].attraction.id then
        Some(DuplicateAttraction)
      else if preferences[n - 1].preferredDate !in dates then Some(PreferredDateOutsideTrip)
      else None
  }

  function DefaultRatio(mode: TravelMode): real {
    if mode.Leisure? then 0.7 else DEFAULT_DURATION_RATIO
  }

  function RatioOf(mode: TravelMode, ratio: Option<real>): real {
    if ratio.Some? then ratio.value else DefaultRatio(mode)
  }

  function TripOf(tripDates: seq<Date>, weather: Weather, mode: TravelMode, ratio: Option<real>): Trip {
    Trip(SortedSet(tripDates), weather, mode, RatioOf(mode, ratio))
  }

  function OrderedEligible(preferences: seq<AttractionPreference>): seq<AttractionPreference> {
    Sort(EligibleOf(preferences), ByEnergy())
  }

  function AssignSpec(
    preferences: seq<AttractionPreference>, tripDates: seq<Date>, weather: Weather, anchors: TripTimeAnchors,
    mode: TravelMode, ratio: Option<real>): Outcome<Step1Plan>
  {
    var trip := TripOf(tripDates, weather, mode, ratio);
    var error := FirstPreferenceError(preferences, |preferences|, trip.dates);
    if trip.dates == [] then Raised(EmptyTrip)
    else if exists d :: d in weather && d !in trip.dates then Raised(WeatherOutsideTrip)
    else if error.Some? then Raised(error.value)
    else if !(0.0 < trip.ratio <= 1.0) then Raised(DurationRatioOutOfRange)
    else
      var ordered := OrderedEligible(preferences);
      var final := AssignFirst(InitialLoads(trip.dates, |trip.dates|, anchors), ordered, |ordered|, trip);
      Ok(Step1Plan(BuildDays(trip.dates, final.loads), final.unplaced, RejectedOf(preferences), mode))
  }

  // ---- the run over mutable day states -----------------------------------------------------------

  ghost predicate Keyed(states: map<Date, DayState>) {
    forall d :: d in states ==> states[d].visitDate == d
  }

  ghost function LoadsOf(states: map<Date, DayState>): Loads
    reads states.Values
  {
    map d | d in states :: states[d].Value()
  }

  method CheckPreferences(preferences: seq<AttractionPreference>, dates: seq<Date>) returns (error: Option<Error>)
    ensures error == FirstPreferenceError(preferences, |preferences|, dates)
  {
    var seen: set<int> := {};
    error := None;
    for i := 0 to |preferences|
      invariant forall x :: x in seen <==> exists j :: 0 <= j < i && preferences[j].attraction.id == x
      invariant FirstPreferenceError(preferences, i, dates).None? && error.None?
    {
      var p := preferences[i];
      if p.attraction.id in seen {
        error := Some(DuplicateAttraction);
      } else if p.preferredDate !in dates {
        error := Some(PreferredDateOutsideTrip);
      }
      if error.Some? {
        FirstErrorStays(preferences, i + 1, dates);
        return;
      }
      seen := seen + {p.attraction.id};
    }
  }

  lemma {:induction false} FirstErrorStays(preferences: seq<AttractionPreference>, n: nat, dates: seq<Date>)
    requires n <= |preferences| && FirstPreferenceError(preferences, n, dates).Some?
    ensures FirstPreferenceError(preferences, |preferences|, dates) == FirstPreferenceError(preferences, n, dates)
    decreases |preferences| - n
  {
    if n < |preferences| { FirstErrorStays(preferences, n + 1, dates); }
  }

  method OpenDays(dates: seq<Date>, anchors: TripTimeAnchors) returns (states: map<Date, DayState>)
    ensures Keyed(states) && forall d :: d in states ==> fresh(states[d])
    ensures LoadsOf(states) == InitialLoads(dates, |dates|, anchors)
  {
    states := map[];
    for i := 0 to |dates|
      invariant Keyed(states) && forall d :: d in states ==> fresh(states[d])
      invariant LoadsOf(states) == InitialLoads(dates, i, anchors)
    {
      var resolution := ResolveDayTimeBounds(i + 1, |dates|, anchors);
      if resolution.Bounds? {
        var state := new DayState(dates[i], resolution.bounds);
        ghost var before := LoadsOf(states);
        states := states[dates[i] := state];
        assert LoadsOf(states) == before[dates[i] := state.Value()];
      }
    }
  }

  /** Sorts the trip dates into those that can take an attraction and those that cannot. */
  method ExamineDates(p: AttractionPreference, loads: Loads, trip: Trip)
    returns (rejections: seq<DateRejection>, candidates: seq<Date>, unavailable: nat)
    ensures rejections == DateRejections(p, trip.dates, loads, trip)
    ensures candidates == CandidateDates(p, trip.dates, loads, trip)
    ensures unavailable == UnavailableDays(trip.dates, loads)
  {
    hide DateReasons;
    rejections, candidates, unavailable := [], [], 0;
    for i := 0 to |trip.dates|
      invariant rejections == DateRejections(p, trip.dates[..i], loads, trip)
      invariant candidates == CandidateDates(p, trip.dates[..i], loads, trip)
      invariant unavailable == UnavailableDays(trip.dates[..i], loads)
    {
      assert trip.dates[..i + 1][..i] == trip.dates[..i];
      var reasons := DateReasons(p, trip.dates[i], loads, trip);
      if reasons != [] {
        rejections := rejections + [DateRejection(trip.dates[i], reasons)];
      } else {
        candidates := candidates + [trip.dates[i]];
      }
      if trip.dates[i] !in loads { unavailable := unavailable + 1; }
    }
    assert trip.dates[..|trip.dates|] == trip.dates;
  }

  /** One round of the placing loop. */
  method PlaceOne(states: map<Date, DayState>, p: AttractionPreference, trip: Trip) returns (u: Option<UnplacedAttraction>)
    requires Keyed(states) && trip.ratio > 0.0
    modifies states.Values
    ensures
      var after := AssignOne(AssignState(old(LoadsOf(states)), []), p, trip);
      LoadsOf(states) == after.loads && after.unplaced == if u.Some? then [u.value] else []
  {
    hide DateReasons, CandidateKey, DateRejections, CandidateDates, UnavailableDays, BestDate;
    var loads := map d | d in states :: states[d].Value();
    var rejections, candidates, unavailable := ExamineDates(p, loads, trip);
    if candidates == [] {
      return Some(UnplacedAttraction(
        p.attraction, p.preferredDate, OverallCode(rejections, unavailable), rejections));
    }
    CandidatesHaveLoads(p, trip.dates, loads, trip);
    var date := BestDate(candidates, p, loads, trip);
    var selected := states[date];
    selected.Place(AllocationFor(p, date, trip));
    forall d | d in states && d != date
      ensures states[d].Value() == loads[d]
    {
      assert states[d].visitDate != selected.visitDate;
    }
    assert LoadsOf(states) == loads[date := selected.Value()];
    u := None;
  }

  lemma {:induction false} CandidatesHaveLoads(p: AttractionPreference, dates: seq<Date>, loads: Loads, trip: Trip)
    ensures forall d :: d in CandidateDates(p, dates, loads, trip) ==> d in loads
  {
  }

  method AssignDays(
    preferences: seq<AttractionPreference>, tripDates: seq<Date>, weather: Weather, anchors: TripTimeAnchors,
    mode: TravelMode, ratio: Option<real>) returns (r: Outcome<Step1Plan>)
    ensures r == AssignSpec(preferences, tripDates, weather, anchors, mode, ratio)
  {
    hide AssignOne, InitialLoads, SortedSet, Sort, RejectedOf, EligibleOf;
    var trip := TripOf(tripDates, weather, mode, ratio);
    if trip.dates == [] { return Raised(EmptyTrip); }
    if exists d :: d in weather && d !in trip.dates { return Raised(WeatherOutsideTrip); }
    var error := CheckPreferences(preferences, trip.dates);
    if error.Some? { return Raised(error.value); }
    if !(0.0 < trip.ratio <= 1.0) { return Raised(DurationRatioOutOfRange); }
    var states := OpenDays(trip.dates, anchors);
    ghost var initial := LoadsOf(states);
    var ordered := OrderedEligible(preferences);
    var unplaced: seq<UnplacedAttraction> := [];
    for i := 0 to |ordered|
      invariant Keyed(states) && forall d :: d in states ==> fresh(states[d])
      invariant AssignState(LoadsOf(states), unplaced) == AssignFirst(initial, ordered, i, trip)
    {
      AssignOneUnplaced(AssignState(LoadsOf(states), unplaced), ordered[i], trip);
      var u := PlaceOne(states, ordered[i], trip);
      if u.Some? { unplaced := unplaced + [u.value]; }
    }
    var days: seq<DayPlan> := [];
    for i := 0 to |trip.dates|
      invariant Keyed(states)
      invariant LoadsOf(states) == AssignFirst(initial, ordered, |ordered|, trip).loads
      invariant days == BuildDays(trip.dates[..i], LoadsOf(states))
    {
      assert trip.dates[..i + 1][..i] == trip.dates[..i];
      if trip.dates[i] in states {
        days := days + [DayPlanOf(states[trip.dates[i]].Value())];
      }
    }
    assert trip.dates[..|trip.dates|] == trip.dates;
    r := Ok(Step1Plan(days, unplaced, RejectedOf(preferences), mode));
  }

  /** The list of unplaced attractions only grows. */
  lemma {:induction false} AssignOneUnplaced(progress: AssignState, p: AttractionPreference, trip: Trip)
    requires trip.ratio > 0.0
    ensures
      var alone := AssignOne(progress.(unplaced := []), p, trip);
      AssignOne(progress, p, trip) == AssignState(alone.loads, progress.unplaced + alone.unplaced)
  {
    hide CandidateDates, BestDate, UnplacedFor;
  }
}
