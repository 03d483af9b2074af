/** The quality gate: attraction accounting and counting of hard violations, and the whole
    run from preferences to a gated itinerary. */
module Quality {
  import opened Prelude
  import opened Models
  import opened TimeWindows
  import opened Validation
  import opened Routing
  import opened Segments
  import opened Itinerary
  import opened BoardFacts
  import opened AssignmentProofs
  import opened Planner
  import opened TripEnds
  import A = Assignment

  datatype ConstraintName = C1 | C2 | C4 | C5 | C6 | Other

  function ConstraintFor(code: RejectionCode): ConstraintName {
    match code
    case ClosedOnDate => C1
    case NoMatchingTimeRule => C2
    case TimeRuleConflict => C2
    case ArrivalAfterLatestArrival => C2
    case VisitDurationInsufficient => C2
    case EmptyDayWindow => C4
    case AnchorViolation => C4
    case ExtremeWeatherOutdoor => C5
    case WeatherDataMissing => C5
    case OdDataMissing => C6
    case TransitInfeasible => C6
    case _ => Other
  }

  const CONSTRAINTS: seq<ConstraintName> := [C1, C2, C4, C5, C6, Other]

  datatype Accounting = Accounting(missing: seq<int>, duplicate: seq<int>, unexpected: seq<int>, conserved: bool)

  datatype QualityReport = QualityReport(
    accounting: Accounting, counts: seq<nat>, hardViolations: int, gatePassed: bool)

  // ---- accounting ------------------------------------------------------------------------------

  function Without(a: seq<int>, b: seq<int>): (r: seq<int>)
    ensures forall x :: x in r <==> x in a && x !in b
  {
    if a == [] then []
    else
      assert a == [a[0]] + a[1..];
      if a[0] in b then Without(a[1..], b) else [a[0]] + Without(a[1..], b)
  }

  function Repeated(a: seq<int>, counts: multiset<int>): (r: seq<int>)
    ensures forall x :: x in r <==> x in a && counts[x] > 1
  {
    if a == [] then []
    else
      assert a == [a[0]] + a[1..];
      if counts[a[0]] > 1 then [a[0]] + Repeated(a[1..], counts) else Repeated(a[1..], counts)
  }

  function AccountFor(inputIds: seq<int>, outcomeIds: seq<int>): Accounting {
    var missing := SortedSet(Without(inputIds, outcomeIds));
    var unexpected := SortedSet(Without(outcomeIds, inputIds));
    var duplicate := SortedSet(Repeated(outcomeIds, multiset(outcomeIds)));
    Accounting(missing, duplicate, unexpected, missing == [] && unexpected == [] && duplicate == [])
  }

  lemma {:induction false} EmptyExact(s: seq<int>)
    ensures SortedSet(s) == [] <==> s == []
  {
    if s != [] { assert s[0] in SortedSet(s); }
    if SortedSet(s) != [] { assert SortedSet(s)[0] in s; }
  }

  /** For unique inputs the accounting is conserved exactly when the two id multisets agree. */
  lemma {:induction false} ConservedIffSameIds(inputIds: seq<int>, outcomeIds: seq<int>)
    requires NoDuplicates(inputIds)
    ensures AccountFor(inputIds, outcomeIds).conserved <==> multiset(inputIds) == multiset(outcomeIds)
  {
    hide SortedSet;
    EmptyExact(Without(inputIds, outcomeIds));
    EmptyExact(Without(outcomeIds, inputIds));
    EmptyExact(Repeated(outcomeIds, multiset(outcomeIds)));
    if AccountFor(inputIds, outcomeIds).conserved {
      CountedOnceIsDistinct(outcomeIds);
      forall x
        ensures x in inputIds <==> x in outcomeIds
      {
        assert x !in Without(inputIds, outcomeIds) && x !in Without(outcomeIds, inputIds);
      }
      SameElements(inputIds, outcomeIds);
    }
    if multiset(inputIds) == multiset(outcomeIds) { SameIdsAreConserved(inputIds, outcomeIds); }
  }

  lemma {:induction false} CountedOnceIsDistinct(ids: seq<int>)
    requires Repeated(ids, multiset(ids)) == []
    ensures NoDuplicates(ids)
  {
    forall i, j | 0 <= i < j < |ids|
      ensures ids[i] != ids[j]
    {
      if ids[i] == ids[j] { CountsTwice(ids, i, j); }
      assert ids[i] !in Repeated(ids, multiset(ids));
    }
  }

  lemma {:induction false} SameIdsAreConserved(inputIds: seq<int>, outcomeIds: seq<int>)
    requires NoDuplicates(inputIds) && multiset(inputIds) == multiset(outcomeIds)
    ensures Without(inputIds, outcomeIds) == [] && Without(outcomeIds, inputIds) == []
    ensures Repeated(outcomeIds, multiset(outcomeIds)) == []
  {
    MultisetMembers(inputIds, outcomeIds);
    var repeated := Repeated(outcomeIds, multiset(outcomeIds));
    forall x | x in outcomeIds
      ensures x !in repeated
    {
      NoDuplicatesCount(inputIds, x);
    }
    HasMember(repeated);
    HasMember(Without(inputIds, outcomeIds));
    HasMember(Without(outcomeIds, inputIds));
  }

  /** The lists of the accounting are ascending and name each id once: those that came in and did not
      come out, those that came out without coming in, and those that came out more than once. */
  lemma {:induction false} AccountingIsExact(inputIds: seq<int>, outcomeIds: seq<int>, id: int)
    ensures
      var accounting := AccountFor(inputIds, outcomeIds);
      && (id in accounting.missing <==> id in inputIds && id !in outcomeIds)
      && (id in accounting.unexpected <==> id in outcomeIds && id !in inputIds)
      && (id in accounting.duplicate <==> exists i, j :: 0 <= i < j < |outcomeIds| && outcomeIds[i] == outcomeIds[j] == id)
      && StrictlyIncreasing(accounting.missing) && StrictlyIncreasing(accounting.unexpected)
      && StrictlyIncreasing(accounting.duplicate)
  {
    hide SortedSet, StrictlyIncreasing;
    CountsMore(outcomeIds, id);
  }

  lemma {:induction false} CountsMore(ids: seq<int>, id: int)
    ensures multiset(ids)[id] > 1 <==> exists i, j :: 0 <= i < j < |ids| && ids[i] == ids[j] == id
    ensures multiset(ids)[id] > 0 <==> id in ids
  {
    if ids != [] {
      var front, last := ids[..|ids| - 1], ids[|ids| - 1];
      assert ids == front + [last];
      CountsMore(front, id);
      if last == id && id in front {
        var i :| 0 <= i < |front| && front[i] == id;
        assert ids[i] == ids[|ids| - 1] == id;
      }
      if i, j :| 0 <= i < j < |front| && front[i] == front[j] == id {
        assert ids[i] == ids[j] == id;
      }
    }
  }

  // ---- counting violations -----------------------------------------------------------------------

  function CodesReported(validations: seq<RouteValidation>): seq<ConstraintViolation> {
    Flatten(Map((v: RouteValidation) => v.violations, validations))
  }

  function CountFor(name: ConstraintName, violations: seq<ConstraintViolation>): nat {
    if violations == [] then 0
    else CountFor(name, violations[1..]) + (if ConstraintFor(violations[0].code) == name then 1 else 0)
  }

  function TotalCount(violations: seq<ConstraintViolation>): nat {
    CountFor(C1, violations) + CountFor(C2, violations) + CountFor(C4, violations)
    + CountFor(C5, violations) + CountFor(C6, violations) + CountFor(Other, violations)
  }

  /** Every violation is counted under exactly one constraint. */
  lemma {:induction false} CountsPartition(violations: seq<ConstraintViolation>)
    ensures TotalCount(violations) == |violations|
  {
    if violations != [] { CountsPartition(violations[1..]); }
  }

  /** Every violation the re-check reports is counted under the constraint it breaks. */
  lemma {:induction false} ViolationsAreCounted(day: RoutedDay, world: World, c: ConstraintViolation)
    requires c in Violations(day, world)
    ensures ConstraintFor(c.code) != Other
    ensures ConstraintFor(c.code) == C4 <==> c.attractionId.None?
    ensures ConstraintFor(c.code) == C6 <==> c.previousId.Some?
    ensures ConstraintFor(c.code) == C1 ==>
      exists i ::
        && 0 <= i < |day.visits|
        && c.attractionId == Some(day.visits[i].attraction.id) && !IsOpenOn(day.visits[i].attraction, day.visitDate)
    ensures ConstraintFor(c.code) == C5 ==>
      exists i ::
        && 0 <= i < |day.visits|
        && c.attractionId == Some(day.visits[i].attraction.id)
        && !(day.visitDate in world.weather && WeatherPermits(day.visits[i].attraction, world.weather[day.visitDate]))
    ensures ConstraintFor(c.code) == C2 ==>
      exists i ::
        && 0 <= i < |day.visits|
        && c.attractionId == Some(day.visits[i].attraction.id)
        && !(WindowMet(day.visits[i], day.visitDate) && DurationMet(day.visits[i]))
  {
    hide Violations, IsOpenOn, WeatherPermits, ResolveEffectiveWindow, DurationMet;
    ViolationsExact(day, world, c);
  }

  lemma {:induction false} NothingReported(validations: seq<RouteValidation>)
    ensures CodesReported(validations) == [] <==>
      forall i :: 0 <= i < |validations| ==> validations[i].violations == []
  {
    var parts := Map((v: RouteValidation) => v.violations, validations);
    if CodesReported(validations) != [] {
      FlattenMember(parts, Flatten(parts)[0]);
    }
    if i :| 0 <= i < |validations| && validations[i].violations != [] {
      FlattenMember(parts, validations[i].violations[0]);
      assert parts[i] == validations[i].violations;
    }
  }

  // ---- the gate --------------------------------------------------------------------------------------

  function Ids(attractions: seq<Attraction>): seq<int> {
    Map(IdOf, attractions)
  }

  function EvaluateSolverQuality(plan: ItineraryPlan, inputs: seq<Attraction>): Outcome<QualityReport> {
    if !NoDuplicates(Ids(inputs)) then Raised(DuplicateAttraction)
    else
      var accounting := AccountFor(Ids(inputs), Ids(Outcomes(plan)));
      var violations := CodesReported(plan.validations);
      var total := TotalCount(violations);
      Ok(QualityReport(
        accounting,
        seq(6, k requires 0 <= k < 6 => CountFor(CONSTRAINTS[k], violations)),
        total,
        accounting.conserved && total == 0))
  }

  /** The report counts C1, C2, C4, C5, C6 and anything else in this order, and all violations. */
  lemma {:induction false} CountsAreExact(plan: ItineraryPlan, inputs: seq<Attraction>)
    requires NoDuplicates(Ids(inputs))
    ensures
      var report, violations := EvaluateSolverQuality(plan, inputs).value, CodesReported(plan.validations);
      && report.counts == [
           CountFor(C1, violations), CountFor(C2, violations), CountFor(C4, violations), CountFor(C5, violations),
           CountFor(C6, violations), CountFor(Other, violations)]
      && report.hardViolations == |violations|
  {
    hide CodesReported, AccountFor, Outcomes, CountFor;
    CountsPartition(CodesReported(plan.validations));
  }

  /** The gate passes exactly when the input and outcome ids agree as multisets and no day
      reports any violation. */
  lemma {:induction false} GateIsExact(plan: ItineraryPlan, inputs: seq<Attraction>)
    requires NoDuplicates(Ids(inputs))
    ensures EvaluateSolverQuality(plan, inputs).Ok?
    ensures EvaluateSolverQuality(plan, inputs).value.gatePassed <==>
      && multiset(Ids(inputs)) == multiset(Ids(Outcomes(plan)))
      && forall i :: 0 <= i < |plan.validations| ==> plan.validations[i].violations == []
  {
    hide CodesReported, AccountFor, Outcomes;
    ConservedIffSameIds(Ids(inputs), Ids(Outcomes(plan)));
    CountsPartition(CodesReported(plan.validations));
    NothingReported(plan.validations);
  }

  // ---- from preferences to a gated itinerary -----------------------------------------------------------

  lemma {:induction false} LongerRatioIsLonger(attraction: Attraction, ratio: real)
    requires ratio >= DEFAULT_DURATION_RATIO
    ensures MinimumDuration(attraction, ratio) >= MinimumDuration(attraction, DEFAULT_DURATION_RATIO)
  {
    CeilScaledMonotone(attraction.suggestedDuration, DEFAULT_DURATION_RATIO, ratio);
  }

  /** Whatever the first step plans keeps C1 and C5 and no id twice: all the second step can
      object to is a buffer below one or a stay below the C2 floor, and from the floor upwards
      there is no such stay. */
  lemma {:induction false} AssignedPlanIsWellFormed(
    preferences: seq<AttractionPreference>, tripDates: seq<Date>, weather: Weather, anchors: TripTimeAnchors,
    mode: TravelMode, ratio: Option<real>, world: World)
    requires A.AssignSpec(preferences, tripDates, weather, anchors, mode, ratio).Ok? && world.weather == weather
    ensures
      var step1 := A.AssignSpec(preferences, tripDates, weather, anchors, mode, ratio).value;
      && SeparateInput(step1)
      && (WellFormed(step1, world) <==> CanRoute(step1, world))
      && (CanRoute(step1, world) <==>
            && (world.bufferRatio >= 1.0 || NothingPlanned(step1.days))
            && StaysLongEnough(step1))
      && (A.RatioOf(mode, ratio) >= DEFAULT_DURATION_RATIO ==> StaysLongEnough(step1))
  {
    hide MinimumDuration, MayVisitOn, Justified, PlannedAttractions, RequiredMinutes, EnergyOf, A.AssignSpec,
         ResolveEffectiveWindow, DistinctIds, CheckOf, SeparateInput, NothingPlanned, AllFitting;
    Step1Outcome(preferences, tripDates, weather, anchors, mode, ratio);
    var plan := A.AssignSpec(preferences, tripDates, weather, anchors, mode, ratio).value;
    var trip := A.TripOf(tripDates, weather, mode, ratio);
    AssignedIdsAreApart(preferences, plan);
    forall i, j | 0 <= i < |plan.days| && 0 <= j < |plan.days[i].allocations|
      ensures plan.days[i].allocations[j].assignedDate == plan.days[i].visitDate
      ensures MayVisitOn(plan.days[i].allocations[j].attraction, plan.days[i].visitDate, world.weather)
      ensures A.RatioOf(mode, ratio) >= DEFAULT_DURATION_RATIO ==>
        plan.days[i].allocations[j].requiredDurationMin
        >= MinimumDuration(plan.days[i].allocations[j].attraction, DEFAULT_DURATION_RATIO)
    {
      assert DaySound(plan.days[i], trip);
      assert AllocationSound(plan.days[i].allocations[j], plan.days[i].visitDate, plan.days[i].bounds, trip);
      if A.RatioOf(mode, ratio) >= DEFAULT_DURATION_RATIO {
        LongerRatioIsLonger(plan.days[i].allocations[j].attraction, trip.ratio);
      }
    }
    forall i | 0 <= i < |plan.days|
      ensures AllFitting(plan.days[i].allocations, plan.days[i].visitDate) <==>
        forall j :: 0 <= j < |plan.days[i].allocations| ==>
          plan.days[i].allocations[j].requiredDurationMin
          >= MinimumDuration(plan.days[i].allocations[j].attraction, DEFAULT_DURATION_RATIO)
    {
      FittingIsLongEnough(plan.days[i]);
    }
  }

  lemma {:induction false} FittingIsLongEnough(day: DayPlan)
    requires forall j :: 0 <= j < |day.allocations| ==> day.allocations[j].assignedDate == day.visitDate
    ensures AllFitting(day.allocations, day.visitDate) <==>
      forall j :: 0 <= j < |day.allocations| ==>
        day.allocations[j].requiredDurationMin >= MinimumDuration(day.allocations[j].attraction, DEFAULT_DURATION_RATIO)
  {
    hide MinimumDuration;
    if AllFitting(day.allocations, day.visitDate) {
      forall j | 0 <= j < |day.allocations|
        ensures Fitting(day.allocations[j], day.visitDate)
      {
        assert day.allocations[j] in day.allocations;
      }
    }
  }

  /** Every planned stay reaches the C2 floor of its attraction. */
  predicate StaysLongEnough(step1: Step1Plan) {
    forall i, j :: 0 <= i < |step1.days| && 0 <= j < |step1.days[i].allocations| ==>
      step1.days[i].allocations[j].requiredDurationMin
      >= MinimumDuration(step1.days[i].allocations[j].attraction, DEFAULT_DURATION_RATIO)
  }

  lemma {:induction false} AssignedIdsAreApart(preferences: seq<AttractionPreference>, plan: Step1Plan)
    requires multiset(Step1Attractions(plan)) == multiset(A.PreferenceAttractions(preferences))
    requires NoDuplicates(Map((a: Attraction) => a.id, A.PreferenceAttractions(preferences)))
    requires forall i, j :: 0 <= i < j < |plan.days| ==> plan.days[i].visitDate < plan.days[j].visitDate
    ensures CheckOf(plan.days).None? && SeparateInput(plan)
  {
    hide PlannedAttractions, DistinctIds;
    PreferencesAreDistinct(preferences);
    DistinctIdsPermute(A.PreferenceAttractions(preferences), Step1Attractions(plan));
    var planned, left := PlannedAttractions(plan.days), A.UnplacedAttractionsOf(plan.unplaced);
    DistinctIdsPart(planned, Step1Attractions(plan));
    DistinctIdsPart(planned + left, Step1Attractions(plan));
    DistinctMeansApart(planned, left);
    DistinctMeansNoDuplicates(planned);
  }

  lemma {:induction false} DistinctMeansNoDuplicates(a: seq<Attraction>)
    requires DistinctIds(a)
    ensures NoDuplicates(Map(IdOf, a))
  {
  }

  lemma {:induction false} DistinctMeansApart(a: seq<Attraction>, b: seq<Attraction>)
    requires DistinctIds(a + b)
    ensures forall x, y :: x in a && y in b ==> x.id != y.id
  {
    var ids := Map(IdOf, a + b);
    forall x, y | x in a && y in b
      ensures x.id != y.id
    {
      var i :| 0 <= i < |a| && a[i] == x;
      var j :| 0 <= j < |b| && b[j] == y;
      assert ids[i] != ids[|a| + j];
    }
  }

  lemma {:induction false} PreferencesAreDistinct(preferences: seq<AttractionPreference>)
    requires NoDuplicates(Map((a: Attraction) => a.id, A.PreferenceAttractions(preferences)))
    ensures DistinctIds(A.PreferenceAttractions(preferences))
  {
    assert Map((a: Attraction) => a.id, A.PreferenceAttractions(preferences))
        == Map(IdOf, A.PreferenceAttractions(preferences));
  }

  /** The inputs the first step accepts. */
  ghost predicate AcceptableInput(
    preferences: seq<AttractionPreference>, tripDates: seq<Date>, weather: Weather, mode: TravelMode, ratio: Option<real>)
  {
    && tripDates != []
    && (forall d :: d in weather ==> d in tripDates)
    && (forall i, j :: 0 <= i < j < |preferences| ==> preferences[i].attraction.id != preferences[j].attraction.id)
    && (forall i :: 0 <= i < |preferences| ==> preferences[i].preferredDate in tripDates)
    && 0.0 < A.RatioOf(mode, ratio) <= 1.0
  }

  lemma {:induction false} AcceptableHasNoError(preferences: seq<AttractionPreference>, n: nat, dates: seq<Date>)
    requires n <= |preferences|
    requires forall i, j :: 0 <= i < j < |preferences| ==> preferences[i].attraction.id != preferences[j].attraction.id
    requires forall i :: 0 <= i < |preferences| ==> preferences[i].preferredDate in dates
    ensures A.FirstPreferenceError(preferences, n, dates).None?
  {
    if n > 0 { AcceptableHasNoError(preferences, n - 1, dates); }
  }

  /** The first step raises exactly on the inputs it does not accept. */
  lemma {:induction false} AssignRaisesIff(
    preferences: seq<AttractionPreference>, tripDates: seq<Date>, weather: Weather, anchors: TripTimeAnchors,
    mode: TravelMode, ratio: Option<real>)
    ensures A.AssignSpec(preferences, tripDates, weather, anchors, mode, ratio).Ok? <==>
      AcceptableInput(preferences, tripDates, weather, mode, ratio)
  {
    hide SortedSet, A.OrderedEligible, A.RejectedOf, A.BuildDays, A.InitialLoads;
    var dates := SortedSet(tripDates);
    EmptyExact(tripDates);
    if A.FirstPreferenceError(preferences, |preferences|, dates).None? {
      NoErrorMeansDistinct(preferences, |preferences|, dates);
    }
    if AcceptableInput(preferences, tripDates, weather, mode, ratio) {
      AcceptableHasNoError(preferences, |preferences|, dates);
    }
  }

  /** An itinerary and the report of the gate it went through. */
  datatype Solved = Solved(plan: ItineraryPlan, report: QualityReport)

  /** The inputs the whole run accepts: those the first step accepts, whose planned stays all
      reach the C2 floor and whose buffer is at least one unless nothing is planned. */
  ghost predicate SolvableInput(
    preferences: seq<AttractionPreference>, tripDates: seq<Date>, anchors: TripTimeAnchors, mode: TravelMode,
    ratio: Option<real>, world: World)
  {
    && AcceptableInput(preferences, tripDates, world.weather, mode, ratio)
    && var step1 := A.AssignSpec(preferences, tripDates, world.weather, anchors, mode, ratio);
       && step1.Ok?
       && (world.bufferRatio >= 1.0 || NothingPlanned(step1.value.days))
       && StaysLongEnough(step1.value)
  }

  /** The whole run, whatever the search answers within its model.  It raises exactly on the
      inputs that are not solvable; otherwise the gate passes, every day is hard-feasible, served the
      best dinner and within the traveller's own times, and every input attraction is scheduled, unplaced or data-rejected
      exactly once. */
  method PlanTrip(
    preferences: seq<AttractionPreference>, tripDates: seq<Date>, anchors: TripTimeAnchors, mode: TravelMode,
    ratio: Option<real>, world: World, oracle: Oracle)
    returns (r: Outcome<Solved>)
    requires OracleObeys(world, oracle)
    ensures r.Ok? <==> SolvableInput(preferences, tripDates, anchors, mode, ratio, world)
    ensures r.Ok? ==>
      && r.value.report.gatePassed
      && multiset(Outcomes(r.value.plan)) == multiset(A.PreferenceAttractions(preferences))
      && HardSafe(r.value.plan, world)
      && KeepsTripTimes(r.value.plan, tripDates, anchors)
      && EvaluateSolverQuality(r.value.plan, A.PreferenceAttractions(preferences)) == Ok(r.value.report)
  {
    hide OracleObeys, WellFormed, CanRoute, HardSafe, Outcomes, ItinerarySpec, A.AssignSpec, AcceptableInput,
         Step1Attractions, DistinctIds, EvaluateSolverQuality, SeparateInput, NothingPlanned, StaysLongEnough, KeepsTripTimes;
    AssignRaisesIff(preferences, tripDates, world.weather, anchors, mode, ratio);
    var step1 := A.AssignDays(preferences, tripDates, world.weather, anchors, mode, ratio);
    if step1.Raised? { return Raised(step1.error); }
    AssignedPlanIsWellFormed(preferences, tripDates, world.weather, anchors, mode, ratio, world);
    ItineraryRoutesIff(step1.value, world, oracle);
    var routed := RouteItinerary(step1.value, world, oracle);
    if routed.Raised? { return Raised(routed.error); }
    ItineraryIsSafe(step1.value, world, oracle);
    TripTimesAreKept(preferences, tripDates, world.weather, anchors, mode, ratio, world, oracle);
    Step1Conserves(preferences, tripDates, world.weather, anchors, mode, ratio);
    ItineraryConserves(step1.value, world, oracle);
    SafeConservedPasses(routed.value, A.PreferenceAttractions(preferences), world);
    var report := EvaluateSolverQuality(routed.value, A.PreferenceAttractions(preferences));
    r := Ok(Solved(routed.value, report.value));
  }

  /** A duration ratio from the C2 floor and a buffer from one make every accepted input solvable. */
  lemma {:induction false} FloorsSuffice(
    preferences: seq<AttractionPreference>, tripDates: seq<Date>, anchors: TripTimeAnchors, mode: TravelMode,
    ratio: Option<real>, world: World)
    requires AcceptableInput(preferences, tripDates, world.weather, mode, ratio)
    requires A.RatioOf(mode, ratio) >= DEFAULT_DURATION_RATIO && world.bufferRatio >= 1.0
    ensures SolvableInput(preferences, tripDates, anchors, mode, ratio, world)
  {
    hide AcceptableInput, A.AssignSpec, CanRoute, WellFormed, SeparateInput, NothingPlanned, StaysLongEnough;
    AssignRaisesIff(preferences, tripDates, world.weather, anchors, mode, ratio);
    AssignedPlanIsWellFormed(preferences, tripDates, world.weather, anchors, mode, ratio, world);
  }

  // ---- one attraction on one day -------------------------------------------------------------------------

  const MUSEUM: Attraction := AttractionRecord(1, {}, {}, {}, 60, [], true, false, 1, true, false, true)

  const CLEAR_DAY: Weather := map[1 := DailyWeather(Forecast, Normal)]

  /** Arriving at nine and leaving at nine. */
  const DAY_TRIP: TripTimeAnchors := TripTimeAnchors(540, 0, 1260, 0, 0)

  lemma {:induction false} MuseumIsPlanned(ratio: real)
    requires 0.0 < ratio <= 1.0
    ensures
      var step1 := A.AssignSpec([AttractionPreference(MUSEUM, 1, None)], [1], CLEAR_DAY, DAY_TRIP, Speed, Some(ratio));
      && step1.Ok? && |step1.value.days| == 1 && |step1.value.days[0].allocations| == 1
      && step1.value.days[0].allocations[0].attraction == MUSEUM
      && step1.value.days[0].allocations[0].requiredDurationMin == MinimumDuration(MUSEUM, ratio)
  {
    hide MinimumDuration, A.OrderedEligible, A.CandidateDates, A.DateReasons, MonthDayOf;
    var preference := AttractionPreference(MUSEUM, 1, None);
    var trip := A.TripOf([1], CLEAR_DAY, Speed, Some(ratio));
    assert [1][1..] == [] && trip.dates == [1];
    OneEligible(preference);
    var initial := A.InitialLoads([1], 1, DAY_TRIP);
    var load := A.DayLoad(1, DayTimeBounds(540, 1260), [], 0, 0);
    assert A.InitialLoads([1], 0, DAY_TRIP) == map[];
    assert initial == map[1 := load];
    MuseumHasNoObstacle(preference, initial, trip);
    OneCandidate(preference, initial, trip);
    var final := A.AssignFirst(initial, [preference], 1, trip);
    assert A.AssignFirst(initial, [preference], 0, trip) == A.AssignState(initial, []);
    assert final.loads == map[1 := A.WithAllocation(load, A.AllocationFor(preference, 1, trip))];
    assert A.BuildDays([1][..0], final.loads) == [];
    assert A.BuildDays([1], final.loads) == [A.DayPlanOf(final.loads[1])];
    assert A.FirstPreferenceError([preference], 0, [1]).None?;
  }

  lemma {:induction false} OneEligible(p: AttractionPreference)
    requires A.GateCode(p.attraction).None?
    ensures A.OrderedEligible([p]) == [p]
  {
    assert [p][1..] == [];
    assert A.EligibleOf([p]) == [p];
  }

  lemma {:induction false} MuseumHasNoObstacle(p: AttractionPreference, loads: A.Loads, trip: A.Trip)
    requires p.attraction == MUSEUM && 0.0 < trip.ratio <= 1.0 && trip.weather == CLEAR_DAY
    requires loads == map[1 := A.DayLoad(1, DayTimeBounds(540, 1260), [], 0, 0)]
    ensures A.DateReasons(p, 1, loads, trip) == []
  {
    CeilScaledMonotone(60, trip.ratio, 1.0);
    assert 60 as real * 1.0 == 60 as real;
  }

  lemma {:induction false} OneCandidate(p: AttractionPreference, loads: A.Loads, trip: A.Trip)
    requires A.DateReasons(p, 1, loads, trip) == []
    ensures A.CandidateDates(p, [1], loads, trip) == [1]
  {
    hide A.DateReasons;
    assert A.CandidateDates(p, [1][..0], loads, trip) == [];
  }

  /** Below either floor the run can raise: half of an hour is too short a stay, and a buffer
      below one cannot be routed. */
  lemma {:induction false} FloorsAreNeeded(world: World)
    requires world.weather == CLEAR_DAY
    ensures AcceptableInput([AttractionPreference(MUSEUM, 1, None)], [1], CLEAR_DAY, Speed, Some(0.5))
    ensures !SolvableInput([AttractionPreference(MUSEUM, 1, None)], [1], DAY_TRIP, Speed, Some(0.5), world)
    ensures AcceptableInput([AttractionPreference(MUSEUM, 1, None)], [1], CLEAR_DAY, Speed, Some(1.0))
    ensures
      SolvableInput([AttractionPreference(MUSEUM, 1, None)], [1], DAY_TRIP, Speed, Some(1.0), world)
      <==> world.bufferRatio >= 1.0
  {
    hide A.AssignSpec;
    MuseumIsPlanned(0.5);
    MuseumIsPlanned(1.0);
    assert MinimumDuration(MUSEUM, 0.5) == 30 && MinimumDuration(MUSEUM, DEFAULT_DURATION_RATIO) == 36;
    assert MinimumDuration(MUSEUM, 1.0) == 60;
  }

  lemma {:induction false} Step1Conserves(
    preferences: seq<AttractionPreference>, tripDates: seq<Date>, weather: Weather, anchors: TripTimeAnchors,
    mode: TravelMode, ratio: Option<real>)
    requires A.AssignSpec(preferences, tripDates, weather, anchors, mode, ratio).Ok?
    ensures
      multiset(Step1Attractions(A.AssignSpec(preferences, tripDates, weather, anchors, mode, ratio).value))
      == multiset(A.PreferenceAttractions(preferences))
    ensures DistinctIds(A.PreferenceAttractions(preferences))
  {
    hide A.AssignSpec, DaySound, Justified, Step1Attractions;
    Step1Outcome(preferences, tripDates, weather, anchors, mode, ratio);
    PreferencesAreDistinct(preferences);
  }

  lemma {:induction false} SafeConservedPasses(plan: ItineraryPlan, inputs: seq<Attraction>, world: World)
    requires HardSafe(plan, world) && DistinctIds(inputs)
    requires multiset(Outcomes(plan)) == multiset(inputs)
    ensures EvaluateSolverQuality(plan, inputs).Ok? && EvaluateSolverQuality(plan, inputs).value.gatePassed
  {
    hide Outcomes, HardFeasible;
    GateIsExact(plan, inputs);
    MapMultiset(IdOf, Outcomes(plan), inputs);
  }
}
