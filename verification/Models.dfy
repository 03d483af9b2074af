/** The records the itinerary solver passes between its stages.  Minutes are
    integers counted from midnight, dates are proleptic Gregorian ordinals
    (1 is Monday, January 1 of year 1). */
module Models {
  import opened Prelude

  type Date = int

  // ---- calendar -------------------------------------------------------------

  datatype MonthDay = MonthDay(month: int, day: int)

  /** Days per month in a leap year: the calendar recurring rules are written for. */
  function DaysInMonth(month: int): int {
    if month == 2 then 29
    else if month == 4 || month == 6 || month == 9 || month == 11 then 30
    else 31
  }

  predicate ValidMonthDay(md: MonthDay) {
    1 <= md.month <= 12 && 1 <= md.day <= DaysInMonth(md.month)
  }

  function DaysBeforeMonth(month: int, leap: bool): int {
    var extra := if leap then 1 else 0;
    if month <= 1 then 0
    else if month == 2 then 31
    else if month == 3 then 59 + extra
    else if month == 4 then 90 + extra
    else if month == 5 then 120 + extra
    else if month == 6 then 151 + extra
    else if month == 7 then 181 + extra
    else if month == 8 then 212 + extra
    else if month == 9 then 243 + extra
    else if month == 10 then 273 + extra
    else if month == 11 then 304 + extra
    else 334 + extra
  }

  /** The month whose days contain day-of-year `day`, counted from zero. */
  function MonthContaining(day: int, leap: bool): (month: int)
    requires 0 <= day < (if leap then 366 else 365)
    ensures 1 <= month <= 12
    ensures DaysBeforeMonth(month, leap) <= day
    ensures day - DaysBeforeMonth(month, leap) < DaysInMonth(month)
  {
    var extra := if leap then 1 else 0;
    if day < 31 then 1
    else if day < 59 + extra then 2
    else if day < 90 + extra then 3
    else if day < 120 + extra then 4
    else if day < 151 + extra then 5
    else if day < 181 + extra then 6
    else if day < 212 + extra then 7
    else if day < 243 + extra then 8
    else if day < 273 + extra then 9
    else if day < 304 + extra then 10
    else if day < 334 + extra then 11
    else 12
  }

  /** Month and day of an ordinal, by 400-, 100-, 4- and 1-year cycles. */
  function MonthDayOf(date: Date): (md: MonthDay)
    ensures ValidMonthDay(md)
  {
    var inCycle400 := (date - 1) % 146097;
    var n100 := inCycle400 / 36524;
    var inCycle100 := inCycle400 % 36524;
    var n4 := inCycle100 / 1461;
    var inCycle4 := inCycle100 % 1461;
    var n1 := inCycle4 / 365;
    var dayOfYear := inCycle4 % 365;
    if n1 == 4 || n100 == 4 then MonthDay(12, 31)
    else
      var leap := n1 == 3 && (n4 != 24 || n100 == 3);
      var month := MonthContaining(dayOfYear, leap);
      MonthDay(month, dayOfYear - DaysBeforeMonth(month, leap) + 1)
  }

  /** ISO weekday: Monday is 1, Sunday is 7. */
  function IsoWeekday(date: Date): int {
    (date - 1) % 7 + 1
  }

  /** The days between two dates. */
  function DaysApart(d: Date, e: Date): nat {
    if d <= e then e - d else d - e
  }

  // ---- codes ------------------------------------------------------------------

  datatype RejectionCode =
    | DataUnverified
    | DataConflict
    | Inactive
    | NoAvailableDate
    | NoMatchingTimeRule
    | TimeRuleConflict
    | ArrivalAfterLatestArrival
    | ClosedOnDate
    | ExtremeWeatherOutdoor
    | NoWeatherSafeDate
    | WeatherDataMissing
    | OdDataMissing
    | TransitInfeasible
    | EmptyDayWindow
    | DayCapacityExceeded
    | RoutingUnplaced
    | NoFeasibleRoute
    | SolverTimeLimit
    | AnchorViolation
    | VisitDurationInsufficient
    | ReassignmentDisplacesExisting

  datatype WeatherBasis = Forecast | Climate

  datatype WeatherSeverity = Normal | Advisory | Extreme

  datatype TravelMode = Speed | NormalPace | Leisure

  datatype TimeBucket = Morning | Afternoon | Evening

  datatype VisitPeriodOutcome = PreferredPeriod | AcceptablePeriod | FallbackPeriod

  // ---- attractions ------------------------------------------------------------

  datatype TimeRule = TimeRule(
    start: MonthDay, end: MonthDay, openMin: int, closeMin: int, lastEntryMin: Option<int>)

  /** Whether a recurring rule covers a calendar day; a range may wrap the year. */
  predicate MatchesMonthDay(rule: TimeRule, md: MonthDay) {
    var current := md.month * 100 + md.day;
    var start := rule.start.month * 100 + rule.start.day;
    var end := rule.end.month * 100 + rule.end.day;
    if start <= end then start <= current <= end else current >= start || current <= end
  }

  predicate Matches(rule: TimeRule, date: Date) {
    MatchesMonthDay(rule, MonthDayOf(date))
  }

  datatype AttractionRecord = AttractionRecord(
    id: int,
    closeDays: set<int>,
    openOnDates: set<Date>,
    closedOnDates: set<Date>,
    suggestedDuration: int,
    timeRules: seq<TimeRule>,
    isAlwaysOpen: bool,
    isIndoor: bool,
    energyLevel: int,
    dataVerified: bool,
    conflict: bool,
    active: bool)

  predicate ValidAttraction(a: AttractionRecord) {
    && (forall d :: d in a.closeDays ==> 1 <= d <= 7)
    && a.openOnDates !! a.closedOnDates
    && a.suggestedDuration > 0
    && 1 <= a.energyLevel <= 5
  }

  type Attraction = a: AttractionRecord | ValidAttraction(a)
    witness AttractionRecord(0, {}, {}, {}, 60, [], true, false, 1, true, false, true)

  datatype RejectedAttraction = RejectedAttraction(attraction: Attraction, code: RejectionCode)

  datatype DailyWeather = DailyWeather(basis: WeatherBasis, severity: WeatherSeverity)

  type Weather = map<Date, DailyWeather>

  /** Pre-fetched travel minutes; `None` is a missing origin-destination pair. */
  type Provider = (int, int) -> Option<nat>

  /** What one planning run reads and never changes. */
  datatype World = World(provider: Provider, weather: Weather, bufferRatio: real)

  /** Travel minutes stretched by the transit buffer and rounded up. */
  function Buffered(travel: nat, ratio: real): int {
    Ceil(travel as real * ratio)
  }

  // ---- step 1 -----------------------------------------------------------------

  datatype BoundsRecord = DayTimeBounds(startMin: int, endMin: int)

  type DayTimeBounds = b: BoundsRecord | 0 <= b.startMin <= b.endMin
    witness DayTimeBounds(0, 0)

  datatype TripTimeAnchors = TripTimeAnchors(
    arrivalMin: nat,
    stationToCityMin: nat,
    departureMin: nat,
    stationEarlyMin: nat,
    lastVisitToStationMin: nat)

  datatype PreferenceRecord = VisitPeriodPreference(preferred: TimeBucket, acceptable: set<TimeBucket>)

  type VisitPeriodPreference = p: PreferenceRecord | p.preferred !in p.acceptable
    witness VisitPeriodPreference(Morning, {})

  datatype AttractionPreference = AttractionPreference(
    attraction: Attraction, preferredDate: Date, visitPeriod: Option<VisitPeriodPreference>)

  datatype AllocationRecord = DayAllocation(
    attraction: Attraction,
    preferredDate: Date,
    assignedDate: Date,
    requiredDurationMin: int,
    visitPeriod: Option<VisitPeriodPreference>)

  type DayAllocation = a: AllocationRecord | a.requiredDurationMin > 0
    witness DayAllocation(
      AttractionRecord(0, {}, {}, {}, 60, [], true, false, 1, true, false, true), 0, 0, 60, None)

  datatype DayPlan = DayPlan(
    visitDate: Date,
    bounds: DayTimeBounds,
    allocations: seq<DayAllocation>,
    usedDurationMin: int,
    energyTotal: int)

  datatype DateRejection = DateRejection(visitDate: Date, reasons: seq<RejectionCode>)

  datatype UnplacedAttraction = UnplacedAttraction(
    attraction: Attraction,
    preferredDate: Date,
    rejectionCode: RejectionCode,
    dateRejections: seq<DateRejection>)

  datatype Step1Plan = Step1Plan(
    days: seq<DayPlan>,
    unplaced: seq<UnplacedAttraction>,
    dataRejected: seq<RejectedAttraction>,
    travelMode: TravelMode)

  function AllocationAttraction(a: DayAllocation): Attraction { a.attraction }

  function AllocationAttractions(s: seq<DayAllocation>): seq<Attraction> {
    Map(AllocationAttraction, s)
  }

  function AllocationIds(s: seq<DayAllocation>): seq<int> {
    Map((a: DayAllocation) => a.attraction.id, s)
  }

  function RequiredMinutes(s: seq<DayAllocation>): int {
    Sum(Map((a: DayAllocation) => a.requiredDurationMin, s))
  }

  function EnergyOf(s: seq<DayAllocation>): int {
    Sum(Map((a: DayAllocation) => a.attraction.energyLevel, s))
  }

  /** Derived day totals recomputed for a new list of allocations. */
  function RebuildDayPlan(base: DayPlan, allocations: seq<DayAllocation>): DayPlan {
    DayPlan(base.visitDate, base.bounds, allocations, RequiredMinutes(allocations), EnergyOf(allocations))
  }

  // ---- routes -----------------------------------------------------------------

  datatype VisitPeriodEvaluation = VisitPeriodEvaluation(
    preference: VisitPeriodPreference,
    actual: TimeBucket,
    outcome: VisitPeriodOutcome,
    deviationMin: int)

  datatype RouteVisit = RouteVisit(
    attraction: Attraction,
    arrivalMin: int,
    leaveMin: int,
    plannedDurationMin: int,
    travelFromPrevious: Option<nat>,
    bufferedTravelMin: int,
    visitPeriod: Option<VisitPeriodEvaluation>)

  datatype RouteUnplaced = RouteUnplaced(attraction: Attraction, code: RejectionCode)

  datatype RoutedDay = RoutedDay(
    visitDate: Date,
    bounds: DayTimeBounds,
    visits: seq<RouteVisit>,
    unplaced: seq<RouteUnplaced>,
    totalTravelMin: int,
    totalBufferedMin: int)

  datatype ConstraintViolation = ConstraintViolation(
    code: RejectionCode, attractionId: Option<int>, previousId: Option<int>)

  datatype RouteValidation = RouteValidation(valid: bool, violations: seq<ConstraintViolation>)

  function VisitAttractions(visits: seq<RouteVisit>): seq<Attraction> {
    Map((v: RouteVisit) => v.attraction, visits)
  }

  function UnplacedAttractions(s: seq<RouteUnplaced>): seq<Attraction> {
    Map((u: RouteUnplaced) => u.attraction, s)
  }

  /** Everything a routed day accounts for, scheduled first. */
  function Accounted(day: RoutedDay): seq<Attraction> {
    VisitAttractions(day.visits) + UnplacedAttractions(day.unplaced)
  }

  function TravelOf(v: RouteVisit): int {
    if v.travelFromPrevious.Some? then v.travelFromPrevious.value else 0
  }

  function TravelTotal(visits: seq<RouteVisit>): int {
    Sum(Map(TravelOf, visits))
  }

  function BufferedTotal(visits: seq<RouteVisit>): int {
    Sum(Map((v: RouteVisit) => v.bufferedTravelMin, visits))
  }
}
