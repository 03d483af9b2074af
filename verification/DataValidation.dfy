/** Agreement between the raw-data validator and the solver's recurring date rules. */
module DataValidation {
  import opened Prelude
  import opened Models
  import opened TimeWindows

  /** A rule whose strings have been parsed: clock values up to 24:00, calendar days of a
      leap year. */
  datatype ParsedRecord = ParsedRule(
    start: MonthDay, end: MonthDay, openMin: int, closeMin: int, lastEntryMin: Option<int>, crossesMidnight: bool)

  predicate ClockValue(minutes: int) { 0 <= minutes <= 1440 }

  type ParsedRule = r: ParsedRecord |
    && ValidMonthDay(r.start) && ValidMonthDay(r.end)
    && ClockValue(r.openMin) && ClockValue(r.closeMin)
    && (r.lastEntryMin.Some? ==> ClockValue(r.lastEntryMin.value))
    witness ParsedRule(MonthDay(1, 1), MonthDay(1, 1), 0, 1440, None, false)

  // ---- the solver's constructor --------------------------------------------------------------

  /** The rule the solver builds, with next-day times unrolled; `None` where it raises. */
  function FromStrings(rule: ParsedRule): Option<TimeRule> {
    if rule.closeMin <= rule.openMin && !rule.crossesMidnight then None
    else if rule.closeMin > rule.openMin && rule.crossesMidnight then None
    else
      var close := if rule.closeMin <= rule.openMin then rule.closeMin + 1440 else rule.closeMin;
      var lastEntry :=
        if rule.lastEntryMin.Some? && rule.crossesMidnight && rule.lastEntryMin.value < rule.openMin then
          Some(rule.lastEntryMin.value + 1440)
        else rule.lastEntryMin;
      if lastEntry.Some? && !(rule.openMin <= lastEntry.value <= close) then None
      else Some(TimeRule(rule.start, rule.end, rule.openMin, close, lastEntry))
  }

  /** An accepted rule keeps its dates and its opening time; it closes at the first occurrence of the
      closing time after it opens, at most a day later, or at once if it opens at 24:00 to close at 0:00;
      and the last entry is an occurrence of its time between the two. */
  lemma {:induction false} AcceptedRuleIsUnrolled(rule: ParsedRule)
    requires FromStrings(rule).Some?
    ensures
      var r := FromStrings(rule).value;
      && r.start == rule.start && r.end == rule.end && r.openMin == rule.openMin
      && r.openMin <= r.closeMin <= r.openMin + 1440 && (r.closeMin - rule.closeMin) % 1440 == 0
      && (r.openMin == r.closeMin <==> rule.openMin == 1440 && rule.closeMin == 0)
      && (r.lastEntryMin.Some? <==> rule.lastEntryMin.Some?)
      && (r.lastEntryMin.Some? ==>
            && r.openMin <= r.lastEntryMin.value <= r.closeMin
            && (r.lastEntryMin.value - rule.lastEntryMin.value) % 1440 == 0)
  {
  }

  // ---- the validator's checks --------------------------------------------------------------------

  datatype RuleError = NextDayCloseRequired | CloseNotAfterOpen | LastEntryPrecedesOpen | LastEntryExceedsClose | Overlaps

  datatype Finding = Finding(index: int, error: RuleError)

  function OrderFindings(rule: ParsedRule, index: int): seq<Finding> {
    if rule.crossesMidnight then
      if rule.closeMin > rule.openMin then [Finding(index, NextDayCloseRequired)] else []
    else if rule.closeMin <= rule.openMin then [Finding(index, CloseNotAfterOpen)]
    else []
  }

  function EntryFindings(rule: ParsedRule, index: int): seq<Finding> {
    var close := if rule.crossesMidnight then rule.closeMin + 1440 else rule.closeMin;
    if rule.lastEntryMin.None? then []
    else
      var entry :=
        if rule.crossesMidnight && rule.lastEntryMin.value < rule.openMin then rule.lastEntryMin.value + 1440
        else rule.lastEntryMin.value;
      if entry < rule.openMin then [Finding(index, LastEntryPrecedesOpen)]
      else if entry > close then [Finding(index, LastEntryExceedsClose)]
      else []
  }

  /** Day of the year in a leap year, from 1 to 366. */
  function YearDay(md: MonthDay): int {
    DaysBeforeMonth(md.month, true) + md.day
  }

  /** The days of the year a date range covers; a range may wrap the year. */
  function DateRangeDays(start: MonthDay, end: MonthDay): set<int> {
    var first, last := YearDay(start), YearDay(end);
    if first <= last then Range(first, last + 1) else Range(first, 367) + Range(1, last + 1)
  }

  predicate OverlapsEarlier(rules: seq<ParsedRule>, i: nat)
    requires i < |rules|
  {
    exists j :: 0 <= j < i
      && DateRangeDays(rules[j].start, rules[j].end) * DateRangeDays(rules[i].start, rules[i].end) != {}
  }

  function TimeOrderFindings(rules: seq<ParsedRule>, n: nat): seq<Finding>
    requires n <= |rules|
  {
    if n == 0 then [] else TimeOrderFindings(rules, n - 1) + OrderFindings(rules[n - 1], n - 1)
  }

  function EntryAndOverlapFindings(rules: seq<ParsedRule>, n: nat): seq<Finding>
    requires n <= |rules|
  {
    if n == 0 then []
    else
      EntryAndOverlapFindings(rules, n - 1)
      + EntryFindings(rules[n - 1], n - 1)
      + OverlapFindings(rules, n - 1)
  }

  function OverlapFindings(rules: seq<ParsedRule>, i: nat): seq<Finding>
    requires i < |rules|
  {
    if OverlapsEarlier(rules, i) then [Finding(i, Overlaps)] else []
  }

  method TimeOrderErrors(rules: seq<ParsedRule>) returns (errors: seq<Finding>)
    ensures errors == TimeOrderFindings(rules, |rules|)
  {
    errors := [];
    for i := 0 to |rules|
      invariant errors == TimeOrderFindings(rules, i)
    {
      if rules[i].crossesMidnight {
        if rules[i].closeMin > rules[i].openMin { errors := errors + [Finding(i, NextDayCloseRequired)]; }
      } else if rules[i].closeMin <= rules[i].openMin {
        errors := errors + [Finding(i, CloseNotAfterOpen)];
      }
    }
  }

  /** Collects the days occupied so far; a rule whose days meet them overlaps an earlier one. */
  method LastEntryAndOverlapErrors(rules: seq<ParsedRule>) returns (errors: seq<Finding>)
    ensures errors == EntryAndOverlapFindings(rules, |rules|)
  {
    hide EntryFindings, DateRangeDays;
    errors := [];
    var occupied: set<int> := {};
    for i := 0 to |rules|
      invariant errors == EntryAndOverlapFindings(rules, i)
      invariant forall d :: d in occupied <==> exists j :: 0 <= j < i && d in DateRangeDays(rules[j].start, rules[j].end)
    {
      var days := DateRangeDays(rules[i].start, rules[i].end);
      errors := errors + EntryFindings(rules[i], i);
      OverlapMeansShared(rules, i, occupied);
      if occupied * days != {} { errors := errors + [Finding(i, Overlaps)]; }
      occupied := occupied + days;
    }
  }

  lemma {:induction false} OverlapMeansShared(rules: seq<ParsedRule>, i: nat, occupied: set<int>)
    requires i < |rules|
    requires forall d :: d in occupied <==> exists j :: 0 <= j < i && d in DateRangeDays(rules[j].start, rules[j].end)
    ensures occupied * DateRangeDays(rules[i].start, rules[i].end) != {} <==> OverlapsEarlier(rules, i)
  {
    hide DateRangeDays;
    var days := DateRangeDays(rules[i].start, rules[i].end);
    if occupied * days != {} {
      var d := MemberOf(occupied * days);
      var j :| 0 <= j < i && d in DateRangeDays(rules[j].start, rules[j].end);
      assert d in DateRangeDays(rules[j].start, rules[j].end) * days;
    }
    if OverlapsEarlier(rules, i) {
      var j :| 0 <= j < i && DateRangeDays(rules[j].start, rules[j].end) * days != {};
      var d := MemberOf(DateRangeDays(rules[j].start, rules[j].end) * days);
      assert d in occupied * days;
    }
  }

  /** Each finding names its fault: a close that should lie on the next day but does not, or lies
      before the opening without leave to; and, with next-day times unrolled, a last entry before the
      opening or after the close. */
  lemma {:induction false} FindingsNameFaults(rule: ParsedRule, index: int)
    ensures
      var next := rule.crossesMidnight;
      var close := if next then rule.closeMin + 1440 else rule.closeMin;
      && (OrderFindings(rule, index) == [Finding(index, NextDayCloseRequired)] <==> next && rule.closeMin > rule.openMin)
      && (OrderFindings(rule, index) == [Finding(index, CloseNotAfterOpen)] <==> !next && rule.closeMin <= rule.openMin)
      && (EntryFindings(rule, index) == [Finding(index, LastEntryPrecedesOpen)] <==>
            !next && rule.lastEntryMin.Some? && rule.lastEntryMin.value < rule.openMin)
      && (EntryFindings(rule, index) == [Finding(index, LastEntryExceedsClose)] <==>
            rule.lastEntryMin.Some?
            && (if rule.lastEntryMin.value >= rule.openMin then rule.lastEntryMin.value > close
                else next && rule.lastEntryMin.value > rule.closeMin))
      && |OrderFindings(rule, index)| <= 1 && |EntryFindings(rule, index)| <= 1
  {
  }

  // ---- agreement on single rules -------------------------------------------------------------------

  /** A parsed rule passes the order and last-entry checks exactly when the solver's
      constructor accepts it. */
  lemma {:induction false} RuleChecksMatchConstructor(rule: ParsedRule, index: int)
    ensures OrderFindings(rule, index) == [] && EntryFindings(rule, index) == [] <==> FromStrings(rule).Some?
  {
  }

  // ---- agreement on the calendar ---------------------------------------------------------------------

  /** Day-of-year numbers and month-day codes order the calendar alike. */
  lemma {:induction false} YearDayIsMonotone(a: MonthDay, b: MonthDay)
    requires ValidMonthDay(a) && ValidMonthDay(b)
    ensures YearDay(a) <= YearDay(b) <==> a.month * 100 + a.day <= b.month * 100 + b.day
    ensures 1 <= YearDay(a) <= 366
  {
  }

  /** The calendar day with a given number. */
  function FromYearDay(day: int): (md: MonthDay)
    requires 1 <= day <= 366
    ensures ValidMonthDay(md) && YearDay(md) == day
  {
    var month := MonthContaining(day - 1, true);
    MonthDay(month, day - DaysBeforeMonth(month, true))
  }

  /** The validator's day sets and the solver's matching are the same relation. */
  lemma {:induction false} RangeDaysMatch(rule: TimeRule, md: MonthDay)
    requires ValidMonthDay(rule.start) && ValidMonthDay(rule.end) && ValidMonthDay(md)
    ensures YearDay(md) in DateRangeDays(rule.start, rule.end) <==> MatchesMonthDay(rule, md)
  {
    YearDayIsMonotone(rule.start, rule.end);
    YearDayIsMonotone(rule.start, md);
    YearDayIsMonotone(md, rule.end);
  }

  function SolverRule(rule: ParsedRule): TimeRule
    requires FromStrings(rule).Some?
  {
    FromStrings(rule).value
  }

  /** Some calendar day is covered by two of the first `n` rules. */
  ghost predicate SharedDay(rules: seq<ParsedRule>, n: nat)
    requires n <= |rules| && forall i :: 0 <= i < |rules| ==> FromStrings(rules[i]).Some?
  {
    exists md, i, j :: ValidMonthDay(md) && 0 <= i < j < n
      && MatchesMonthDay(SolverRule(rules[i]), md) && MatchesMonthDay(SolverRule(rules[j]), md)
  }

  lemma {:induction false} OverlapIffShared(a: ParsedRule, b: ParsedRule)
    requires FromStrings(a).Some? && FromStrings(b).Some?
    ensures DateRangeDays(a.start, a.end) * DateRangeDays(b.start, b.end) != {} <==>
      exists md :: ValidMonthDay(md) && MatchesMonthDay(SolverRule(a), md) && MatchesMonthDay(SolverRule(b), md)
  {
    hide MatchesMonthDay;
    var both := DateRangeDays(a.start, a.end) * DateRangeDays(b.start, b.end);
    if both != {} {
      var d := MemberOf(both);
      RangeWithinYear(a.start, a.end, d);
      var md := FromYearDay(d);
      RangeDaysMatch(SolverRule(a), md);
      RangeDaysMatch(SolverRule(b), md);
      assert ValidMonthDay(md) && MatchesMonthDay(SolverRule(a), md) && MatchesMonthDay(SolverRule(b), md);
    }
    if md :| ValidMonthDay(md) && MatchesMonthDay(SolverRule(a), md) && MatchesMonthDay(SolverRule(b), md) {
      RangeDaysMatch(SolverRule(a), md);
      RangeDaysMatch(SolverRule(b), md);
      assert YearDay(md) in both;
    }
  }

  lemma {:induction false} RangeWithinYear(start: MonthDay, end: MonthDay, d: int)
    requires ValidMonthDay(start) && ValidMonthDay(end) && d in DateRangeDays(start, end)
    ensures 1 <= d <= 366
  {
    YearDayIsMonotone(start, end);
    YearDayIsMonotone(end, start);
  }

  predicate NoOverlapReported(findings: seq<Finding>) {
    forall i :: 0 <= i < |findings| ==> findings[i].error != Overlaps
  }

  /** The overlap check fails exactly when some calendar month-day matches two rules. */
  lemma {:induction false} OverlapCheckIsExact(rules: seq<ParsedRule>, n: nat)
    requires n <= |rules| && forall i :: 0 <= i < |rules| ==> FromStrings(rules[i]).Some?
    ensures NoOverlapReported(EntryAndOverlapFindings(rules, n)) <==> !SharedDay(rules, n)
  {
    hide EntryFindings, FromStrings, NoOverlapReported, SharedDay, OverlapsEarlier, SharesWithEarlier;
    NothingShared(rules);
    if n > 0 {
      OverlapCheckIsExact(rules, n - 1);
      EntryFindingsAreNotOverlaps(rules[n - 1], n - 1);
      OverlapsEarlierIffShared(rules, n - 1);
      SharedDayStep(rules, n - 1);
      var front, entry := EntryAndOverlapFindings(rules, n - 1), EntryFindings(rules[n - 1], n - 1);
      NoOverlapConcat(front, entry);
      NoOverlapConcat(front + entry, OverlapFindings(rules, n - 1));
      OverlapFindingsExact(rules, n - 1);
    }
  }

  lemma {:induction false} NothingShared(rules: seq<ParsedRule>)
    requires forall i :: 0 <= i < |rules| ==> FromStrings(rules[i]).Some?
    ensures NoOverlapReported([]) && !SharedDay(rules, 0)
  {
    hide FromStrings;
  }

  lemma {:induction false} OverlapFindingsExact(rules: seq<ParsedRule>, i: nat)
    requires i < |rules|
    ensures NoOverlapReported(OverlapFindings(rules, i)) <==> !OverlapsEarlier(rules, i)
  {
    hide OverlapsEarlier;
    if OverlapsEarlier(rules, i) { assert OverlapFindings(rules, i)[0].error == Overlaps; }
  }

  lemma {:induction false} NoOverlapConcat(a: seq<Finding>, b: seq<Finding>)
    ensures NoOverlapReported(a + b) <==> NoOverlapReported(a) && NoOverlapReported(b)
  {
    if NoOverlapReported(a + b) {
      forall i | 0 <= i < |b|
        ensures b[i].error != Overlaps
      {
        assert (a + b)[|a| + i] == b[i];
      }
      forall i | 0 <= i < |a|
        ensures a[i].error != Overlaps
      {
        assert (a + b)[i] == a[i];
      }
    }
  }

  lemma {:induction false} EntryFindingsAreNotOverlaps(rule: ParsedRule, index: int)
    ensures NoOverlapReported(EntryFindings(rule, index))
  {
  }

  /** Rule `i` shares a calendar day with an earlier one. */
  ghost predicate SharesWithEarlier(rules: seq<ParsedRule>, i: nat)
    requires i < |rules| && forall k :: 0 <= k < |rules| ==> FromStrings(rules[k]).Some?
  {
    exists md, j :: ValidMonthDay(md) && 0 <= j < i
      && MatchesMonthDay(SolverRule(rules[j]), md) && MatchesMonthDay(SolverRule(rules[i]), md)
  }

  lemma {:induction false} OverlapsEarlierIffShared(rules: seq<ParsedRule>, i: nat)
    requires i < |rules| && forall k :: 0 <= k < |rules| ==> FromStrings(rules[k]).Some?
    ensures OverlapsEarlier(rules, i) <==> SharesWithEarlier(rules, i)
  {
    hide DateRangeDays, MatchesMonthDay, FromStrings;
    if OverlapsEarlier(rules, i) {
      var j :| 0 <= j < i
        && DateRangeDays(rules[j].start, rules[j].end) * DateRangeDays(rules[i].start, rules[i].end) != {};
      OverlapIffShared(rules[j], rules[i]);
    }
    if SharesWithEarlier(rules, i) {
      var md, j :| ValidMonthDay(md) && 0 <= j < i
        && MatchesMonthDay(SolverRule(rules[j]), md) && MatchesMonthDay(SolverRule(rules[i]), md);
      OverlapIffShared(rules[j], rules[i]);
    }
  }

  lemma {:induction false} SharedDayStep(rules: seq<ParsedRule>, n: nat)
    requires n < |rules| && forall k :: 0 <= k < |rules| ==> FromStrings(rules[k]).Some?
    ensures SharedDay(rules, n + 1) <==> SharedDay(rules, n) || SharesWithEarlier(rules, n)
  {
    hide MatchesMonthDay, FromStrings, ValidMonthDay;
  }

  // ---- a passing record never conflicts ---------------------------------------------------------------

  /** The solver's rules of a record whose rules 2 and 3 pass. */
  ghost predicate BuiltFrom(attraction: Attraction, rules: seq<ParsedRule>) {
    && |attraction.timeRules| == |rules|
    && forall i :: 0 <= i < |rules| ==> FromStrings(rules[i]) == Some(attraction.timeRules[i])
  }

  lemma {:induction false} PassingRulesAreAccepted(rules: seq<ParsedRule>, n: nat)
    requires n <= |rules|
    requires TimeOrderFindings(rules, n) == [] && EntryAndOverlapFindings(rules, n) == []
    ensures forall i :: 0 <= i < n ==> FromStrings(rules[i]).Some?
  {
    hide FromStrings, OrderFindings, EntryFindings, OverlapFindings;
    if n > 0 {
      PassingRulesAreAccepted(rules, n - 1);
      RuleChecksMatchConstructor(rules[n - 1], n - 1);
    }
  }

  /** A record that passes rules 2 and 3 is accepted by the solver and never yields a time
      rule conflict, on any date whatsoever. */
  lemma {:induction false} PassingRecordNeverConflicts(attraction: Attraction, rules: seq<ParsedRule>, date: Date, ratio: real)
    requires TimeOrderFindings(rules, |rules|) == [] && EntryAndOverlapFindings(rules, |rules|) == []
    requires BuiltFrom(attraction, rules)
    ensures ResolveEffectiveWindow(attraction, date, ratio) != NoWindow(TimeRuleConflict)
  {
    hide MatchesMonthDay, FromStrings, MinimumDuration, MonthDayOf;
    PassingRulesAreAccepted(rules, |rules|);
    OverlapCheckIsExact(rules, |rules|);
    MatchingRulesMembers(attraction.timeRules, date);
    assert forall i :: 0 <= i < |rules| ==> SolverRule(rules[i]) == attraction.timeRules[i];
  }

  /** The validator's target-date check, for a record that is not always open. */
  predicate TargetDateCovered(rules: seq<ParsedRule>, date: Date) {
    exists i :: 0 <= i < |rules| && YearDay(MonthDayOf(date)) in DateRangeDays(rules[i].start, rules[i].end)
  }

  /** For a passing record the target-date check succeeds exactly when the solver resolves a
      window on that date. */
  lemma {:induction false} TargetDateCheckIsExact(attraction: Attraction, rules: seq<ParsedRule>, date: Date, ratio: real)
    requires TimeOrderFindings(rules, |rules|) == [] && EntryAndOverlapFindings(rules, |rules|) == []
    requires BuiltFrom(attraction, rules) && !attraction.isAlwaysOpen
    ensures TargetDateCovered(rules, date) <==> ResolveEffectiveWindow(attraction, date, ratio).Window?
  {
    hide MatchesMonthDay, MinimumDuration, MonthDayOf, DateRangeDays, TimeOrderFindings, EntryAndOverlapFindings,
         ResolveEffectiveWindow;
    PassingRecordNeverConflicts(attraction, rules, date, ratio);
    MatchingRulesMembers(attraction.timeRules, date);
    ResolvesUnlessUnmatched(attraction, date, ratio);
    forall i | 0 <= i < |rules|
      ensures YearDay(MonthDayOf(date)) in DateRangeDays(rules[i].start, rules[i].end) <==> Matches(attraction.timeRules[i], date)
    {
      RangeDaysMatch(attraction.timeRules[i], MonthDayOf(date));
    }
  }

  lemma {:induction false} ResolvesUnlessUnmatched(attraction: Attraction, date: Date, ratio: real)
    requires !attraction.isAlwaysOpen
    ensures ResolveEffectiveWindow(attraction, date, ratio) == NoWindow(NoMatchingTimeRule) <==>
      MatchingRules(attraction.timeRules, date) == []
  {
  }
}
