/** Soft visit-period preferences: the nearest occurrence of a daily time bucket. */
module VisitPeriods {
  import opened Prelude
  import opened Models

  const DAY: int := 1440

  datatype Interval = Interval(start: int, end: int)

  /** First and last local minute of a bucket. */
  function LocalBounds(bucket: TimeBucket): Interval {
    match bucket
    case Morning => Interval(0, 719)
    case Afternoon => Interval(720, 1019)
    case Evening => Interval(1020, 1439)
  }

  /** Defined for every minute; the source accepts only non-negative ones. */
  function TimeBucketFor(arrival: int): TimeBucket {
    var minute := arrival % DAY;
    if minute < 720 then Morning else if minute < 1020 then Afternoon else Evening
  }

  /** The occurrence of a bucket on day number `offset`. */
  function Occurrence(bucket: TimeBucket, offset: int): Interval {
    Interval(offset * DAY + LocalBounds(bucket).start, offset * DAY + LocalBounds(bucket).end)
  }

  function Gap(interval: Interval, earliest: int, latest: int): int {
    if interval.end < earliest then earliest - interval.end
    else if interval.start > latest then interval.start - latest
    else 0
  }

  /** Lexicographic comparison of the search key (gap, distance of the start). */
  predicate Closer(a: Interval, b: Interval, earliest: int, latest: int) {
    var gapA, gapB := Gap(a, earliest, latest), Gap(b, earliest, latest);
    gapA < gapB || (gapA == gapB && Abs(a.start - earliest) < Abs(b.start - earliest))
  }

  /** The first offset of `low..high` whose occurrence has the least key. */
  function BestOffset(bucket: TimeBucket, earliest: int, latest: int, low: int, high: int): (best: int)
    requires low <= high
    ensures low <= best <= high
    ensures forall k :: low <= k <= high ==> !Closer(Occurrence(bucket, k), Occurrence(bucket, best), earliest, latest)
    ensures forall k :: low <= k < best ==> Closer(Occurrence(bucket, best), Occurrence(bucket, k), earliest, latest)
    decreases high - low
  {
    if low == high then low
    else
      var rest := BestOffset(bucket, earliest, latest, low + 1, high);
      if Closer(Occurrence(bucket, rest), Occurrence(bucket, low), earliest, latest) then rest else low
  }

  /** The bounded scan over day offsets. */
  function PreferredOffset(earliest: int, latest: int, bucket: TimeBucket): int
    requires earliest <= latest
  {
    BestOffset(bucket, earliest, latest, earliest / DAY - 1, latest / DAY + 1)
  }

  function PreferredPeriodBounds(earliest: int, latest: int, bucket: TimeBucket): Interval
    requires earliest <= latest
  {
    Occurrence(bucket, PreferredOffset(earliest, latest, bucket))
  }

  function EvaluateVisitPeriod(arrival: int, preference: VisitPeriodPreference): VisitPeriodEvaluation {
    var actual := TimeBucketFor(arrival);
    var preferred := PreferredPeriodBounds(arrival, arrival, preference.preferred);
    VisitPeriodEvaluation(
      preference,
      actual,
      if actual == preference.preferred then PreferredPeriod
      else if actual in preference.acceptable then AcceptablePeriod
      else FallbackPeriod,
      Max(Max(preferred.start - arrival, arrival - preferred.end), 0))
  }

  /** An offset outside the scanned range loses to the nearer end of the range. */
  lemma {:induction false} OutsideRangeLoses(bucket: TimeBucket, earliest: int, latest: int, k: int)
    requires earliest <= latest
    requires k < earliest / DAY - 1 || k > latest / DAY + 1
    ensures
      var edge := if k < earliest / DAY - 1 then earliest / DAY - 1 else latest / DAY + 1;
      Closer(Occurrence(bucket, edge), Occurrence(bucket, k), earliest, latest)
  {
    assert DAY * (earliest / DAY) <= earliest < DAY * (earliest / DAY) + DAY;
    assert DAY * (latest / DAY) <= latest < DAY * (latest / DAY) + DAY;
  }

  /** Scanning the bounded range finds the least key over every integer offset, and the
      earliest occurrence that attains it. */
  lemma {:induction false} PreferredOffsetIsOptimal(earliest: int, latest: int, bucket: TimeBucket, k: int)
    requires earliest <= latest
    ensures
      var best := PreferredOffset(earliest, latest, bucket);
      && !Closer(Occurrence(bucket, k), Occurrence(bucket, best), earliest, latest)
      && (k < best ==> Closer(Occurrence(bucket, best), Occurrence(bucket, k), earliest, latest))
  {
    if k < earliest / DAY - 1 || k > latest / DAY + 1 {
      OutsideRangeLoses(bucket, earliest, latest, k);
    }
  }

  /** The deviation is the distance to the nearest minute of the preferred bucket: no
      occurrence is nearer and one is that near. */
  lemma {:induction false} DeviationIsDistance(arrival: int, preference: VisitPeriodPreference, k: int)
    ensures
      var deviation := EvaluateVisitPeriod(arrival, preference).deviationMin;
      && deviation <= Gap(Occurrence(preference.preferred, k), arrival, arrival)
      && deviation ==
        Gap(Occurrence(preference.preferred, PreferredOffset(arrival, arrival, preference.preferred)), arrival, arrival)
  {
    PreferredOffsetIsOptimal(arrival, arrival, preference.preferred, k);
  }

  /** The deviation is zero exactly in the preferred bucket and never exceeds half of the
      time the bucket is closed for. */
  lemma {:induction false} DeviationBound(arrival: int, preference: VisitPeriodPreference)
    ensures
      var evaluation := EvaluateVisitPeriod(arrival, preference);
      && (evaluation.deviationMin == 0 <==> evaluation.outcome == PreferredPeriod)
      && 0 <= evaluation.deviationMin
      && evaluation.deviationMin <=
        (match preference.preferred case Morning => 360 case Afternoon => 570 case Evening => 510)
  {
    var day := arrival / DAY;
    assert arrival == day * DAY + arrival % DAY;
    DeviationIsDistance(arrival, preference, day - 1);
    DeviationIsDistance(arrival, preference, day);
    DeviationIsDistance(arrival, preference, day + 1);
    var best := PreferredOffset(arrival, arrival, preference.preferred);
    if best < day {
      assert best * DAY <= (day - 1) * DAY;
    } else if best > day {
      assert best * DAY >= (day + 1) * DAY;
    }
  }

  lemma {:induction false} GapRepeatsNextDay(bucket: TimeBucket, k: int, arrival: int)
    ensures
      Gap(Occurrence(bucket, k + 1), arrival + DAY, arrival + DAY) == Gap(Occurrence(bucket, k), arrival, arrival)
  {
  }

  lemma {:induction false} DeviationNotLaterNextDay(arrival: int, preference: VisitPeriodPreference)
    ensures
      EvaluateVisitPeriod(arrival + DAY, preference).deviationMin
      <= EvaluateVisitPeriod(arrival, preference).deviationMin
  {
    var best := PreferredOffset(arrival, arrival, preference.preferred);
    DeviationIsDistance(arrival, preference, best);
    DeviationIsDistance(arrival + DAY, preference, best + 1);
    GapRepeatsNextDay(preference.preferred, best, arrival);
  }

  lemma {:induction false} DeviationNotEarlierNextDay(arrival: int, preference: VisitPeriodPreference)
    ensures
      EvaluateVisitPeriod(arrival, preference).deviationMin
      <= EvaluateVisitPeriod(arrival + DAY, preference).deviationMin
  {
    var best := PreferredOffset(arrival + DAY, arrival + DAY, preference.preferred);
    DeviationIsDistance(arrival + DAY, preference, best);
    DeviationIsDistance(arrival, preference, best - 1);
    GapRepeatsNextDay(preference.preferred, best - 1, arrival);
  }

  lemma {:induction false} BucketRepeatsNextDay(arrival: int)
    ensures TimeBucketFor(arrival + DAY) == TimeBucketFor(arrival)
  {
    assert (arrival + DAY) % DAY == arrival % DAY;
  }

  lemma {:induction false} EvaluationRepeatsNextDay(arrival: int, preference: VisitPeriodPreference)
    ensures EvaluateVisitPeriod(arrival + DAY, preference) == EvaluateVisitPeriod(arrival, preference)
  {
    BucketRepeatsNextDay(arrival);
    DeviationNotLaterNextDay(arrival, preference);
    DeviationNotEarlierNextDay(arrival, preference);
  }

  /** The evaluation depends only on the local minute. */
  lemma {:induction false} EvaluationIsPeriodic(
    arrival: int, later: int, preference: VisitPeriodPreference, days: nat)
    requires later == arrival + 1440 * days
    ensures EvaluateVisitPeriod(later, preference) == EvaluateVisitPeriod(arrival, preference)
    decreases days
  {
    if days == 0 {
      assert later == arrival;
    } else {
      var previous := later - DAY;
      EvaluationIsPeriodic(arrival, previous, preference, days - 1);
      EvaluationRepeatsNextDay(previous, preference);
      assert previous + DAY == later;
    }
  }

  /** The arrival lies in some day's occurrence of the bucket. */
  predicate Within(arrival: int, bucket: TimeBucket, offset: int) {
    Occurrence(bucket, offset).start <= arrival <= Occurrence(bucket, offset).end
  }

  lemma {:induction false} WithinItsDay(arrival: int, bucket: TimeBucket, offset: int)
    ensures Within(arrival, bucket, offset) <==> offset == arrival / DAY && TimeBucketFor(arrival) == bucket
  {
    assert arrival == arrival / DAY * DAY + arrival % DAY;
    assert offset * DAY <= arrival <= offset * DAY + 1439 ==> arrival / DAY == offset;
  }

  lemma {:induction false} BucketIsWithin(arrival: int, bucket: TimeBucket)
    ensures TimeBucketFor(arrival) == bucket <==> exists offset :: Within(arrival, bucket, offset)
  {
    hide Within, TimeBucketFor;
    WithinItsDay(arrival, bucket, arrival / DAY);
    if offset :| Within(arrival, bucket, offset) { WithinItsDay(arrival, bucket, offset); }
  }

  /** The outcome is the preferred one in an occurrence of the preferred bucket, acceptable in one of
      an accepted bucket, and the fallback exactly outside of all of them. */
  lemma {:induction false} OutcomeIsExact(arrival: int, preference: VisitPeriodPreference)
    ensures
      var outcome := EvaluateVisitPeriod(arrival, preference).outcome;
      && (outcome == PreferredPeriod <==> exists offset :: Within(arrival, preference.preferred, offset))
      && (outcome == AcceptablePeriod <==>
            exists bucket, offset :: bucket in preference.acceptable && Within(arrival, bucket, offset))
      && (outcome == FallbackPeriod <==>
            forall bucket, offset :: bucket == preference.preferred || bucket in preference.acceptable ==>
              !Within(arrival, bucket, offset))
  {
    hide TimeBucketFor, Within, PreferredPeriodBounds;
    BucketIsWithin(arrival, Morning);
    BucketIsWithin(arrival, Afternoon);
    BucketIsWithin(arrival, Evening);
    var actual := TimeBucketFor(arrival);
    assert exists offset :: Within(arrival, actual, offset);
    forall bucket, offset | Within(arrival, bucket, offset)
      ensures bucket == actual
    {
      assert bucket == Morning || bucket == Afternoon || bucket == Evening;
    }
  }
}
