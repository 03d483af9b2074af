/** Closeness to a reviewed baseline: separately computed scores and explanations agree. */
module Closeness {
  import opened Prelude
  import opened Models
  import opened VisitPeriods

  datatype Component = DayAssignment | TimeBucketMatch | SameDay | Adjacency

  datatype VisitRecord = VisitExpectation(
    id: int, preferredDay: Option<Date>, acceptableDays: set<Date>,
    preferredBuckets: set<TimeBucket>, acceptableBuckets: set<TimeBucket>, fixedDay: bool, fixedBucket: bool)

  type VisitExpectation = e: VisitRecord |
    (e.fixedDay ==> e.preferredDay.Some?) && (e.fixedBucket ==> e.preferredBuckets != {})
    witness VisitExpectation(0, None, {}, {}, {}, false, false)

  /** `ids` lists the distinct attractions in ascending order. */
  datatype SameDayRecord = SameDayExpectation(ids: seq<int>, weight: real, fixed: bool)

  type SameDayExpectation = e: SameDayRecord | StrictlyIncreasing(e.ids) && |e.ids| >= 2 && e.weight > 0.0
    ghost witness SameDayExpectation([0, 1], 1.0, false)

  datatype AdjacencyRecord = AdjacencyExpectation(first: int, second: int, directional: bool, weight: real, fixed: bool)

  type AdjacencyExpectation = e: AdjacencyRecord | e.first != e.second && e.weight > 0.0
    witness AdjacencyExpectation(0, 1, false, 1.0, false)

  datatype Baseline = Baseline(
    visits: seq<VisitExpectation>, sameDay: seq<SameDayExpectation>, adjacency: seq<AdjacencyExpectation>)

  datatype OutcomeKind = PreferredValue | AcceptableValue | Matched | Missed | Missing

  datatype ExpectationOutcome = ExpectationOutcome(component: Component, score: real, fixed: bool, kind: OutcomeKind)

  datatype ComponentScore = ComponentScore(score: Option<real>, matched: real, total: real)

  // ---- what was actually planned ----------------------------------------------------------------

  datatype Actual = Actual(day: Date, bucket: TimeBucket)

  type Actuals = map<int, Actual>

  function DayActuals(day: RoutedDay, n: nat, before: Actuals): Actuals
    requires n <= |day.visits|
  {
    if n == 0 then before
    else
      DayActuals(day, n - 1, before)[
        day.visits[n - 1].attraction.id := Actual(day.visitDate, TimeBucketFor(day.visits[n - 1].arrivalMin))]
  }

  function ActualsOf(days: seq<RoutedDay>): Actuals {
    if days == [] then map[]
    else DayActuals(days[|days| - 1], |days[|days| - 1].visits|, ActualsOf(days[..|days| - 1]))
  }

  function Neighbours(visits: seq<RouteVisit>): set<(int, int)> {
    if |visits| < 2 then {}
    else
      Neighbours(visits[..|visits| - 1])
      + {(visits[|visits| - 2].attraction.id, visits[|visits| - 1].attraction.id)}
  }

  function Directed(days: seq<RoutedDay>): set<(int, int)> {
    if days == [] then {} else Directed(days[..|days| - 1]) + Neighbours(days[|days| - 1].visits)
  }

  // ---- explanations, expectation by expectation ---------------------------------------------------

  function ValueOutcome<T(==)>(actual: Option<T>, preferred: set<T>, acceptable: set<T>): (real, OutcomeKind) {
    if actual.None? then (0.0, Missing)
    else if actual.value in preferred then (1.0, PreferredValue)
    else if actual.value in acceptable then (if preferred != {} then 0.7 else 1.0, AcceptableValue)
    else (0.0, Missed)
  }

  function DayOutcome(e: VisitExpectation, actuals: Actuals): seq<ExpectationOutcome> {
    if e.preferredDay.None? && e.acceptableDays == {} then []
    else
      var (score, kind) := ValueOutcome(
        if e.id in actuals then Some(actuals[e.id].day) else None,
        if e.preferredDay.Some? then {e.preferredDay.value} else {},
        e.acceptableDays);
      [ExpectationOutcome(DayAssignment, score, e.fixedDay, kind)]
  }

  function BucketOutcome(e: VisitExpectation, actuals: Actuals): seq<ExpectationOutcome> {
    if e.preferredBuckets == {} && e.acceptableBuckets == {} then []
    else
      var (score, kind) := ValueOutcome(
        if e.id in actuals then Some(actuals[e.id].bucket) else None, e.preferredBuckets, e.acceptableBuckets);
      [ExpectationOutcome(TimeBucketMatch, score, e.fixedBucket, kind)]
  }

  function VisitOutcomes(visits: seq<VisitExpectation>, n: nat, actuals: Actuals): seq<ExpectationOutcome>
    requires n <= |visits|
  {
    if n == 0 then []
    else VisitOutcomes(visits, n - 1, actuals) + DayOutcome(visits[n - 1], actuals) + BucketOutcome(visits[n - 1], actuals)
  }

  /** The days of the planned ones among the first `n` attractions of a group. */
  function PlannedDays(ids: seq<int>, n: nat, actuals: Actuals): seq<Date>
    requires n <= |ids|
  {
    if n == 0 then []
    else PlannedDays(ids, n - 1, actuals) + (if ids[n - 1] in actuals then [actuals[ids[n - 1]].day] else [])
  }

  function SameDayOutcome(e: SameDayExpectation, actuals: Actuals): ExpectationOutcome {
    var days := PlannedDays(e.ids, |e.ids|, actuals);
    var allPresent := |days| == |e.ids|;
    var matched := allPresent && |set i | 0 <= i < |days| :: days[i]| == 1;
    ExpectationOutcome(
      SameDay, if matched then 1.0 else 0.0, e.fixed,
      if matched then Matched else if allPresent then Missed else Missing)
  }

  function AdjacencyOutcome(e: AdjacencyExpectation, directed: set<(int, int)>): ExpectationOutcome {
    var matched := (e.first, e.second) in directed || ((e.second, e.first) in directed && !e.directional);
    ExpectationOutcome(Adjacency, if matched then 1.0 else 0.0, e.fixed, if matched then Matched else Missed)
  }

  function SameDayOutcomes(sameDay: seq<SameDayExpectation>, n: nat, actuals: Actuals): seq<ExpectationOutcome>
    requires n <= |sameDay|
  {
    if n == 0 then [] else SameDayOutcomes(sameDay, n - 1, actuals) + [SameDayOutcome(sameDay[n - 1], actuals)]
  }

  function AdjacencyOutcomes(adjacency: seq<AdjacencyExpectation>, n: nat, directed: set<(int, int)>): seq<ExpectationOutcome>
    requires n <= |adjacency|
  {
    if n == 0 then []
    else AdjacencyOutcomes(adjacency, n - 1, directed) + [AdjacencyOutcome(adjacency[n - 1], directed)]
  }

  function AllOutcomes(b: Baseline, days: seq<RoutedDay>): seq<ExpectationOutcome> {
    VisitOutcomes(b.visits, |b.visits|, ActualsOf(days))
    + SameDayOutcomes(b.sameDay, |b.sameDay|, ActualsOf(days))
    + AdjacencyOutcomes(b.adjacency, |b.adjacency|, Directed(days))
  }

  // ---- what the explanations mean -----------------------------------------------------------------------

  /** The attraction is visited on that day, arriving in that bucket. */
  predicate VisitedOn(days: seq<RoutedDay>, id: int, day: Date, bucket: TimeBucket) {
    exists i, j :: 0 <= i < |days| && 0 <= j < |days[i].visits| && days[i].visits[j].attraction.id == id
      && days[i].visitDate == day && TimeBucketFor(days[i].visits[j].arrivalMin) == bucket
  }

  predicate VisitedThere(day: RoutedDay, n: nat, id: int, bucket: TimeBucket)
    requires n <= |day.visits|
  {
    exists j :: 0 <= j < n && day.visits[j].attraction.id == id && TimeBucketFor(day.visits[j].arrivalMin) == bucket
  }

  /** One of the first `n` visits of the day is to the attraction. */
  predicate Reaches(day: RoutedDay, n: nat, id: int)
    requires n <= |day.visits|
  {
    exists j :: 0 <= j < n && day.visits[j].attraction.id == id
  }

  lemma {:induction false} DayActualsExact(day: RoutedDay, n: nat, before: Actuals, id: int)
    requires n <= |day.visits|
    ensures
      var after := DayActuals(day, n, before);
      && (id in after <==> id in before || Reaches(day, n, id))
      && (id in after && (id !in before || after[id] != before[id]) ==>
            after[id].day == day.visitDate && VisitedThere(day, n, id, after[id].bucket))
  {
    hide TimeBucketFor;
    if n > 0 {
      DayActualsExact(day, n - 1, before, id);
      assert forall bucket :: VisitedThere(day, n - 1, id, bucket) ==> VisitedThere(day, n, id, bucket);
      if day.visits[n - 1].attraction.id == id {
        assert VisitedThere(day, n, id, TimeBucketFor(day.visits[n - 1].arrivalMin));
        assert Reaches(day, n, id);
      }
      if Reaches(day, n - 1, id) {
        var j :| 0 <= j < n - 1 && day.visits[j].attraction.id == id;
        assert Reaches(day, n, id);
      }
    }
  }

  /** An attraction counts as planned exactly if some day visits it, and then on such a day and in the
      period it is reached. */
  lemma {:induction false} ActualsAreExact(days: seq<RoutedDay>, id: int)
    ensures id in ActualsOf(days) <==> exists i :: 0 <= i < |days| && Reaches(days[i], |days[i].visits|, id)
    ensures id in ActualsOf(days) ==> VisitedOn(days, id, ActualsOf(days)[id].day, ActualsOf(days)[id].bucket)
  {
    hide TimeBucketFor, DayActuals, VisitedOn, VisitedThere, Reaches;
    if days != [] {
      var front, last := days[..|days| - 1], days[|days| - 1];
      ActualsAreExact(front, id);
      DayActualsExact(last, |last.visits|, ActualsOf(front), id);
      if id in ActualsOf(days) { VisitedOnLast(days, id, ActualsOf(days)[id].day, ActualsOf(days)[id].bucket); }
      if i :| 0 <= i < |front| && Reaches(front[i], |front[i].visits|, id) {
        assert Reaches(days[i], |days[i].visits|, id);
      }
    }
  }

  lemma {:induction false} VisitedOnLast(days: seq<RoutedDay>, id: int, day: Date, bucket: TimeBucket)
    requires days != []
    ensures
      var front, last := days[..|days| - 1], days[|days| - 1];
      VisitedOn(days, id, day, bucket) <==>
        VisitedOn(front, id, day, bucket) || (last.visitDate == day && VisitedThere(last, |last.visits|, id, bucket))
  {
    hide TimeBucketFor;
    var front, last := days[..|days| - 1], days[|days| - 1];
    if VisitedOn(front, id, day, bucket) {
      var i, j :| 0 <= i < |front| && 0 <= j < |front[i].visits| && front[i].visits[j].attraction.id == id
        && front[i].visitDate == day && TimeBucketFor(front[i].visits[j].arrivalMin) == bucket;
      assert days[i].visits[j].attraction.id == id;
    }
    if last.visitDate == day && VisitedThere(last, |last.visits|, id, bucket) {
      var j :| 0 <= j < |last.visits| && last.visits[j].attraction.id == id
        && TimeBucketFor(last.visits[j].arrivalMin) == bucket;
      assert days[|days| - 1].visits[j].attraction.id == id;
    }
    if VisitedOn(days, id, day, bucket) {
      var i, j :| 0 <= i < |days| && 0 <= j < |days[i].visits| && days[i].visits[j].attraction.id == id
        && days[i].visitDate == day && TimeBucketFor(days[i].visits[j].arrivalMin) == bucket;
      if i < |front| { assert front[i].visits[j].attraction.id == id; }
    }
  }

  predicate FollowsAt(visits: seq<RouteVisit>, first: int, second: int, j: int)
    requires 1 <= j < |visits|
  {
    visits[j - 1].attraction.id == first && visits[j].attraction.id == second
  }

  /** The second is visited directly after the first. */
  predicate DirectlyAfter(visits: seq<RouteVisit>, first: int, second: int) {
    exists j :: 1 <= j < |visits| && FollowsAt(visits, first, second, j)
  }

  lemma {:induction false} NeighboursExact(visits: seq<RouteVisit>, first: int, second: int)
    ensures (first, second) in Neighbours(visits) <==> DirectlyAfter(visits, first, second)
  {
    if |visits| >= 2 {
      var front := visits[..|visits| - 1];
      NeighboursExact(front, first, second);
      assert FollowsAt(visits, first, second, |visits| - 1) <==>
        (first, second) == (visits[|visits| - 2].attraction.id, visits[|visits| - 1].attraction.id);
      forall j | 1 <= j < |front|
        ensures FollowsAt(front, first, second, j) <==> FollowsAt(visits, first, second, j)
      {
      }
      hide FollowsAt;
      if j :| 1 <= j < |visits| && FollowsAt(visits, first, second, j) && j < |front| {
        assert FollowsAt(front, first, second, j);
      }
      if j :| 1 <= j < |front| && FollowsAt(front, first, second, j) {
        assert FollowsAt(visits, first, second, j);
      }
    }
  }

  /** A pair is adjacent exactly if some day visits the second directly after the first. */
  lemma {:induction false} DirectedIsExact(days: seq<RoutedDay>, first: int, second: int)
    ensures (first, second) in Directed(days) <==>
      exists i :: 0 <= i < |days| && DirectlyAfter(days[i].visits, first, second)
  {
    if days != [] {
      hide Neighbours, DirectlyAfter;
      var front := days[..|days| - 1];
      DirectedIsExact(front, first, second);
      NeighboursExact(days[|days| - 1].visits, first, second);
      if i :| 0 <= i < |front| && DirectlyAfter(front[i].visits, first, second) {
        assert DirectlyAfter(days[i].visits, first, second);
      }
    }
  }

  /** Days and periods score one where preferred, and also where only accepted ones were named; an
      accepted one beside a preferred one scores seven tenths; any other, or none, scores nothing. */
  lemma {:induction false} VisitScoresAreExact(e: VisitExpectation, actuals: Actuals)
    ensures
      var planned := e.id in actuals;
      var outcomes := DayOutcome(e, actuals);
      && (outcomes == [] <==> e.preferredDay.None? && e.acceptableDays == {})
      && (outcomes != [] ==>
            && |outcomes| == 1 && outcomes[0].fixed == e.fixedDay
            && (outcomes[0].score == 1.0 <==>
                  planned && (e.preferredDay == Some(actuals[e.id].day)
                              || (e.preferredDay.None? && actuals[e.id].day in e.acceptableDays)))
            && (outcomes[0].score == 0.7 <==>
                  planned && e.preferredDay.Some? && e.preferredDay != Some(actuals[e.id].day)
                  && actuals[e.id].day in e.acceptableDays)
            && (outcomes[0].score == 1.0 || outcomes[0].score == 0.7 || outcomes[0].score == 0.0))
    ensures
      var planned := e.id in actuals;
      var outcomes := BucketOutcome(e, actuals);
      && (outcomes == [] <==> e.preferredBuckets == {} && e.acceptableBuckets == {})
      && (outcomes != [] ==>
            && |outcomes| == 1 && outcomes[0].fixed == e.fixedBucket
            && (outcomes[0].score == 1.0 <==>
                  planned && (actuals[e.id].bucket in e.preferredBuckets
                              || (e.preferredBuckets == {} && actuals[e.id].bucket in e.acceptableBuckets)))
            && (outcomes[0].score == 0.7 <==>
                  planned && e.preferredBuckets != {} && actuals[e.id].bucket !in e.preferredBuckets
                  && actuals[e.id].bucket in e.acceptableBuckets)
            && (outcomes[0].score == 1.0 || outcomes[0].score == 0.7 || outcomes[0].score == 0.0))
  {
  }

  /** The whole group is planned on one day. */
  predicate AllOn(ids: seq<int>, actuals: Actuals, day: Date) {
    forall i :: 0 <= i < |ids| ==> ids[i] in actuals && actuals[ids[i]].day == day
  }

  /** A group matches exactly if one day has all of it; a pair if it is adjacent in its direction, or
      in either if the direction does not matter. */
  lemma {:induction false} GroupsAndPairsAreExact(e: SameDayExpectation, pair: AdjacencyExpectation, days: seq<RoutedDay>)
    ensures
      var actuals, outcome := ActualsOf(days), SameDayOutcome(e, ActualsOf(days));
      && (outcome.score == 1.0 <==> exists d :: AllOn(e.ids, actuals, d))
      && (outcome.score == 1.0 || outcome.score == 0.0) && outcome.fixed == e.fixed
      && (outcome.kind == Missing <==> !AllPlanned(e.ids, actuals))
    ensures
      var outcome := AdjacencyOutcome(pair, Directed(days));
      && (outcome.score == 1.0 <==>
            exists i :: 0 <= i < |days|
              && (DirectlyAfter(days[i].visits, pair.first, pair.second)
                  || (!pair.directional && DirectlyAfter(days[i].visits, pair.second, pair.first))))
      && (outcome.score == 1.0 || outcome.score == 0.0) && outcome.fixed == pair.fixed
  {
    hide ActualsOf, Directed, DirectlyAfter;
    DirectedIsExact(days, pair.first, pair.second);
    DirectedIsExact(days, pair.second, pair.first);
    GroupIsExact(e, ActualsOf(days));
  }

  lemma {:induction false} GroupIsExact(e: SameDayExpectation, actuals: Actuals)
    ensures
      var outcome := SameDayOutcome(e, actuals);
      && (outcome.score == 1.0 <==> exists d :: AllOn(e.ids, actuals, d))
      && (outcome.kind == Missing <==> !AllPlanned(e.ids, actuals))
  {
    hide PlannedDays;
    PlannedDaysExact(e.ids, |e.ids|, actuals);
    SameDayTestsAgree(e, actuals);
    var distinct := GroupDays(e.ids, actuals);
    if AllPlanned(e.ids, actuals) {
      var d := actuals[e.ids[0]].day;
      assert d in distinct;
      if |distinct| == 1 {
        OnlyOne(distinct, d);
        forall i | 0 <= i < |e.ids|
          ensures actuals[e.ids[i]].day == d
        {
          assert actuals[e.ids[i]].day in distinct;
        }
        assert AllOn(e.ids, actuals, d);
      }
      if other :| AllOn(e.ids, actuals, other) {
        assert distinct == {d};
      }
    }
    if other :| AllOn(e.ids, actuals, other) { assert AllPlanned(e.ids, actuals); }
  }

  lemma {:induction false} OnlyOne(s: set<Date>, x: Date)
    requires |s| == 1 && x in s
    ensures s == {x}
  {
    assert |s - {x}| == 0;
    assert s - {x} == {};
  }

  // ---- folding the explanations -----------------------------------------------------------------------

  function ScoreSum(outcomes: seq<ExpectationOutcome>, c: Component): real {
    if outcomes == [] then 0.0
    else
      ScoreSum(outcomes[..|outcomes| - 1], c)
      + (if outcomes[|outcomes| - 1].component == c then outcomes[|outcomes| - 1].score else 0.0)
  }

  function CountOf(outcomes: seq<ExpectationOutcome>, c: Component): nat {
    if outcomes == [] then 0
    else CountOf(outcomes[..|outcomes| - 1], c) + (if outcomes[|outcomes| - 1].component == c then 1 else 0)
  }

  /** Scores weighted by the baseline, outcome by outcome. */
  function WeightedSum(outcomes: seq<ExpectationOutcome>, weights: seq<real>): real
    requires |outcomes| == |weights|
  {
    if outcomes == [] then 0.0
    else
      WeightedSum(outcomes[..|outcomes| - 1], weights[..|weights| - 1])
      + outcomes[|outcomes| - 1].score * weights[|weights| - 1]
  }

  function RealSum(weights: seq<real>): real {
    if weights == [] then 0.0 else RealSum(weights[..|weights| - 1]) + weights[|weights| - 1]
  }

  function FixedTotal(outcomes: seq<ExpectationOutcome>): nat {
    if outcomes == [] then 0
    else FixedTotal(outcomes[..|outcomes| - 1]) + (if outcomes[|outcomes| - 1].fixed then 1 else 0)
  }

  /** Fixed expectations met in full. */
  function FixedMet(outcomes: seq<ExpectationOutcome>): nat {
    if outcomes == [] then 0
    else
      FixedMet(outcomes[..|outcomes| - 1])
      + (if outcomes[|outcomes| - 1].fixed && outcomes[|outcomes| - 1].score == 1.0 then 1 else 0)
  }

  lemma {:induction false} FoldAppend(outcomes: seq<ExpectationOutcome>, o: ExpectationOutcome, c: Component)
    ensures ScoreSum(outcomes + [o], c) == ScoreSum(outcomes, c) + (if o.component == c then o.score else 0.0)
    ensures CountOf(outcomes + [o], c) == CountOf(outcomes, c) + (if o.component == c then 1 else 0)
    ensures FixedTotal(outcomes + [o]) == FixedTotal(outcomes) + (if o.fixed then 1 else 0)
    ensures FixedMet(outcomes + [o]) == FixedMet(outcomes) + (if o.fixed && o.score == 1.0 then 1 else 0)
  {
    assert (outcomes + [o])[..|outcomes|] == outcomes;
  }

  lemma {:induction false} FoldExpectation(visits: seq<VisitExpectation>, n: nat, actuals: Actuals, c: Component)
    requires n < |visits|
    ensures
      var before, after := VisitOutcomes(visits, n, actuals), VisitOutcomes(visits, n + 1, actuals);
      var day, bucket := DayOutcome(visits[n], actuals), BucketOutcome(visits[n], actuals);
      && ScoreSum(after, c) == ScoreSum(before, c)
           + (if c.DayAssignment? && day != [] then day[0].score else 0.0)
           + (if c.TimeBucketMatch? && bucket != [] then bucket[0].score else 0.0)
      && CountOf(after, c) == CountOf(before, c)
           + (if c.DayAssignment? && day != [] then 1 else 0)
           + (if c.TimeBucketMatch? && bucket != [] then 1 else 0)
      && FixedTotal(after) == FixedTotal(before)
           + (if day != [] && day[0].fixed then 1 else 0) + (if bucket != [] && bucket[0].fixed then 1 else 0)
      && FixedMet(after) == FixedMet(before)
           + (if day != [] && day[0].fixed && day[0].score == 1.0 then 1 else 0)
           + (if bucket != [] && bucket[0].fixed && bucket[0].score == 1.0 then 1 else 0)
  {
    hide ScoreSum, CountOf, FixedTotal, FixedMet, ValueOutcome;
    var before := VisitOutcomes(visits, n, actuals);
    var day, bucket := DayOutcome(visits[n], actuals), BucketOutcome(visits[n], actuals);
    assert before + [] == before && (before + day) + [] == before + day;
    if day != [] { FoldAppend(before, day[0], c); }
    if bucket != [] { FoldAppend(before + day, bucket[0], c); }
  }

  // ---- the component scores, computed by their own loops -----------------------------------------------

  predicate Scored(c: ComponentScore) {
    && (c.score.None? <==> c.total == 0.0)
    && (c.score.Some? ==> c.score.value * c.total == c.matched && 0.0 <= c.score.value <= 1.0)
  }

  lemma {:induction false} QuotientScores(matched: real, total: real)
    requires 0.0 <= matched <= total && total > 0.0
    ensures Scored(ComponentScore(Some(matched / total), matched, total))
  {
  }

  /** The day component: its matched and total weight are those of the explanations. */
  method DayAssignmentComponent(visits: seq<VisitExpectation>, actuals: Actuals) returns (c: ComponentScore)
    ensures c.matched == ScoreSum(VisitOutcomes(visits, |visits|, actuals), DayAssignment)
    ensures c.total == CountOf(VisitOutcomes(visits, |visits|, actuals), DayAssignment) as real
    ensures Scored(c)
  {
    hide ScoreSum, CountOf, VisitOutcomes, BucketOutcome;
    var sum, count := 0.0, 0;
    NothingFolded(visits, actuals, DayAssignment);
    for i := 0 to |visits|
      invariant sum == ScoreSum(VisitOutcomes(visits, i, actuals), DayAssignment)
      invariant count == CountOf(VisitOutcomes(visits, i, actuals), DayAssignment)
      invariant 0.0 <= sum <= count as real
    {
      FoldExpectation(visits, i, actuals, DayAssignment);
      var e := visits[i];
      if e.preferredDay.None? && e.acceptableDays == {} { continue; }
      count := count + 1;
      if e.id !in actuals {
      } else if e.preferredDay.Some? && actuals[e.id].day == e.preferredDay.value {
        sum := sum + 1.0;
      } else if actuals[e.id].day in e.acceptableDays {
        sum := sum + (if e.preferredDay.Some? then 0.7 else 1.0);
      }
    }
    c := Averaged(sum, count);
  }

  /** The bucket component: its matched and total weight are those of the explanations. */
  method TimeBucketComponent(visits: seq<VisitExpectation>, actuals: Actuals) returns (c: ComponentScore)
    ensures c.matched == ScoreSum(VisitOutcomes(visits, |visits|, actuals), TimeBucketMatch)
    ensures c.total == CountOf(VisitOutcomes(visits, |visits|, actuals), TimeBucketMatch) as real
    ensures Scored(c)
  {
    hide ScoreSum, CountOf, VisitOutcomes, DayOutcome;
    var sum, count := 0.0, 0;
    NothingFolded(visits, actuals, TimeBucketMatch);
    for i := 0 to |visits|
      invariant sum == ScoreSum(VisitOutcomes(visits, i, actuals), TimeBucketMatch)
      invariant count == CountOf(VisitOutcomes(visits, i, actuals), TimeBucketMatch)
      invariant 0.0 <= sum <= count as real
    {
      FoldExpectation(visits, i, actuals, TimeBucketMatch);
      var e := visits[i];
      if e.preferredBuckets == {} && e.acceptableBuckets == {} { continue; }
      count := count + 1;
      if e.id !in actuals {
      } else if actuals[e.id].bucket in e.preferredBuckets {
        sum := sum + 1.0;
      } else if actuals[e.id].bucket in e.acceptableBuckets {
        sum := sum + (if e.preferredBuckets != {} then 0.7 else 1.0);
      }
    }
    c := Averaged(sum, count);
  }

  lemma {:induction false} NothingFolded(visits: seq<VisitExpectation>, actuals: Actuals, c: Component)
    ensures ScoreSum(VisitOutcomes(visits, 0, actuals), c) == 0.0 && CountOf(VisitOutcomes(visits, 0, actuals), c) == 0
    ensures FixedTotal(VisitOutcomes(visits, 0, actuals)) == 0 && FixedMet(VisitOutcomes(visits, 0, actuals)) == 0
  {
  }

  function Averaged(sum: real, count: nat): (c: ComponentScore)
    requires 0.0 <= sum <= count as real
    ensures Scored(c) && c.matched == sum && c.total == count as real
  {
    if count == 0 then ComponentScore(None, 0.0, 0.0)
    else
      QuotientScores(sum, count as real);
      ComponentScore(Some(sum / count as real), sum, count as real)
  }

  function Weighted(matched: real, total: real): (c: ComponentScore)
    requires 0.0 <= matched <= total
    ensures Scored(c) && c.matched == matched && c.total == total
  {
    if total == 0.0 then ComponentScore(None, 0.0, 0.0)
    else
      QuotientScores(matched, total);
      ComponentScore(Some(matched / total), matched, total)
  }

  /** The set of planned days, as the component loop collects it. */
  function GroupDays(ids: seq<int>, actuals: Actuals): set<Date> {
    set i | 0 <= i < |ids| && ids[i] in actuals :: actuals[ids[i]].day
  }

  predicate AllPlanned(ids: seq<int>, actuals: Actuals) {
    forall i :: 0 <= i < |ids| ==> ids[i] in actuals
  }

  lemma {:induction false} PlannedDaysExact(ids: seq<int>, n: nat, actuals: Actuals)
    requires n <= |ids|
    ensures |PlannedDays(ids, n, actuals)| <= n
    ensures |PlannedDays(ids, n, actuals)| == n <==> forall i :: 0 <= i < n ==> ids[i] in actuals
    ensures forall d :: d in PlannedDays(ids, n, actuals) <==>
      exists i :: 0 <= i < n && ids[i] in actuals && actuals[ids[i]].day == d
  {
    if n > 0 { PlannedDaysExact(ids, n - 1, actuals); }
  }

  /** The loop's test and the explanation's test for a shared day are the same. */
  lemma {:induction false} SameDayTestsAgree(e: SameDayExpectation, actuals: Actuals)
    ensures SameDayOutcome(e, actuals).score
      == if |GroupDays(e.ids, actuals)| == 1 && AllPlanned(e.ids, actuals) then 1.0 else 0.0
  {
    var days := PlannedDays(e.ids, |e.ids|, actuals);
    PlannedDaysExact(e.ids, |e.ids|, actuals);
    assert GroupDays(e.ids, actuals) == set i | 0 <= i < |days| :: days[i] by {
      forall d
        ensures d in GroupDays(e.ids, actuals) <==> d in days
      {
      }
    }
  }

  function SameDayWeights(sameDay: seq<SameDayExpectation>): seq<real> {
    Map((e: SameDayExpectation) => e.weight, sameDay)
  }

  function AdjacencyWeights(adjacency: seq<AdjacencyExpectation>): seq<real> {
    Map((e: AdjacencyExpectation) => e.weight, adjacency)
  }

  lemma {:induction false} WeightedAppend(outcomes: seq<ExpectationOutcome>, weights: seq<real>, o: ExpectationOutcome, w: real)
    requires |outcomes| == |weights|
    ensures WeightedSum(outcomes + [o], weights + [w]) == WeightedSum(outcomes, weights) + o.score * w
    ensures RealSum(weights + [w]) == RealSum(weights) + w
  {
    assert (outcomes + [o])[..|outcomes|] == outcomes && (weights + [w])[..|weights|] == weights;
  }

  lemma {:induction false} OutcomeLengths(b: Baseline, n: nat, m: nat, actuals: Actuals, directed: set<(int, int)>)
    requires n <= |b.sameDay| && m <= |b.adjacency|
    ensures |SameDayOutcomes(b.sameDay, n, actuals)| == n && |AdjacencyOutcomes(b.adjacency, m, directed)| == m
  {
    if n > 0 { OutcomeLengths(b, n - 1, m, actuals, directed); }
    if m > 0 { OutcomeLengths(b, n, m - 1, actuals, directed); }
  }

  /** The same-day component: the explanations' scores under the baseline's weights. */
  method SameDayComponent(b: Baseline, actuals: Actuals) returns (c: ComponentScore)
    ensures |SameDayOutcomes(b.sameDay, |b.sameDay|, actuals)| == |b.sameDay|
    ensures c.matched == WeightedSum(SameDayOutcomes(b.sameDay, |b.sameDay|, actuals), SameDayWeights(b.sameDay))
    ensures c.total == RealSum(SameDayWeights(b.sameDay))
    ensures Scored(c)
  {
    hide WeightedSum, RealSum, SameDayOutcome;
    var matched, total := 0.0, 0.0;
    ghost var weights := SameDayWeights(b.sameDay);
    OutcomeLengths(b, 0, 0, actuals, {});
    NoWeights();
    for i := 0 to |b.sameDay|
      invariant |SameDayOutcomes(b.sameDay, i, actuals)| == i
      invariant matched == WeightedSum(SameDayOutcomes(b.sameDay, i, actuals), weights[..i])
      invariant total == RealSum(weights[..i])
      invariant 0.0 <= matched <= total
    {
      var e := b.sameDay[i];
      SameDayTestsAgree(e, actuals);
      assert weights[..i + 1] == weights[..i] + [e.weight];
      WeightedAppend(SameDayOutcomes(b.sameDay, i, actuals), weights[..i], SameDayOutcome(e, actuals), e.weight);
      total := total + e.weight;
      if |GroupDays(e.ids, actuals)| == 1 && AllPlanned(e.ids, actuals) { matched := matched + e.weight; }
    }
    assert weights[..|b.sameDay|] == weights;
    c := Weighted(matched, total);
  }

  lemma {:induction false} NoWeights()
    ensures WeightedSum([], []) == 0.0 && RealSum([]) == 0.0
  {
  }

  /** The adjacency component: the explanations' scores under the baseline's weights. */
  method AdjacencyComponent(b: Baseline, days: seq<RoutedDay>) returns (c: ComponentScore)
    ensures |AdjacencyOutcomes(b.adjacency, |b.adjacency|, Directed(days))| == |b.adjacency|
    ensures c.matched == WeightedSum(AdjacencyOutcomes(b.adjacency, |b.adjacency|, Directed(days)), AdjacencyWeights(b.adjacency))
    ensures c.total == RealSum(AdjacencyWeights(b.adjacency))
    ensures Scored(c)
  {
    hide WeightedSum, RealSum, Neighbours;
    var directed: set<(int, int)> := {};
    for i := 0 to |days|
      invariant directed == Directed(days[..i])
    {
      assert days[..i + 1][..i] == days[..i];
      directed := directed + Neighbours(days[i].visits);
    }
    assert days[..|days|] == days;
    var matched, total := 0.0, 0.0;
    ghost var weights := AdjacencyWeights(b.adjacency);
    OutcomeLengths(b, 0, 0, map[], directed);
    NoWeights();
    for i := 0 to |b.adjacency|
      invariant |AdjacencyOutcomes(b.adjacency, i, directed)| == i
      invariant matched == WeightedSum(AdjacencyOutcomes(b.adjacency, i, directed), weights[..i])
      invariant total == RealSum(weights[..i])
      invariant 0.0 <= matched <= total
    {
      var e := b.adjacency[i];
      assert weights[..i + 1] == weights[..i] + [e.weight];
      WeightedAppend(AdjacencyOutcomes(b.adjacency, i, directed), weights[..i], AdjacencyOutcome(e, directed), e.weight);
      total := total + e.weight;
      var forward, reverse := (e.first, e.second) in directed, (e.second, e.first) in directed;
      if forward || (reverse && !e.directional) { matched := matched + e.weight; }
    }
    assert weights[..|b.adjacency|] == weights;
    c := Weighted(matched, total);
  }

  // ---- the fixed expectations ----------------------------------------------------------------------------

  lemma {:induction false} FoldConcat(a: seq<ExpectationOutcome>, b: seq<ExpectationOutcome>)
    ensures FixedTotal(a + b) == FixedTotal(a) + FixedTotal(b)
    ensures FixedMet(a + b) == FixedMet(a) + FixedMet(b)
  {
    if b == [] {
      assert a + b == a;
    } else {
      assert (a + b)[..|a + b| - 1] == a + b[..|b| - 1];
      FoldConcat(a, b[..|b| - 1]);
    }
  }

  /** The fixed counts: exactly the fixed explanations, and those met in full. */
  method FixedMatches(b: Baseline, days: seq<RoutedDay>) returns (matched: nat, total: nat)
    ensures total == FixedTotal(AllOutcomes(b, days))
    ensures matched == FixedMet(AllOutcomes(b, days))
    ensures matched <= total
  {
    var visitsMet, visitsTotal := FixedVisits(b.visits, ActualsOf(days));
    var groupsMet, groupsTotal := FixedGroups(b.sameDay, ActualsOf(days));
    var pairsMet, pairsTotal := FixedPairs(b.adjacency, Directed(days));
    FoldConcat(VisitOutcomes(b.visits, |b.visits|, ActualsOf(days)),
               SameDayOutcomes(b.sameDay, |b.sameDay|, ActualsOf(days)));
    FoldConcat(VisitOutcomes(b.visits, |b.visits|, ActualsOf(days))
                 + SameDayOutcomes(b.sameDay, |b.sameDay|, ActualsOf(days)),
               AdjacencyOutcomes(b.adjacency, |b.adjacency|, Directed(days)));
    matched, total := visitsMet + groupsMet + pairsMet, visitsTotal + groupsTotal + pairsTotal;
  }

  method FixedVisits(visits: seq<VisitExpectation>, actuals: Actuals) returns (matched: nat, total: nat)
    ensures total == FixedTotal(VisitOutcomes(visits, |visits|, actuals))
    ensures matched == FixedMet(VisitOutcomes(visits, |visits|, actuals)) && matched <= total
  {
    hide FixedTotal, FixedMet, VisitOutcomes;
    matched, total := 0, 0;
    NothingFolded(visits, actuals, DayAssignment);
    for i := 0 to |visits|
      invariant total == FixedTotal(VisitOutcomes(visits, i, actuals))
      invariant matched == FixedMet(VisitOutcomes(visits, i, actuals)) && matched <= total
    {
      FoldExpectation(visits, i, actuals, DayAssignment);
      var e := visits[i];
      if e.fixedDay {
        total := total + 1;
        if e.id in actuals && Some(actuals[e.id].day) == e.preferredDay { matched := matched + 1; }
      }
      if e.fixedBucket {
        total := total + 1;
        if e.id in actuals && actuals[e.id].bucket in e.preferredBuckets { matched := matched + 1; }
      }
    }
  }

  method FixedGroups(sameDay: seq<SameDayExpectation>, actuals: Actuals) returns (matched: nat, total: nat)
    ensures total == FixedTotal(SameDayOutcomes(sameDay, |sameDay|, actuals))
    ensures matched == FixedMet(SameDayOutcomes(sameDay, |sameDay|, actuals)) && matched <= total
  {
    matched, total := 0, 0;
    for i := 0 to |sameDay|
      invariant total == FixedTotal(SameDayOutcomes(sameDay, i, actuals))
      invariant matched == FixedMet(SameDayOutcomes(sameDay, i, actuals)) && matched <= total
    {
      var e := sameDay[i];
      SameDayTestsAgree(e, actuals);
      FoldAppend(SameDayOutcomes(sameDay, i, actuals), SameDayOutcome(e, actuals), SameDay);
      if !e.fixed { continue; }
      total := total + 1;
      if |GroupDays(e.ids, actuals)| == 1 && AllPlanned(e.ids, actuals) { matched := matched + 1; }
    }
  }

  method FixedPairs(adjacency: seq<AdjacencyExpectation>, directed: set<(int, int)>) returns (matched: nat, total: nat)
    ensures total == FixedTotal(AdjacencyOutcomes(adjacency, |adjacency|, directed))
    ensures matched == FixedMet(AdjacencyOutcomes(adjacency, |adjacency|, directed)) && matched <= total
  {
    matched, total := 0, 0;
    for i := 0 to |adjacency|
      invariant total == FixedTotal(AdjacencyOutcomes(adjacency, i, directed))
      invariant matched == FixedMet(AdjacencyOutcomes(adjacency, i, directed)) && matched <= total
    {
      var e := adjacency[i];
      FoldAppend(AdjacencyOutcomes(adjacency, i, directed), AdjacencyOutcome(e, directed), Adjacency);
      if !e.fixed { continue; }
      total := total + 1;
      if (e.first, e.second) in directed || ((e.second, e.first) in directed && !e.directional) { matched := matched + 1; }
    }
  }

  // ---- the overall score -------------------------------------------------------------------------------------

  function WeightOf(c: Component): real {
    match c
    case DayAssignment => 0.35
    case TimeBucketMatch => 0.25
    case SameDay => 0.20
    case Adjacency => 0.20
  }

  datatype Named = Named(component: Component, score: Option<real>)

  function ShareWeight(c: Named): real {
    if c.score.Some? then WeightOf(c.component) else 0.0
  }

  function Share(c: Named): real {
    if c.score.Some? then WeightOf(c.component) * c.score.value else 0.0
  }

  function AvailableWeight(components: seq<Named>): real {
    if components == [] then 0.0 else AvailableWeight(components[1..]) + ShareWeight(components[0])
  }

  function AvailableScore(components: seq<Named>): real {
    if components == [] then 0.0 else AvailableScore(components[1..]) + Share(components[0])
  }

  function Overall(components: seq<Named>): real {
    if AvailableWeight(components) == 0.0 then 1.0 else AvailableScore(components) / AvailableWeight(components)
  }

  lemma {:induction false} NoWeightIffNoScore(components: seq<Named>)
    ensures AvailableWeight(components) >= 0.0
    ensures AvailableWeight(components) == 0.0 <==>
      forall i :: 0 <= i < |components| ==> components[i].score.None?
  {
    if components != [] {
      var rest := components[1..];
      NoWeightIffNoScore(rest);
      if components[0].score.None? && AvailableWeight(rest) == 0.0 {
        forall i | 0 <= i < |components|
          ensures components[i].score.None?
        {
          assert i > 0 ==> components[i] == rest[i - 1];
        }
      } else if components[0].score.None? {
        var i :| 0 <= i < |rest| && rest[i].score.Some?;
        assert components[i + 1] == rest[i];
      }
    }
  }

  lemma {:induction false} WeightIsPositive(c: Component)
    ensures WeightOf(c) > 0.0
  {
  }

  lemma {:induction false} WeightedStep(weight: real, low: real, value: real, high: real)
    requires weight >= 0.0 && low <= value <= high
    ensures weight * low <= weight * value <= weight * high
  {
  }

  lemma {:induction false} ShareBetween(c: Named, low: real, high: real)
    requires c.score.Some? ==> low <= c.score.value <= high
    ensures ShareWeight(c) * low <= Share(c) <= ShareWeight(c) * high
  {
    hide WeightOf;
    if c.score.Some? {
      WeightIsPositive(c.component);
      WeightedStep(WeightOf(c.component), low, c.score.value, high);
    }
  }

  lemma {:induction false} Distributes(a: real, b: real, c: real)
    ensures (a + b) * c == a * c + b * c
  {
  }

  lemma {:induction false} ScoreBetween(components: seq<Named>, low: real, high: real)
    requires forall i :: 0 <= i < |components| && components[i].score.Some? ==> low <= components[i].score.value <= high
    ensures AvailableWeight(components) * low <= AvailableScore(components) <= AvailableWeight(components) * high
  {
    hide Share, ShareWeight;
    if components != [] {
      var rest, first := components[1..], components[0];
      ScoreBetween(rest, low, high);
      ShareBetween(first, low, high);
      Distributes(AvailableWeight(rest), ShareWeight(first), low);
      Distributes(AvailableWeight(rest), ShareWeight(first), high);
    }
  }

  lemma {:induction false} DivideBetween(score: real, weight: real, low: real, high: real)
    requires weight > 0.0 && weight * low <= score <= weight * high
    ensures low <= score / weight <= high
  {
  }

  predicate SomeScore(components: seq<Named>) {
    exists i :: 0 <= i < |components| && components[i].score.Some?
  }

  /** The overall score is a convex combination of the available component scores, and one if
      there is none. */
  lemma {:induction false} OverallIsConvex(components: seq<Named>, low: real, high: real)
    requires forall i :: 0 <= i < |components| && components[i].score.Some? ==> low <= components[i].score.value <= high
    ensures if SomeScore(components) then low <= Overall(components) <= high else Overall(components) == 1.0
  {
    hide WeightOf;
    NoWeightIffNoScore(components);
    ScoreBetween(components, low, high);
    if SomeScore(components) {
      DivideBetween(AvailableScore(components), AvailableWeight(components), low, high);
    }
  }

  function Counted(score: Option<real>, weight: real): real {
    if score.Some? then weight else 0.0
  }

  function Points(score: Option<real>, weight: real): real {
    if score.Some? then weight * score.value else 0.0
  }

  /** Days count 35 of 100, periods 25, groups 20 and pairs 20, and a component that is not
      available leaves its weight to the others. */
  predicate WeighsScores(
    overall: real, day: Option<real>, bucket: Option<real>, sameDay: Option<real>, adjacency: Option<real>)
  {
    var weight := Counted(day, 0.35) + Counted(bucket, 0.25) + Counted(sameDay, 0.2) + Counted(adjacency, 0.2);
    && overall * weight
         == Points(day, 0.35) + Points(bucket, 0.25) + Points(sameDay, 0.2) + Points(adjacency, 0.2)
    && (weight == 0.0 ==> overall == 1.0)
  }

  lemma {:induction false} OverallWeighsScores(
    day: Option<real>, bucket: Option<real>, sameDay: Option<real>, adjacency: Option<real>)
    ensures
      WeighsScores(
        Overall([Named(DayAssignment, day), Named(TimeBucketMatch, bucket), Named(SameDay, sameDay), Named(Adjacency, adjacency)]),
        day, bucket, sameDay, adjacency)
  {
    var c0, c1 := Named(DayAssignment, day), Named(TimeBucketMatch, bucket);
    var c2, c3 := Named(SameDay, sameDay), Named(Adjacency, adjacency);
    FourTerms(c0, c1, c2, c3);
    QuotientTimes(AvailableScore([c0, c1, c2, c3]), AvailableWeight([c0, c1, c2, c3]));
  }

  lemma {:induction false} OneMoreTerm(first: Named, rest: seq<Named>)
    ensures AvailableWeight([first] + rest) == AvailableWeight(rest) + ShareWeight(first)
    ensures AvailableScore([first] + rest) == AvailableScore(rest) + Share(first)
  {
    assert ([first] + rest)[1..] == rest;
  }

  lemma {:induction false} FourTerms(c0: Named, c1: Named, c2: Named, c3: Named)
    ensures AvailableWeight([c0, c1, c2, c3]) == ShareWeight(c0) + ShareWeight(c1) + ShareWeight(c2) + ShareWeight(c3)
    ensures AvailableScore([c0, c1, c2, c3]) == Share(c0) + Share(c1) + Share(c2) + Share(c3)
  {
    hide ShareWeight, Share;
    OneMoreTerm(c3, []);
    OneMoreTerm(c2, [c3]);
    OneMoreTerm(c1, [c2, c3]);
    OneMoreTerm(c0, [c1, c2, c3]);
    assert [c3] + [] == [c3] && [c2] + [c3] == [c2, c3] && [c1] + [c2, c3] == [c1, c2, c3];
    assert [c0] + [c1, c2, c3] == [c0, c1, c2, c3];
  }

  lemma {:induction false} QuotientTimes(score: real, weight: real)
    ensures weight != 0.0 ==> score / weight * weight == score
  {
  }

  /** A score is the quotient of what is met by what is expected, and missing if nothing is. */
  predicate ScoreOf(score: Option<real>, met: real, expected: real) {
    && (score.None? <==> expected == 0.0)
    && (score.Some? ==> score.value * expected == met && 0.0 <= score.value <= 1.0)
  }

  /** No visit names a day or a bucket, and no pair or group is expected. */
  predicate ExpectsNothing(b: Baseline) {
    && (forall i :: 0 <= i < |b.visits| ==>
          var e := b.visits[i];
          && e.preferredDay.None? && e.acceptableDays == {}
          && e.preferredBuckets == {} && e.acceptableBuckets == {})
    && b.sameDay == [] && b.adjacency == []
  }

  /** The scores of an itinerary are the folds of its explanations: the four components of those of
      their kind, the fixed score of all that are fixed.  The overall score combines the components,
      and is one if nothing is expected. */
  method EvaluateCloseness(b: Baseline, days: seq<RoutedDay>) returns (components: seq<Named>, fixedScore: real, overall: real)
    ensures |components| == 4
    ensures
      var visits := VisitOutcomes(b.visits, |b.visits|, ActualsOf(days));
      && components[0].component == DayAssignment
      && ScoreOf(components[0].score, ScoreSum(visits, DayAssignment), CountOf(visits, DayAssignment) as real)
      && components[1].component == TimeBucketMatch
      && ScoreOf(components[1].score, ScoreSum(visits, TimeBucketMatch), CountOf(visits, TimeBucketMatch) as real)
    ensures
      var groups := SameDayOutcomes(b.sameDay, |b.sameDay|, ActualsOf(days));
      && components[2].component == SameDay && |groups| == |b.sameDay|
      && ScoreOf(components[2].score, WeightedSum(groups, SameDayWeights(b.sameDay)), RealSum(SameDayWeights(b.sameDay)))
    ensures
      var pairs := AdjacencyOutcomes(b.adjacency, |b.adjacency|, Directed(days));
      && components[3].component == Adjacency && |pairs| == |b.adjacency|
      && ScoreOf(components[3].score, WeightedSum(pairs, AdjacencyWeights(b.adjacency)), RealSum(AdjacencyWeights(b.adjacency)))
    ensures 0.0 <= fixedScore <= 1.0
    ensures FixedTotal(AllOutcomes(b, days)) > 0 ==>
      fixedScore * FixedTotal(AllOutcomes(b, days)) as real == FixedMet(AllOutcomes(b, days)) as real
    ensures fixedScore == 1.0 <==> FixedMet(AllOutcomes(b, days)) == FixedTotal(AllOutcomes(b, days))
    ensures overall == Overall(components) && 0.0 <= overall <= 1.0
    ensures WeighsScores(overall, components[0].score, components[1].score, components[2].score, components[3].score)
    ensures ExpectsNothing(b) ==> overall == 1.0
  {
    hide Overall, FixedMet, FixedTotal, AllOutcomes, ScoreSum, CountOf, WeightedSum, RealSum, Directed, ActualsOf,
         VisitOutcomes, SameDayOutcomes, AdjacencyOutcomes, SameDayWeights, AdjacencyWeights, WeightOf, ExpectsNothing,
         WeighsScores;
    var actuals := ActualsOf(days);
    var day := DayAssignmentComponent(b.visits, actuals);
    var bucket := TimeBucketComponent(b.visits, actuals);
    var sameDay := SameDayComponent(b, actuals);
    var adjacency := AdjacencyComponent(b, days);
    var matched, total := FixedMatches(b, days);
    components := [
      Named(DayAssignment, day.score), Named(TimeBucketMatch, bucket.score),
      Named(SameDay, sameDay.score), Named(Adjacency, adjacency.score)];
    fixedScore := FixedScore(matched, total);
    if ExpectsNothing(b) { NothingExpected(b, actuals); }
    ScoresAreFractions(components, day, bucket, sameDay, adjacency);
    overall := Overall(components);
    OverallWeighsScores(day.score, bucket.score, sameDay.score, adjacency.score);
    OverallIsConvex(components, 0.0, 1.0);
  }

  lemma {:induction false} ScoresAreFractions(
    components: seq<Named>, day: ComponentScore, bucket: ComponentScore, sameDay: ComponentScore, adjacency: ComponentScore)
    requires Scored(day) && Scored(bucket) && Scored(sameDay) && Scored(adjacency)
    requires components == [
      Named(DayAssignment, day.score), Named(TimeBucketMatch, bucket.score),
      Named(SameDay, sameDay.score), Named(Adjacency, adjacency.score)]
    ensures forall i :: 0 <= i < 4 && components[i].score.Some? ==> 0.0 <= components[i].score.value <= 1.0
    ensures SomeScore(components) ==> day.score.Some? || bucket.score.Some? || sameDay.score.Some? || adjacency.score.Some?
  {
  }

  lemma {:induction false} NoOutcomes(visits: seq<VisitExpectation>, n: nat, actuals: Actuals)
    requires n <= |visits|
    requires forall i :: 0 <= i < |visits| ==>
      && visits[i].preferredDay.None? && visits[i].acceptableDays == {}
      && visits[i].preferredBuckets == {} && visits[i].acceptableBuckets == {}
    ensures VisitOutcomes(visits, n, actuals) == []
  {
    if n > 0 { NoOutcomes(visits, n - 1, actuals); }
  }

  lemma {:induction false} NothingExpected(b: Baseline, actuals: Actuals)
    requires ExpectsNothing(b)
    ensures CountOf(VisitOutcomes(b.visits, |b.visits|, actuals), DayAssignment) == 0
    ensures CountOf(VisitOutcomes(b.visits, |b.visits|, actuals), TimeBucketMatch) == 0
    ensures RealSum(SameDayWeights(b.sameDay)) == 0.0 && RealSum(AdjacencyWeights(b.adjacency)) == 0.0
  {
    NoOutcomes(b.visits, |b.visits|, actuals);
  }

  function FixedScore(matched: nat, total: nat): (r: real)
    requires matched <= total
    ensures 0.0 <= r <= 1.0 && (r == 1.0 <==> matched == total) && (total > 0 ==> r * total as real == matched as real)
  {
    if total == 0 then 1.0
    else
      DivideBetween(matched as real, total as real, 0.0, 1.0);
      var r := matched as real / total as real;
      assert r * total as real == matched as real;
      r
  }
}
