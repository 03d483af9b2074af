/** Every answer of the governor read off the history alone: which limit blocks a request and until
    when, and what a snapshot counts. */
module HistoryAnswers {
  import opened Prelude
  import opened Governor
  import opened GovernorSafety
  import opened CircuitCount
  import opened RedisGovernor

  // ---- the last grant ------------------------------------------------------------------------------

  predicate LastGrant(policy: Policy, calls: seq<Call>, g: nat, n: nat)
    requires n <= |calls|
  {
    g < n && GrantedAt(None, policy, calls, g) && forall k :: g < k < n ==> !GrantedAt(None, policy, calls, k)
  }

  /** The stored time of the last request is the reading of the last grant. */
  lemma {:induction false} StoredLastGrant(policy: Policy, calls: seq<Call>, n: nat)
    requires n <= |calls|
    ensures
      var stored := StateAfter(None, policy, calls, n);
      && (forall g: nat :: LastGrant(policy, calls, g, n) ==> stored.Some? && stored.value.lastRequestAt == Some(calls[g].now))
      && (stored.Some? && stored.value.lastRequestAt.Some? ==> exists g: nat :: LastGrant(policy, calls, g, n))
  {
    hide Apply, GrantedAt;
    if n > 0 {
      StoredLastGrant(policy, calls, n - 1);
      GrantStep(policy, calls, n - 1);
      if GrantedAt(None, policy, calls, n - 1) {
        assert LastGrant(policy, calls, n - 1, n);
      } else {
        var before := n - 1;
        if g: nat :| LastGrant(policy, calls, g, before) { assert LastGrant(policy, calls, g, n); }
        forall g: nat | LastGrant(policy, calls, g, n)
          ensures LastGrant(policy, calls, g, n - 1)
        {
        }
      }
    }
  }

  lemma {:induction false} GrantStep(policy: Policy, calls: seq<Call>, n: nat)
    requires n < |calls|
    ensures
      var before, after := StateAfter(None, policy, calls, n), StateAfter(None, policy, calls, n + 1);
      && (before.Some? ==> after.Some?)
      && (if GrantedAt(None, policy, calls, n) then after.Some? && after.value.lastRequestAt == Some(calls[n].now)
          else
            (after.Some? ==> after.value.lastRequestAt == if before.Some? then before.value.lastRequestAt else None))
  {
  }

  // ---- what has been counted today ------------------------------------------------------------------

  /** Among the calls before `n`, the writes from `m` on are all on `day`, and the one before them, if
      any, was not. */
  predicate Stretch(policy: Policy, calls: seq<Call>, m: nat, n: nat, day: Day)
    requires n <= |calls|
  {
    && m < n && WritesAt(None, policy, calls, m)
    && (forall k :: m <= k < n && WritesAt(None, policy, calls, k) ==> policy.dayOf(calls[k].now) == day)
    && (forall k :: 0 <= k < m && WritesAt(None, policy, calls, k) && (forall i :: k < i < m ==> !WritesAt(None, policy, calls, i)) ==>
          policy.dayOf(calls[k].now) != day)
  }

  function Successes(calls: seq<Call>, from: nat, to: nat): nat
    requires from <= to <= |calls|
  {
    if from == to then 0 else Successes(calls, from, to - 1) + (if calls[to - 1].op.RecordSuccess? then 1 else 0)
  }

  function Failures(calls: seq<Call>, from: nat, to: nat): nat
    requires from <= to <= |calls|
  {
    if from == to then 0 else Failures(calls, from, to - 1) + (if calls[to - 1].op.RecordFailure? then 1 else 0)
  }

  function FailuresWith(calls: seq<Call>, code: string, from: nat, to: nat): nat
    requires from <= to <= |calls|
  {
    if from == to then 0
    else FailuresWith(calls, code, from, to - 1) + (if calls[to - 1].op == RecordFailure(code) then 1 else 0)
  }

  /** The record counts the calls from `from` to `to`. */
  ghost predicate Counts(s: Stored, policy: Policy, calls: seq<Call>, from: nat, to: nat)
    requires from <= to <= |calls|
  {
    && s.dailyBudget == policy.dailyBudget
    && s.requestCount == Grants(None, policy, calls, from, to)
    && s.successCount == Successes(calls, from, to)
    && s.failureCount == Failures(calls, from, to)
    && forall code :: CountOf(s.failureCounts, code) == FailuresWith(calls, code, from, to)
  }

  /** What a call that writes makes of the counts of its day. */
  lemma {:induction false} CountedCall(policy: Policy, calls: seq<Call>, from: nat, n: nat)
    requires from <= n < |calls| && WritesAt(None, policy, calls, n)
    requires Counts(StateForToday(StateAfter(None, policy, calls, n), policy, calls[n].now), policy, calls, from, n)
    ensures StateAfter(None, policy, calls, n + 1).Some?
    ensures StateAfter(None, policy, calls, n + 1).value.quotaDay == policy.dayOf(calls[n].now)
    ensures Counts(StateAfter(None, policy, calls, n + 1).value, policy, calls, from, n + 1)
  {
    hide StateForToday, OpensCircuit;
    var s := StateForToday(StateAfter(None, policy, calls, n), policy, calls[n].now);
    var after := StateAfter(None, policy, calls, n + 1).value;
    assert Apply(StateAfter(None, policy, calls, n), policy, calls[n].op, calls[n].now).stored == Some(after);
    forall code
      ensures CountOf(after.failureCounts, code) == FailuresWith(calls, code, from, n + 1)
    {
      assert CountOf(s.failureCounts, code) == FailuresWith(calls, code, from, n);
    }
  }

  lemma {:induction false} StartsAfresh(policy: Policy, calls: seq<Call>, m: nat, n: nat, day: Day)
    requires m < n <= |calls| && Stretch(policy, calls, m, n, day)
    ensures Counts(StateForToday(StateAfter(None, policy, calls, m), policy, calls[m].now), policy, calls, m, m)
  {
    hide Apply, WritesAt;
    if StateAfter(None, policy, calls, m).Some? {
      var last := LastWrite(policy, calls, m);
      assert WritesAt(None, policy, calls, last);
    }
  }

  /** Whatever happened before, the stored record counts exactly the calls of the present stretch. */
  lemma {:induction false} StretchIsCounted(policy: Policy, calls: seq<Call>, m: nat, n: nat, day: Day)
    requires n <= |calls| && Stretch(policy, calls, m, n, day)
    ensures StateAfter(None, policy, calls, n).Some? && StateAfter(None, policy, calls, n).value.quotaDay == day
    ensures Counts(StateAfter(None, policy, calls, n).value, policy, calls, m, n)
    decreases n
  {
    hide Apply, WritesAt, Counts;
    if n == m + 1 {
      StartsAfresh(policy, calls, m, n, day);
      CountedCall(policy, calls, m, m);
    } else {
      assert Stretch(policy, calls, m, n - 1, day);
      StretchIsCounted(policy, calls, m, n - 1, day);
      if WritesAt(None, policy, calls, n - 1) {
        SameDayCounts(StateAfter(None, policy, calls, n - 1), policy, calls, m, n - 1);
        CountedCall(policy, calls, m, n - 1);
      } else {
        BlockedCountsNothing(policy, calls, m, n - 1);
      }
    }
  }

  lemma {:induction false} SameDayCounts(stored: Option<Stored>, policy: Policy, calls: seq<Call>, m: nat, n: nat)
    requires m <= n < |calls| && stored.Some? && stored.value.quotaDay == policy.dayOf(calls[n].now)
    requires Counts(stored.value, policy, calls, m, n)
    ensures Counts(StateForToday(stored, policy, calls[n].now), policy, calls, m, n)
  {
  }

  lemma {:induction false} BlockedCountsNothing(policy: Policy, calls: seq<Call>, m: nat, n: nat)
    requires m <= n < |calls| && !WritesAt(None, policy, calls, n) && StateAfter(None, policy, calls, n).Some?
    requires Counts(StateAfter(None, policy, calls, n).value, policy, calls, m, n)
    ensures StateAfter(None, policy, calls, n + 1) == StateAfter(None, policy, calls, n)
    ensures Counts(StateAfter(None, policy, calls, n + 1).value, policy, calls, m, n + 1)
  {
    hide OpensCircuit;
    var s := StateAfter(None, policy, calls, n).value;
    forall code
      ensures CountOf(s.failureCounts, code) == FailuresWith(calls, code, m, n + 1)
    {
      assert CountOf(s.failureCounts, code) == FailuresWith(calls, code, m, n);
    }
  }

  /** A record of some day always comes from a stretch of that day. */
  lemma {:induction false} StretchOf(policy: Policy, calls: seq<Call>, n: nat) returns (m: nat)
    requires n <= |calls| && StateAfter(None, policy, calls, n).Some?
    ensures m < n && Stretch(policy, calls, m, n, StateAfter(None, policy, calls, n).value.quotaDay)
    decreases n
  {
    hide Apply, WritesAt;
    var day := StateAfter(None, policy, calls, n).value.quotaDay;
    m := LastWrite(policy, calls, n);
    if StateAfter(None, policy, calls, m).Some? {
      var before := LastWrite(policy, calls, m);
      if policy.dayOf(calls[before].now) == day {
        var first := StretchOf(policy, calls, m);
        assert StateAfter(None, policy, calls, m).value.quotaDay == day;
        m := first;
      }
    } else {
      OnlyTheEmptyRunStoresNothing(policy, calls, m);
    }
  }

  // ---- the answers -----------------------------------------------------------------------------------

  /** The request was read before the open time of the last trip was over. */
  ghost predicate CircuitForbids(policy: Policy, calls: seq<Call>, j: nat)
    requires j < |calls|
  {
    exists i: nat :: i < j && LastTrip(policy, calls, i, j) && calls[j].now < calls[i].now + policy.circuitOpen
  }

  /** The request was read less than an interval after the last grant. */
  ghost predicate IntervalForbids(policy: Policy, calls: seq<Call>, j: nat)
    requires j < |calls|
  {
    exists g: nat :: LastGrant(policy, calls, g, j) && calls[j].now < calls[g].now + policy.minimumInterval
  }

  /** As many requests as the budget allows have been granted in the present stretch of the day. */
  ghost predicate BudgetForbids(policy: Policy, calls: seq<Call>, j: nat)
    requires j < |calls|
  {
    exists m: nat :: m < j && Stretch(policy, calls, m, j, policy.dayOf(calls[j].now))
      && Grants(None, policy, calls, m, j) >= policy.dailyBudget
  }

  lemma {:induction false} CircuitForbidsIff(policy: Policy, calls: seq<Call>, j: nat)
    requires j < |calls|
    ensures CircuitForbids(policy, calls, j) <==>
      var stored := StateAfter(None, policy, calls, j);
      stored.Some? && stored.value.circuitOpenUntil.Some? && calls[j].now < stored.value.circuitOpenUntil.value
  {
    hide Apply, LastTrip, Tripped;
    RunAgrees(policy, calls, j);
    if Tripped(policy, calls, j) {
      var i := TheLastTrip(policy, calls, j);
      assert LastTrip(policy, calls, i, j);
    }
    forall i: nat | i < j && LastTrip(policy, calls, i, j)
      ensures Tripped(policy, calls, j)
    {
      LastTripIsTripped(policy, calls, i, j);
    }
  }

  lemma {:induction false} IntervalForbidsIff(policy: Policy, calls: seq<Call>, j: nat)
    requires j < |calls|
    ensures IntervalForbids(policy, calls, j) <==>
      var stored := StateAfter(None, policy, calls, j);
      stored.Some? && stored.value.lastRequestAt.Some?
      && calls[j].now < stored.value.lastRequestAt.value + policy.minimumInterval
  {
    hide Apply, LastGrant;
    StoredLastGrant(policy, calls, j);
  }

  lemma {:induction false} BudgetForbidsIff(policy: Policy, calls: seq<Call>, j: nat)
    requires j < |calls|
    ensures BudgetForbids(policy, calls, j) <==>
      var stored := StateAfter(None, policy, calls, j);
      stored.Some? && stored.value.quotaDay == policy.dayOf(calls[j].now) && stored.value.requestCount >= policy.dailyBudget
  {
    hide Apply, Stretch;
    var stored, day := StateAfter(None, policy, calls, j), policy.dayOf(calls[j].now);
    if BudgetForbids(policy, calls, j) {
      var m: nat :| m < j && Stretch(policy, calls, m, j, day) && Grants(None, policy, calls, m, j) >= policy.dailyBudget;
      StretchIsCounted(policy, calls, m, j, day);
    }
    if stored.Some? && stored.value.quotaDay == day && stored.value.requestCount >= policy.dailyBudget {
      var m := StretchOf(policy, calls, j);
      StretchIsCounted(policy, calls, m, j, day);
    }
  }

  lemma {:induction false} RequestAnswer(stored: Option<Stored>, policy: Policy, now: Instant)
    ensures
      var answer := Apply(stored, policy, BeforeRequest, now).answer;
      answer ==
        if stored.Some? && stored.value.circuitOpenUntil.Some? && now < stored.value.circuitOpenUntil.value then
          Blocked(CircuitOpen, stored.value.circuitOpenUntil)
        else if stored.Some? && stored.value.lastRequestAt.Some?
                && now < stored.value.lastRequestAt.value + policy.minimumInterval then
          Blocked(RateWindow, Some(stored.value.lastRequestAt.value + policy.minimumInterval))
        else if stored.Some? && stored.value.quotaDay == policy.dayOf(now) && stored.value.requestCount >= policy.dailyBudget then
          Blocked(DailyBudgetExhausted, None)
        else Granted
  {
  }

  /** The answer to a request, from the calls and answers before it: the open circuit blocks first,
      until the end of its time; then the interval, until it has passed since the last grant; then the
      budget of the day; and otherwise it is granted. */
  lemma {:induction false} RequestAnswerIsExact(policy: Policy, calls: seq<Call>, j: nat)
    requires j < |calls| && calls[j].op.BeforeRequest?
    ensures
      match AnswerAt(None, policy, calls, j)
      case Granted =>
        && !CircuitForbids(policy, calls, j) && !IntervalForbids(policy, calls, j) && !BudgetForbids(policy, calls, j)
      case Blocked(CircuitOpen, until) =>
        && CircuitForbids(policy, calls, j)
        && forall i: nat :: i < j && LastTrip(policy, calls, i, j) ==> until == Some(calls[i].now + policy.circuitOpen)
      case Blocked(RateWindow, until) =>
        && !CircuitForbids(policy, calls, j) && IntervalForbids(policy, calls, j)
        && forall g: nat :: LastGrant(policy, calls, g, j) ==> until == Some(calls[g].now + policy.minimumInterval)
      case Blocked(DailyBudgetExhausted, until) =>
        && !CircuitForbids(policy, calls, j) && !IntervalForbids(policy, calls, j) && BudgetForbids(policy, calls, j)
        && until == None
      case _ => false
  {
    hide Apply, LastGrant, LastTrip, CircuitForbids, IntervalForbids, BudgetForbids, Tripped;
    RequestAnswer(StateAfter(None, policy, calls, j), policy, calls[j].now);
    CircuitForbidsIff(policy, calls, j);
    IntervalForbidsIff(policy, calls, j);
    BudgetForbidsIff(policy, calls, j);
    RunAgrees(policy, calls, j);
    StoredLastGrant(policy, calls, j);
  }

  /** A snapshot reports exactly the grants, successes and failures, code by code, of the stretch of
      its day that it belongs to, and the budget of the policy. */
  lemma {:induction false} SnapshotIsExact(policy: Policy, calls: seq<Call>, j: nat) returns (m: nat)
    requires j < |calls| && calls[j].op.Snapshot?
    ensures AnswerAt(None, policy, calls, j).Usage?
    ensures AnswerAt(None, policy, calls, j).snapshot.quotaDay == policy.dayOf(calls[j].now)
    ensures m <= j && Stretch(policy, calls, m, j + 1, policy.dayOf(calls[j].now))
    ensures Counts(AnswerAt(None, policy, calls, j).snapshot, policy, calls, m, j + 1)
  {
    hide Stretch, Counts;
    assert StateAfter(None, policy, calls, j + 1) == Some(AnswerAt(None, policy, calls, j).snapshot);
    m := StretchOf(policy, calls, j + 1);
    StretchIsCounted(policy, calls, m, j + 1, policy.dayOf(calls[j].now));
  }

  /** Interleaved clients get the same answers, in the order their operations took effect. */
  lemma {:induction false} InterleavedAnswersAreExact(policy: Policy, events: seq<Event>, j: nat)
    requires j < |Run(policy, events).log|
    ensures Run(policy, events).log[j].answer == AnswerAt(None, policy, CallsOf(Run(policy, events).log), j)
  {
    hide Run, RedisGovernor.Recorded, StateAfter;
    RunIsLinearized(policy, events);
  }
}
