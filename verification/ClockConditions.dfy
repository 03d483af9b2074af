/** Which clock readings keep the governor's promises: `now` is read before the store is locked,
    so a history may hold any readings, and the readings alone decide. */
module ClockConditions {
  import opened Prelude
  import opened Governor
  import opened GovernorSafety

  function Readings(calls: seq<Call>): (nows: seq<Instant>)
    ensures |nows| == |calls| && forall i :: 0 <= i < |calls| ==> nows[i] == calls[i].now
  {
    Map((c: Call) => c.now, calls)
  }

  // ---- the daily budget ----------------------------------------------------------------------------

  /** `chain` lists one more reading of a quota day than the budget allows, each a minimum
      interval after the one before, and the reading `away` between them is of another day. */
  predicate LeavesAndReturns(
    dayOf: Instant -> Day, interval: int, budget: int, nows: seq<Instant>, chain: seq<nat>, away: nat)
  {
    && |chain| == budget + 1 >= 2
    && (forall t :: 0 <= t < |chain| ==> chain[t] < |nows|)
    && (forall t :: 0 <= t < |chain| ==> dayOf(nows[chain[t]]) == dayOf(nows[chain[0]]))
    && (forall t, u :: 0 <= t < u < |chain| ==> chain[t] < chain[u])
    && (forall t :: 0 <= t < |chain| - 1 ==> nows[chain[t]] + interval <= nows[chain[t + 1]])
    && chain[0] < away < chain[|chain| - 1]
    && dayOf(nows[away]) != dayOf(nows[chain[0]])
  }

  ghost predicate Overruns(dayOf: Instant -> Day, interval: int, budget: int, nows: seq<Instant>) {
    exists chain: seq<nat>, away: nat :: LeavesAndReturns(dayOf, interval, budget, nows, chain, away)
  }

  /** Requests at the readings of the chain, snapshots at all others. */
  function ProbeCalls(nows: seq<Instant>, chain: seq<nat>): (calls: seq<Call>)
    ensures |calls| == |nows|
    ensures forall i: nat :: i < |nows| ==>
      calls[i] == Call(if i in chain then BeforeRequest else Snapshot, nows[i])
  {
    seq(|nows|, i requires 0 <= i < |nows| => Call(if i in chain then BeforeRequest else Snapshot, nows[i]))
  }

  /** After `n` probing calls, `t` of them requests: the stored count forgets at least one grant
      once `away` has been passed. */
  ghost predicate Probed(policy: Policy, nows: seq<Instant>, chain: seq<nat>, away: nat, n: nat, t: nat)
    requires n <= |nows| && t <= |chain| && chain != []
    requires forall u :: 0 <= u < |chain| ==> chain[u] < |nows|
  {
    var calls, day := ProbeCalls(nows, chain), policy.dayOf(nows[chain[0]]);
    var stored := StateAfter(None, policy, calls, n);
    && GrantsOn(policy, calls, n, day) == t
    && (stored.Some? <==> n > 0)
    && (n > 0 ==>
          && stored.value.quotaDay == policy.dayOf(nows[n - 1])
          && stored.value.circuitOpenUntil.None?
          && stored.value.lastRequestAt == (if t == 0 then None else Some(nows[chain[t - 1]]))
          && (stored.value.quotaDay == day ==> stored.value.requestCount <= t - (if away < n then 1 else 0)))
  }

  function CountToday(stored: Option<Stored>, policy: Policy, now: Instant): int {
    if stored.Some? && stored.value.quotaDay == policy.dayOf(now) then stored.value.requestCount else 0
  }

  lemma {:induction false} ProbeStep(policy: Policy, stored: Option<Stored>, now: Instant)
    requires stored.Some? ==> stored.value.circuitOpenUntil.None?
    ensures
      var outcome := Apply(stored, policy, Snapshot, now);
      && !outcome.answer.Granted? && outcome.stored.Some?
      && outcome.stored.value.quotaDay == policy.dayOf(now) && outcome.stored.value.circuitOpenUntil.None?
      && outcome.stored.value.lastRequestAt == (if stored.Some? then stored.value.lastRequestAt else None)
      && outcome.stored.value.requestCount == CountToday(stored, policy, now)
    ensures
      && (stored.Some? && stored.value.lastRequestAt.Some? ==>
            stored.value.lastRequestAt.value + policy.minimumInterval <= now)
      && CountToday(stored, policy, now) < policy.dailyBudget
      ==>
      var outcome := Apply(stored, policy, BeforeRequest, now);
      && outcome.answer.Granted? && outcome.stored.Some?
      && outcome.stored.value.quotaDay == policy.dayOf(now) && outcome.stored.value.circuitOpenUntil.None?
      && outcome.stored.value.lastRequestAt == Some(now)
      && outcome.stored.value.requestCount == CountToday(stored, policy, now) + 1
  {
  }

  lemma {:induction false} NothingProbed(policy: Policy, nows: seq<Instant>, chain: seq<nat>, away: nat)
    requires LeavesAndReturns(policy.dayOf, policy.minimumInterval, policy.dailyBudget, nows, chain, away)
    ensures Probed(policy, nows, chain, away, 0, 0)
  {
  }

  lemma {:induction false} ProbeWaits(
    policy: Policy, nows: seq<Instant>, chain: seq<nat>, away: nat, n: nat, t: nat)
    requires LeavesAndReturns(policy.dayOf, policy.minimumInterval, policy.dailyBudget, nows, chain, away)
    requires n < |nows| && t <= |chain| && Probed(policy, nows, chain, away, n, t)
    requires (t > 0 ==> chain[t - 1] < n) && (t < |chain| ==> n < chain[t])
    ensures Probed(policy, nows, chain, away, n + 1, t)
  {
    hide Apply;
    assert n !in chain;
    ProbeStep(policy, StateAfter(None, policy, ProbeCalls(nows, chain), n), nows[n]);
  }

  lemma {:induction false} ProbeRequests(
    policy: Policy, nows: seq<Instant>, chain: seq<nat>, away: nat, n: nat, t: nat)
    requires LeavesAndReturns(policy.dayOf, policy.minimumInterval, policy.dailyBudget, nows, chain, away)
    requires n < |nows| && t < |chain| && chain[t] == n && Probed(policy, nows, chain, away, n, t)
    ensures Probed(policy, nows, chain, away, n + 1, t + 1)
  {
    hide Apply;
    assert n in chain;
    if t > 0 { assert nows[chain[t - 1]] + policy.minimumInterval <= nows[chain[t - 1 + 1]]; }
    ProbeStep(policy, StateAfter(None, policy, ProbeCalls(nows, chain), n), nows[n]);
  }

  lemma {:induction false} ProbesAreGranted(
    policy: Policy, nows: seq<Instant>, chain: seq<nat>, away: nat, n: nat, t: nat)
    requires LeavesAndReturns(policy.dayOf, policy.minimumInterval, policy.dailyBudget, nows, chain, away)
    requires n <= |nows| && t <= |chain|
    requires (t > 0 ==> chain[t - 1] < n) && (t < |chain| ==> n <= chain[t])
    ensures Probed(policy, nows, chain, away, n, t)
    decreases n
  {
    hide Probed;
    if n == 0 {
      NothingProbed(policy, nows, chain, away);
    } else if t > 0 && chain[t - 1] == n - 1 {
      ProbesAreGranted(policy, nows, chain, away, n - 1, t - 1);
      ProbeRequests(policy, nows, chain, away, n - 1, t - 1);
    } else {
      ProbesAreGranted(policy, nows, chain, away, n - 1, t);
      ProbeWaits(policy, nows, chain, away, n - 1, t);
    }
  }

  /** Readings that leave a day and return to it can always be made to overrun the budget. */
  lemma {:induction false} OverrunHappens(policy: Policy, nows: seq<Instant>, chain: seq<nat>, away: nat)
    requires LeavesAndReturns(policy.dayOf, policy.minimumInterval, policy.dailyBudget, nows, chain, away)
    ensures
      GrantsOn(policy, ProbeCalls(nows, chain), |nows|, policy.dayOf(nows[chain[0]])) == policy.dailyBudget + 1
  {
    ProbesAreGranted(policy, nows, chain, away, |nows|, |chain|);
  }

  /** The calls among the first `n` that were granted on a day. */
  function GrantIndices(policy: Policy, calls: seq<Call>, n: nat, day: Day): seq<nat>
    requires n <= |calls|
  {
    if n == 0 then []
    else
      GrantIndices(policy, calls, n - 1, day)
      + (if GrantedAt(None, policy, calls, n - 1) && policy.dayOf(calls[n - 1].now) == day then [n - 1] else [])
  }

  lemma {:induction false} GrantIndicesExact(policy: Policy, calls: seq<Call>, n: nat, day: Day)
    requires n <= |calls|
    ensures
      var r := GrantIndices(policy, calls, n, day);
      && |r| == GrantsOn(policy, calls, n, day)
      && (forall t :: 0 <= t < |r| ==> r[t] < n && GrantedAt(None, policy, calls, r[t]) && policy.dayOf(calls[r[t]].now) == day)
      && (forall t, u :: 0 <= t < u < |r| ==> r[t] < r[u])
      && (forall i: nat :: i < n && GrantedAt(None, policy, calls, i) && policy.dayOf(calls[i].now) == day ==> i in r)
  {
    hide Apply, GrantedAt;
    if n > 0 { GrantIndicesExact(policy, calls, n - 1, day); }
  }

  lemma {:induction false} CountIsNatural(policy: Policy, calls: seq<Call>, n: nat)
    requires n <= |calls|
    ensures StateAfter(None, policy, calls, n).Some? ==> StateAfter(None, policy, calls, n).value.requestCount >= 0
  {
    if n > 0 { CountIsNatural(policy, calls, n - 1); }
  }

  lemma {:induction false} CountGrows(policy: Policy, stored: Option<Stored>, call: Call, day: Day)
    requires policy.dayOf(call.now) == day && (stored.Some? ==> stored.value.requestCount >= 0)
    ensures
      var outcome := Apply(stored, policy, call.op, call.now);
      && (stored.Some? && stored.value.quotaDay == day ==>
            && outcome.stored.Some? && outcome.stored.value.quotaDay == day
            && outcome.stored.value.requestCount == stored.value.requestCount + (if outcome.answer.Granted? then 1 else 0)
            && (outcome.answer.Granted? ==> stored.value.requestCount < policy.dailyBudget))
      && (outcome.answer.Granted? ==>
            outcome.stored.Some? && outcome.stored.value.quotaDay == day && outcome.stored.value.requestCount >= 1)
  {
  }

  /** As long as no reading leaves the day of the first grant, the stored count counts every
      grant of that day. */
  lemma {:induction false} UnlessAwayTheCountIsKept(policy: Policy, calls: seq<Call>, first: nat, n: nat, day: Day)
    requires first < n <= |calls| && GrantedAt(None, policy, calls, first) && GrantsOn(policy, calls, first, day) == 0
    requires forall j :: first <= j < n ==> policy.dayOf(calls[j].now) == day
    ensures StateAfter(None, policy, calls, n).Some? && StateAfter(None, policy, calls, n).value.quotaDay == day
    ensures StateAfter(None, policy, calls, n).value.requestCount >= GrantsOn(policy, calls, n, day)
    decreases n
  {
    hide Apply;
    CountIsNatural(policy, calls, n - 1);
    CountGrows(policy, StateAfter(None, policy, calls, n - 1), calls[n - 1], day);
    if n > first + 1 { UnlessAwayTheCountIsKept(policy, calls, first, n - 1, day); }
  }

  lemma {:induction false} NoGrantBeforeTheFirst(policy: Policy, calls: seq<Call>, first: nat, n: nat, day: Day)
    requires first <= n <= |calls|
    requires forall i :: 0 <= i < first ==> !(GrantedAt(None, policy, calls, i) && policy.dayOf(calls[i].now) == day)
    ensures GrantsOn(policy, calls, first, day) == 0
  {
    hide Apply, GrantedAt;
    if first > 0 { NoGrantBeforeTheFirst(policy, calls, first - 1, n, day); }
  }

  /** An overrun budget is always due to readings that leave a day and return to it. */
  lemma {:induction false} OverrunHasCause(policy: Policy, calls: seq<Call>, n: nat, day: Day)
    requires n <= |calls| && GrantsOn(policy, calls, n, day) > policy.dailyBudget
    ensures Overruns(policy.dayOf, policy.minimumInterval, policy.dailyBudget, Readings(calls))
  {
    hide Apply, GrantedAt, StateAfter, Overruns;
    if GrantsOn(policy, calls, n - 1, day) > policy.dailyBudget {
      OverrunHasCause(policy, calls, n - 1, day);
    } else {
      FirstOverrun(policy, calls, n, day);
    }
  }

  lemma {:induction false} FirstOverrun(policy: Policy, calls: seq<Call>, n: nat, day: Day)
    requires n <= |calls| && GrantsOn(policy, calls, n, day) == policy.dailyBudget + 1
    requires 0 < n && GrantedAt(None, policy, calls, n - 1) && policy.dayOf(calls[n - 1].now) == day
    ensures Overruns(policy.dayOf, policy.minimumInterval, policy.dailyBudget, Readings(calls))
  {
    hide Apply, GrantedAt, StateAfter;
    var chain := GrantIndices(policy, calls, n, day);
    GrantIndicesExact(policy, calls, n, day);
    var nows, last := Readings(calls), n - 1;
    assert last in chain && chain[|chain| - 1] == last;
    forall t | 0 <= t < |chain| - 1
      ensures nows[chain[t]] + policy.minimumInterval <= nows[chain[t + 1]]
    {
      GrantsAreAtLeastAnIntervalApart(None, policy, calls, chain[t], chain[t + 1]);
    }
    var away := SomeoneWasAway(policy, calls, chain[0], last, day, chain);
    assert LeavesAndReturns(policy.dayOf, policy.minimumInterval, policy.dailyBudget, nows, chain, away);
  }

  lemma {:induction false} SomeoneWasAway(
    policy: Policy, calls: seq<Call>, first: nat, last: nat, day: Day, chain: seq<nat>) returns (away: nat)
    requires first < last < |calls| && GrantedAt(None, policy, calls, first) && GrantedAt(None, policy, calls, last)
    requires policy.dayOf(calls[first].now) == day && policy.dayOf(calls[last].now) == day
    requires GrantsOn(policy, calls, last, day) >= policy.dailyBudget && |chain| > 0 && chain[0] == first
    requires forall i: nat :: i < last && GrantedAt(None, policy, calls, i) && policy.dayOf(calls[i].now) == day ==> i in chain
    requires forall t, u :: 0 <= t < u < |chain| ==> chain[t] < chain[u]
    ensures first < away < last && policy.dayOf(calls[away].now) != day
  {
    hide Apply, GrantedAt, StateAfter;
    forall i | 0 <= i < first
      ensures !(GrantedAt(None, policy, calls, i) && policy.dayOf(calls[i].now) == day)
    {
    }
    NoGrantBeforeTheFirst(policy, calls, first, last, day);
    if forall j :: first <= j < last ==> policy.dayOf(calls[j].now) == day {
      UnlessAwayTheCountIsKept(policy, calls, first, last, day);
      GrantMeansBelowBudget(policy, calls, last, day);
      assert false;
    }
    away :| first <= away < last && policy.dayOf(calls[away].now) != day;
  }

  lemma {:induction false} GrantMeansBelowBudget(policy: Policy, calls: seq<Call>, i: nat, day: Day)
    requires i < |calls| && GrantedAt(None, policy, calls, i) && policy.dayOf(calls[i].now) == day
    requires StateAfter(None, policy, calls, i).Some? && StateAfter(None, policy, calls, i).value.quotaDay == day
    ensures StateAfter(None, policy, calls, i).value.requestCount < policy.dailyBudget
  {
  }

  lemma {:induction false} GrantsAreAtLeastAnIntervalApart(origin: Option<Stored>, policy: Policy, calls: seq<Call>, i: nat, j: nat)
    requires i < j < |calls| && GrantedAt(origin, policy, calls, i) && GrantedAt(origin, policy, calls, j)
    ensures calls[i].now + policy.minimumInterval <= calls[j].now
  {
    hide Apply, GrantedAt;
    GrantsAreSpaced(origin, policy, calls, i, j);
    AtLeastOnce(policy.minimumInterval, Grants(origin, policy, calls, i + 1, j) + 1);
  }

  lemma {:induction false} AtLeastOnce(interval: nat, count: nat)
    requires count >= 1
    ensures interval * count >= interval
  {
  }

  /** The histories with given readings, under any policy of a given day function, interval and
      budget, keep the budget on every day. */
  ghost predicate BudgetKept(dayOf: Instant -> Day, interval: int, budget: int, nows: seq<Instant>) {
    forall policy: Policy, calls: seq<Call>, day: Day ::
      policy.dayOf == dayOf && policy.minimumInterval == interval && policy.dailyBudget == budget && Readings(calls) == nows
      ==> GrantsOn(policy, calls, |calls|, day) <= budget
  }

  /** The daily budget holds for every choice of operations if and only if the readings do not
      leave a quota day and return to it with room for one more spaced request than allowed. */
  lemma {:induction false} BudgetKeptIff(dayOf: Instant -> Day, interval: int, budget: int, nows: seq<Instant>)
    requires interval >= 0 && budget > 0
    ensures BudgetKept(dayOf, interval, budget, nows) <==> !Overruns(dayOf, interval, budget, nows)
  {
    hide GrantsOn, LeavesAndReturns;
    if chain: seq<nat>, away: nat :| LeavesAndReturns(dayOf, interval, budget, nows, chain, away) {
      var policy: Policy := Policy("p", budget, interval, 1, 1, {}, {}, dayOf);
      OverrunHappens(policy, nows, chain, away);
      assert Readings(ProbeCalls(nows, chain)) == nows;
    }
    if !Overruns(dayOf, interval, budget, nows) {
      forall policy: Policy, calls: seq<Call>, day: Day
        | policy.dayOf == dayOf && policy.minimumInterval == interval && policy.dailyBudget == budget && Readings(calls) == nows
        ensures GrantsOn(policy, calls, |calls|, day) <= budget
      {
        if GrantsOn(policy, calls, |calls|, day) > budget { OverrunHasCause(policy, calls, |calls|, day); }
      }
    }
  }

  /** No reading of another day lies between two readings of one day that are in order. */
  ghost predicate NoReturn(dayOf: Instant -> Day, nows: seq<Instant>) {
    forall i, j, k :: 0 <= i < j < k < |nows| && dayOf(nows[i]) == dayOf(nows[k]) && nows[i] <= nows[k] ==>
      dayOf(nows[j]) == dayOf(nows[i])
  }

  lemma {:induction false} ChainRises(
    dayOf: Instant -> Day, interval: nat, budget: int, nows: seq<Instant>, chain: seq<nat>, away: nat, t: nat)
    requires LeavesAndReturns(dayOf, interval, budget, nows, chain, away) && t < |chain|
    ensures nows[chain[0]] <= nows[chain[t]]
  {
    if t > 0 {
      ChainRises(dayOf, interval, budget, nows, chain, away, t - 1);
      assert nows[chain[t - 1]] + interval <= nows[chain[t - 1 + 1]];
    }
  }

  lemma {:induction false} ReturnNeedsReturn(
    dayOf: Instant -> Day, interval: nat, budget: int, nows: seq<Instant>, chain: seq<nat>, away: nat)
    requires LeavesAndReturns(dayOf, interval, budget, nows, chain, away)
    ensures !NoReturn(dayOf, nows)
  {
    ChainRises(dayOf, interval, budget, nows, chain, away, |chain| - 1);
    assert dayOf(nows[chain[0]]) == dayOf(nows[chain[|chain| - 1]]);
  }

  lemma {:induction false} TwoAreAChain(dayOf: Instant -> Day, nows: seq<Instant>, i: nat, j: nat, k: nat)
    requires i < j < k < |nows| && dayOf(nows[i]) == dayOf(nows[k]) != dayOf(nows[j]) && nows[i] <= nows[k]
    ensures LeavesAndReturns(dayOf, 0, 1, nows, [i, k], j)
  {
  }

  /** Whatever the interval and the budget, and whatever the operations, the daily budget holds
      if and only if no reading returns to a day that another reading left. */
  lemma {:induction false} BudgetAlwaysKeptIff(dayOf: Instant -> Day, nows: seq<Instant>)
    ensures NoReturn(dayOf, nows) <==>
      forall interval, budget :: interval >= 0 && budget > 0 ==> BudgetKept(dayOf, interval, budget, nows)
  {
    hide BudgetKept, LeavesAndReturns;
    if NoReturn(dayOf, nows) {
      forall interval, budget | interval >= 0 && budget > 0
        ensures BudgetKept(dayOf, interval, budget, nows)
      {
        BudgetKeptIff(dayOf, interval, budget, nows);
        if chain: seq<nat>, away: nat :| LeavesAndReturns(dayOf, interval, budget, nows, chain, away) {
          ReturnNeedsReturn(dayOf, interval, budget, nows, chain, away);
        }
      }
    } else {
      var i, j, k :| 0 <= i < j < k < |nows| && dayOf(nows[i]) == dayOf(nows[k]) && nows[i] <= nows[k]
        && dayOf(nows[j]) != dayOf(nows[i]);
      TwoAreAChain(dayOf, nows, i, j, k);
      BudgetKeptIff(dayOf, 0, 1, nows);
      assert !BudgetKept(dayOf, 0, 1, nows);
    }
  }

  // ---- the circuit ------------------------------------------------------------------------------------

  predicate NoSuccessBetween(calls: seq<Call>, i: nat, j: nat)
    requires i < j <= |calls|
  {
    forall k :: i < k < j ==> !calls[k].op.RecordSuccess?
  }

  /** A failure read at `k` would let a request at `j` pass that the failure at `i` forbids. */
  predicate CutsShort(open: int, nows: seq<Instant>, i: nat, k: nat, j: nat) {
    i < k < j < |nows| && nows[k] + open <= nows[j] < nows[i] + open
  }

  ghost predicate Shortens(open: int, nows: seq<Instant>) {
    exists i: nat, k: nat, j: nat :: CutsShort(open, nows, i, k, j)
  }

  /** In every history with given readings, from any stored record and under any policy of a given day function and open time,
      an opened circuit grants nothing for its open time unless a success is recorded. */
  ghost predicate CircuitKept(dayOf: Instant -> Day, open: int, nows: seq<Instant>) {
    forall origin: Option<Stored>, policy: Policy, calls: seq<Call>, i: nat, j: nat ::
      && policy.dayOf == dayOf && policy.circuitOpen == open && Readings(calls) == nows && i < j < |calls|
      && OpensAt(origin, policy, calls, i) && GrantedAt(origin, policy, calls, j) && NoSuccessBetween(calls, i, j)
      ==> calls[j].now >= calls[i].now + open
  }

  /** Until a success or a grant, the circuit is open until the time its last opening set. */
  lemma {:induction false} LastOpeningDecides(origin: Option<Stored>, policy: Policy, calls: seq<Call>, i: nat, m: nat) returns (k: nat)
    requires i < m <= |calls| && OpensAt(origin, policy, calls, i) && NoSuccessBetween(calls, i, m)
    requires forall g :: i < g < m ==> !GrantedAt(origin, policy, calls, g)
    ensures i <= k < m
    ensures StateAfter(origin, policy, calls, m).Some?
    ensures StateAfter(origin, policy, calls, m).value.circuitOpenUntil == Some(calls[k].now + policy.circuitOpen)
    decreases m
  {
    hide Apply, OpensAt, GrantedAt, StateAfter;
    if m == i + 1 {
      OpeningGuards(origin, policy, calls, i);
      k := i;
    } else {
      k := LastOpeningDecides(origin, policy, calls, i, m - 1);
      OpeningStep(origin, policy, calls, m - 1);
      if OpensAt(origin, policy, calls, m - 1) { k := m - 1; }
    }
  }

  lemma {:induction false} OpeningStep(origin: Option<Stored>, policy: Policy, calls: seq<Call>, m: nat)
    requires m < |calls| && !calls[m].op.RecordSuccess? && !GrantedAt(origin, policy, calls, m)
    requires StateAfter(origin, policy, calls, m).Some?
    ensures StateAfter(origin, policy, calls, m + 1).Some?
    ensures StateAfter(origin, policy, calls, m + 1).value.circuitOpenUntil
      == if OpensAt(origin, policy, calls, m) then Some(calls[m].now + policy.circuitOpen)
         else StateAfter(origin, policy, calls, m).value.circuitOpenUntil
  {
  }

  lemma {:induction false} GrantMeansCircuitOver(origin: Option<Stored>, policy: Policy, calls: seq<Call>, j: nat)
    requires j < |calls| && GrantedAt(origin, policy, calls, j)
    requires StateAfter(origin, policy, calls, j).Some? && StateAfter(origin, policy, calls, j).value.circuitOpenUntil.Some?
    ensures calls[j].now >= StateAfter(origin, policy, calls, j).value.circuitOpenUntil.value
  {
  }

  /** A grant that comes too early is always due to an older re-opening in between. */
  lemma {:induction false} EarlyGrantHasCause(origin: Option<Stored>, policy: Policy, calls: seq<Call>, i: nat, j: nat)
    requires i < j < |calls| && OpensAt(origin, policy, calls, i) && GrantedAt(origin, policy, calls, j)
    requires NoSuccessBetween(calls, i, j) && calls[j].now < calls[i].now + policy.circuitOpen
    ensures Shortens(policy.circuitOpen, Readings(calls))
    decreases j
  {
    hide Apply, OpensAt, GrantedAt;
    if g :| i < g < j && GrantedAt(origin, policy, calls, g) {
      GrantsAreAtLeastAnIntervalApart(origin, policy, calls, g, j);
      EarlyGrantHasCause(origin, policy, calls, i, g);
    } else {
      var k := LastOpeningDecides(origin, policy, calls, i, j);
      GrantMeansCircuitOver(origin, policy, calls, j);
      assert CutsShort(policy.circuitOpen, Readings(calls), i, k, j);
    }
  }

  /** Immediate failures at `i` and `k`, a request at `j`, snapshots elsewhere. */
  function FailureCalls(nows: seq<Instant>, i: nat, k: nat, j: nat): (calls: seq<Call>)
    ensures |calls| == |nows|
    ensures forall m: nat :: m < |nows| ==> calls[m] == Call(FailureOp(i, k, j, m), nows[m])
  {
    seq(|nows|, m requires 0 <= m < |nows| => Call(FailureOp(i, k, j, m), nows[m]))
  }

  function FailureOp(i: nat, k: nat, j: nat, m: nat): Operation {
    if m == i || m == k then RecordFailure("rate_limited") else if m == j then BeforeRequest else Snapshot
  }

  lemma {:induction false} FailuresOpen(policy: Policy, nows: seq<Instant>, i: nat, k: nat, j: nat, n: nat)
    requires i < k < j < |nows| && n <= j && policy.immediateCodes == {"rate_limited"}
    ensures
      var stored := StateAfter(None, policy, FailureCalls(nows, i, k, j), n);
      && (stored.Some? <==> n > 0)
      && (n > 0 ==>
            && stored.value.requestCount == 0 && stored.value.lastRequestAt.None?
            && stored.value.circuitOpenUntil
               == if n <= i then None
                  else if n <= k then Some(nows[i] + policy.circuitOpen) else Some(nows[k] + policy.circuitOpen))
  {
    if n > 0 { FailuresOpen(policy, nows, i, k, j, n - 1); }
  }

  lemma {:induction false} EarlyGrantHappens(policy: Policy, nows: seq<Instant>, i: nat, k: nat, j: nat)
    requires policy.immediateCodes == {"rate_limited"} && CutsShort(policy.circuitOpen, nows, i, k, j)
    ensures
      var calls := FailureCalls(nows, i, k, j);
      && OpensAt(None, policy, calls, i) && GrantedAt(None, policy, calls, j) && NoSuccessBetween(calls, i, j)
      && calls[j].now < calls[i].now + policy.circuitOpen
  {
    hide StateAfter;
    FailuresOpen(policy, nows, i, k, j, j);
  }

  /** An opened circuit keeps its time for every choice of operations if and only if no reading
      between is so old that its own open time would be over first. */
  lemma {:induction false} CircuitKeptIff(dayOf: Instant -> Day, open: int, nows: seq<Instant>)
    requires open > 0
    ensures CircuitKept(dayOf, open, nows) <==> !Shortens(open, nows)
  {
    hide OpensAt, GrantedAt, NoSuccessBetween, CutsShort;
    if i: nat, k: nat, j: nat :| CutsShort(open, nows, i, k, j) {
      var policy: Policy := Policy("p", 1, 0, 1, open, {}, {"rate_limited"}, dayOf);
      EarlyGrant(policy, open, nows, i, k, j);
    }
    if !Shortens(open, nows) {
      forall origin: Option<Stored>, policy: Policy, calls: seq<Call>, i: nat, j: nat
        | && policy.dayOf == dayOf && policy.circuitOpen == open && Readings(calls) == nows && i < j < |calls|
          && OpensAt(origin, policy, calls, i) && GrantedAt(origin, policy, calls, j) && NoSuccessBetween(calls, i, j)
        ensures calls[j].now >= calls[i].now + open
      {
        if calls[j].now < calls[i].now + open { EarlyGrantHasCause(origin, policy, calls, i, j); }
      }
    }
  }

  lemma {:induction false} EarlyGrant(policy: Policy, open: int, nows: seq<Instant>, i: nat, k: nat, j: nat)
    requires policy.immediateCodes == {"rate_limited"} && policy.circuitOpen == open && CutsShort(open, nows, i, k, j)
    ensures !CircuitKept(policy.dayOf, open, nows)
  {
    hide OpensAt, GrantedAt, NoSuccessBetween;
    EarlyGrantHappens(policy, nows, i, k, j);
    var calls := FailureCalls(nows, i, k, j);
    assert Readings(calls) == nows;
  }

  /** Whatever the calendar and the open time, an opened circuit keeps it if and only if no reading
      is older than one before it and one after it. */
  lemma {:induction false} CircuitAlwaysKeptIff(dayOf: Instant -> Day, nows: seq<Instant>)
    ensures
      (forall open :: open > 0 ==> CircuitKept(dayOf, open, nows)) <==>
      !exists i, k, j :: 0 <= i < k < j < |nows| && nows[k] < nows[i] && nows[k] < nows[j]
  {
    hide CircuitKept;
    forall open | open > 0
      ensures CircuitKept(dayOf, open, nows) <==> !Shortens(open, nows)
    {
      CircuitKeptIff(dayOf, open, nows);
    }
    if i, k, j :| 0 <= i < k < j < |nows| && nows[k] < nows[i] && nows[k] < nows[j] {
      assert CutsShort(nows[j] - nows[k], nows, i, k, j);
      assert !CircuitKept(dayOf, nows[j] - nows[k], nows);
    }
    if open :| open > 0 && !CircuitKept(dayOf, open, nows) {
      var i: nat, k: nat, j: nat :| CutsShort(open, nows, i, k, j);
      assert nows[k] < nows[i] && nows[k] < nows[j];
    }
  }
}
