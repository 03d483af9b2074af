/** Safety of the governor over whole serial histories of operations.  Spacing and the circuit are
    safe from any stored record; the daily budget is counted from an empty store. */
module GovernorSafety {
  import opened Prelude
  import opened Governor

  /** One operation and the clock reading it was made with. */
  datatype Call = Call(op: Operation, now: Instant)

  /** The stored state after the first `n` calls, from the record `origin`. */
  function StateAfter(origin: Option<Stored>, policy: Policy, calls: seq<Call>, n: nat): Option<Stored>
    requires n <= |calls|
  {
    if n == 0 then origin
    else Apply(StateAfter(origin, policy, calls, n - 1), policy, calls[n - 1].op, calls[n - 1].now).stored
  }

  function AnswerAt(origin: Option<Stored>, policy: Policy, calls: seq<Call>, i: nat): Answer
    requires i < |calls|
  {
    Apply(StateAfter(origin, policy, calls, i), policy, calls[i].op, calls[i].now).answer
  }

  predicate GrantedAt(origin: Option<Stored>, policy: Policy, calls: seq<Call>, i: nat)
    requires i < |calls|
  {
    AnswerAt(origin, policy, calls, i).Granted?
  }

  /** A call that is not blocked writes the store. */
  predicate WritesAt(origin: Option<Stored>, policy: Policy, calls: seq<Call>, i: nat)
    requires i < |calls|
  {
    !AnswerAt(origin, policy, calls, i).Blocked?
  }

  lemma {:induction false} OnlyRequestsAreGranted(origin: Option<Stored>, policy: Policy, calls: seq<Call>, i: nat)
    requires i < |calls| && GrantedAt(origin, policy, calls, i)
    ensures calls[i].op.BeforeRequest? && WritesAt(origin, policy, calls, i)
  {
  }

  /** A request is granted exactly when no limit applies. */
  lemma {:induction false} GrantExact(stored: Option<Stored>, policy: Policy, now: Instant)
    ensures Apply(stored, policy, BeforeRequest, now).answer.Granted? <==>
      && (stored.Some? && stored.value.circuitOpenUntil.Some? ==> now >= stored.value.circuitOpenUntil.value)
      && (stored.Some? && stored.value.lastRequestAt.Some? ==>
            now >= stored.value.lastRequestAt.value + policy.minimumInterval)
      && (stored.Some? && stored.value.quotaDay == policy.dayOf(now) ==>
            stored.value.requestCount < policy.dailyBudget)
  {
  }

  // ---- spacing -------------------------------------------------------------------------------------

  /** Grants among the calls `from..to`. */
  function Grants(origin: Option<Stored>, policy: Policy, calls: seq<Call>, from: nat, to: nat): nat
    requires from <= to <= |calls|
  {
    if from == to then 0
    else Grants(origin, policy, calls, from, to - 1) + (if GrantedAt(origin, policy, calls, to - 1) then 1 else 0)
  }

  lemma {:induction false} StepKeepsLastRequest(stored: Option<Stored>, policy: Policy, call: Call)
    requires stored.Some?
    ensures
      var outcome := Apply(stored, policy, call.op, call.now);
      && outcome.stored.Some?
      && (if outcome.answer.Granted? then
            outcome.stored.value.lastRequestAt == Some(call.now)
            && (stored.value.lastRequestAt.Some? ==>
                  call.now >= stored.value.lastRequestAt.value + policy.minimumInterval)
          else outcome.stored.value.lastRequestAt == stored.value.lastRequestAt)
  {
  }

  lemma {:induction false} Distribute(interval: int, count: int)
    ensures interval * (count + 1) == interval * count + interval
  {
  }

  lemma {:induction false} LastRequestIsSpaced(origin: Option<Stored>, policy: Policy, calls: seq<Call>, i: nat, j: nat)
    requires i < j <= |calls| && GrantedAt(origin, policy, calls, i)
    ensures StateAfter(origin, policy, calls, j).Some? && StateAfter(origin, policy, calls, j).value.lastRequestAt.Some?
    ensures StateAfter(origin, policy, calls, j).value.lastRequestAt.value
      >= calls[i].now + policy.minimumInterval * Grants(origin, policy, calls, i + 1, j)
    decreases j
  {
    hide Apply;
    if j == i + 1 {
      FirstGrantIsStored(origin, policy, calls, i);
    } else {
      LastRequestIsSpaced(origin, policy, calls, i, j - 1);
      StepKeepsLastRequest(StateAfter(origin, policy, calls, j - 1), policy, calls[j - 1]);
      Distribute(policy.minimumInterval, Grants(origin, policy, calls, i + 1, j - 1));
    }
  }

  lemma {:induction false} FirstGrantIsStored(origin: Option<Stored>, policy: Policy, calls: seq<Call>, i: nat)
    requires i < |calls| && GrantedAt(origin, policy, calls, i)
    ensures StateAfter(origin, policy, calls, i + 1).Some?
    ensures StateAfter(origin, policy, calls, i + 1).value.lastRequestAt == Some(calls[i].now)
  {
  }

  /** Granted requests are spaced in commit order, for any clock readings and across day
      rollovers: the k-th grant after one lies at least k intervals later. */
  lemma {:induction false} GrantsAreSpaced(origin: Option<Stored>, policy: Policy, calls: seq<Call>, i: nat, j: nat)
    requires i < j < |calls| && GrantedAt(origin, policy, calls, i) && GrantedAt(origin, policy, calls, j)
    ensures calls[j].now >= calls[i].now + policy.minimumInterval * (Grants(origin, policy, calls, i + 1, j) + 1)
  {
    hide Apply;
    LastRequestIsSpaced(origin, policy, calls, i, j);
    StepKeepsLastRequest(StateAfter(origin, policy, calls, j), policy, calls[j]);
    Distribute(policy.minimumInterval, Grants(origin, policy, calls, i + 1, j));
  }

  // ---- the daily budget ------------------------------------------------------------------------------

  /** Grants on a quota day among the first `n` calls. */
  function GrantsOn(policy: Policy, calls: seq<Call>, n: nat, day: Day): nat
    requires n <= |calls|
  {
    if n == 0 then 0
    else
      GrantsOn(policy, calls, n - 1, day)
      + (if GrantedAt(None, policy, calls, n - 1) && policy.dayOf(calls[n - 1].now) == day then 1 else 0)
  }

  /** The stored count is the true number of grants on the stored day. */
  predicate Ledger(policy: Policy, calls: seq<Call>, n: nat)
    requires n <= |calls|
  {
    var stored := StateAfter(None, policy, calls, n);
    stored.Some? ==> stored.value.requestCount == GrantsOn(policy, calls, n, stored.value.quotaDay)
  }

  /** Call `i`, if it writes, does so on the stored day or on a day without any grant yet. */
  predicate KeepsDay(policy: Policy, calls: seq<Call>, i: nat)
    requires i < |calls|
  {
    var stored, today := StateAfter(None, policy, calls, i), policy.dayOf(calls[i].now);
    WritesAt(None, policy, calls, i) && stored.Some? && stored.value.quotaDay != today ==>
      GrantsOn(policy, calls, i, today) == 0
  }

  /** The first call always writes: an empty store blocks nothing. */
  lemma {:induction false} OnlyTheEmptyRunStoresNothing(policy: Policy, calls: seq<Call>, n: nat)
    requires n <= |calls|
    ensures StateAfter(None, policy, calls, n).None? <==> n == 0
  {
    if n > 0 { OnlyTheEmptyRunStoresNothing(policy, calls, n - 1); }
  }

  /** Exactly the calls that keep the day keep the ledger. */
  lemma {:induction false} LedgerStep(policy: Policy, calls: seq<Call>, i: nat)
    requires i < |calls| && Ledger(policy, calls, i)
    ensures Ledger(policy, calls, i + 1) <==> KeepsDay(policy, calls, i)
  {
    OnlyTheEmptyRunStoresNothing(policy, calls, i);
    var today := policy.dayOf(calls[i].now);
    assert i == 0 ==> GrantsOn(policy, calls, i, today) == 0;
    assert GrantsOn(policy, calls, i + 1, today)
        == GrantsOn(policy, calls, i, today) + (if GrantedAt(None, policy, calls, i) then 1 else 0);
  }

  /** The books are right after every call if and only if no call ever writes on a day that
      was left after grants had been made on it. */
  lemma {:induction false} LedgerIffDaysKept(policy: Policy, calls: seq<Call>, n: nat)
    requires n <= |calls|
    ensures (forall i :: 0 <= i <= n ==> Ledger(policy, calls, i)) <==>
      (forall i :: 0 <= i < n ==> KeepsDay(policy, calls, i))
  {
    hide Ledger, KeepsDay;
    if n == 0 {
      EmptyLedger(policy, calls);
    } else {
      LedgerIffDaysKept(policy, calls, n - 1);
      if Ledger(policy, calls, n - 1) { LedgerStep(policy, calls, n - 1); }
    }
  }

  lemma {:induction false} EmptyLedger(policy: Policy, calls: seq<Call>)
    ensures Ledger(policy, calls, 0)
  {
  }

  /** As long as the days are kept, no quota day ever sees more grants than the budget. */
  lemma {:induction false} BudgetHolds(policy: Policy, calls: seq<Call>, n: nat, day: Day)
    requires n <= |calls|
    requires forall i :: 0 <= i < n ==> KeepsDay(policy, calls, i)
    ensures GrantsOn(policy, calls, n, day) <= policy.dailyBudget
  {
    hide Ledger, KeepsDay, GrantedAt;
    if n > 0 {
      BudgetHolds(policy, calls, n - 1, day);
      LedgerIffDaysKept(policy, calls, n - 1);
      GrantWithinBudget(policy, calls, n - 1);
    }
  }

  lemma {:induction false} GrantWithinBudget(policy: Policy, calls: seq<Call>, i: nat)
    requires i < |calls| && Ledger(policy, calls, i) && KeepsDay(policy, calls, i)
    ensures GrantedAt(None, policy, calls, i) ==> GrantsOn(policy, calls, i, policy.dayOf(calls[i].now)) < policy.dailyBudget
  {
    OnlyTheEmptyRunStoresNothing(policy, calls, i);
  }

  /** Clock readings whose quota days never go back among the calls that write. */
  predicate DaysMonotone(policy: Policy, calls: seq<Call>) {
    forall i, j :: 0 <= i < j < |calls| && WritesAt(None, policy, calls, i) && WritesAt(None, policy, calls, j) ==>
      policy.dayOf(calls[i].now) <= policy.dayOf(calls[j].now)
  }

  /** The stored day is the day of the last call that wrote. */
  lemma {:induction false} LastWrite(policy: Policy, calls: seq<Call>, n: nat) returns (last: nat)
    requires n <= |calls| && StateAfter(None, policy, calls, n).Some?
    ensures last < n && WritesAt(None, policy, calls, last)
    ensures policy.dayOf(calls[last].now) == StateAfter(None, policy, calls, n).value.quotaDay
    ensures forall j :: last < j < n ==> !WritesAt(None, policy, calls, j)
  {
    hide Apply;
    if WritesAt(None, policy, calls, n - 1) { last := n - 1; } else { last := LastWrite(policy, calls, n - 1); }
  }

  lemma {:induction false} NoGrantAhead(policy: Policy, calls: seq<Call>, n: nat, day: Day)
    requires n <= |calls|
    requires forall i :: 0 <= i < n && WritesAt(None, policy, calls, i) ==> policy.dayOf(calls[i].now) != day
    ensures GrantsOn(policy, calls, n, day) == 0
  {
    hide Apply;
    if n > 0 { NoGrantAhead(policy, calls, n - 1, day); }
  }

  /** With quota days monotone in commit order and a fixed policy, grants per quota day never
      exceed the budget. */
  lemma {:induction false} MonotoneClockKeepsBudget(policy: Policy, calls: seq<Call>, n: nat, day: Day)
    requires n <= |calls| && DaysMonotone(policy, calls)
    ensures GrantsOn(policy, calls, n, day) <= policy.dailyBudget
  {
    hide Apply, WritesAt, GrantsOn;
    forall i | 0 <= i < n
      ensures KeepsDay(policy, calls, i)
    {
      var stored, today := StateAfter(None, policy, calls, i), policy.dayOf(calls[i].now);
      if WritesAt(None, policy, calls, i) && stored.Some? && stored.value.quotaDay != today {
        var last := LastWrite(policy, calls, i);
        NoGrantAhead(policy, calls, i, today);
      }
    }
    BudgetHolds(policy, calls, n, day);
  }

  const DAY_LENGTH: int := 86_400_000_000

  /** The calendar day of an instant in UTC. */
  function UtcDay(t: Instant): Day { t / DAY_LENGTH }

  /** Without monotone days the budget can be exceeded: at midnight, a late write with
      yesterday's reading forgets today's grants. */
  lemma {:induction false} SkewDefeatsBudget() returns (policy: Policy, calls: seq<Call>)
    ensures policy.dayOf == UtcDay && policy.dailyBudget == 1
    ensures calls == [Call(BeforeRequest, DAY_LENGTH), Call(Snapshot, DAY_LENGTH - 1), Call(BeforeRequest, DAY_LENGTH)]
    ensures GrantsOn(policy, calls, 3, 1) == 2
    ensures !KeepsDay(policy, calls, 2)
  {
    var d := DAY_LENGTH;
    policy := Policy("p", 1, 0, 3, 300_000_000, {}, {"rate_limited"}, UtcDay);
    calls := [Call(BeforeRequest, d), Call(Snapshot, d - 1), Call(BeforeRequest, d)];
    assert policy.dayOf(d) == 1 && policy.dayOf(d - 1) == 0;
    var s1 := Stored(1, 1, 1, 0, 0, 0, map[], Some(d), None);
    assert StateAfter(None, policy, calls, 1) == Some(s1);
    var s2 := Stored(0, 1, 0, 0, 0, 0, map[], Some(d), None);
    assert StateAfter(None, policy, calls, 2) == Some(s2);
    assert GrantedAt(None, policy, calls, 0) && !GrantedAt(None, policy, calls, 1) && GrantedAt(None, policy, calls, 2);
    assert GrantsOn(policy, calls, 1, 1) == 1;
    assert GrantsOn(policy, calls, 2, 1) == 1;
  }

  // ---- the circuit -------------------------------------------------------------------------------------

  /** Call `i` records a failure that opens the circuit. */
  predicate OpensAt(origin: Option<Stored>, policy: Policy, calls: seq<Call>, i: nat)
    requires i < |calls|
  {
    calls[i].op.RecordFailure?
    && OpensCircuit(StateForToday(StateAfter(origin, policy, calls, i), policy, calls[i].now), policy, calls[i].op.code)
  }

  /** No request before `t` can be granted: the circuit is open until then, or a request was
      granted no earlier. */
  predicate Guarded(s: Stored, t: Instant) {
    if s.circuitOpenUntil.Some? then s.circuitOpenUntil.value >= t
    else s.lastRequestAt.Some? && s.lastRequestAt.value >= t
  }

  lemma {:induction false} OpeningGuards(origin: Option<Stored>, policy: Policy, calls: seq<Call>, i: nat)
    requires i < |calls| && OpensAt(origin, policy, calls, i)
    ensures StateAfter(origin, policy, calls, i + 1).Some?
    ensures StateAfter(origin, policy, calls, i + 1).value.circuitOpenUntil == Some(calls[i].now + policy.circuitOpen)
  {
  }

  /** Every call but a success keeps the guard, except that a second opening failure keeps it
      exactly when its own clock reading is not too old. */
  lemma {:induction false} GuardStep(origin: Option<Stored>, policy: Policy, calls: seq<Call>, m: nat, t: Instant)
    requires m < |calls| && !calls[m].op.RecordSuccess?
    requires StateAfter(origin, policy, calls, m).Some? && Guarded(StateAfter(origin, policy, calls, m).value, t)
    ensures StateAfter(origin, policy, calls, m + 1).Some?
    ensures Guarded(StateAfter(origin, policy, calls, m + 1).value, t)
      <==> (OpensAt(origin, policy, calls, m) ==> calls[m].now + policy.circuitOpen >= t)
    ensures GrantedAt(origin, policy, calls, m) ==> calls[m].now >= t
  {
  }

  lemma {:induction false} GuardLasts(origin: Option<Stored>, policy: Policy, calls: seq<Call>, i: nat, m: nat)
    requires i < m <= |calls| && OpensAt(origin, policy, calls, i)
    requires forall k :: i < k < m ==> !calls[k].op.RecordSuccess?
    requires forall k :: i < k < m && OpensAt(origin, policy, calls, k) ==> calls[k].now >= calls[i].now
    ensures StateAfter(origin, policy, calls, m).Some?
    ensures Guarded(StateAfter(origin, policy, calls, m).value, calls[i].now + policy.circuitOpen)
    decreases m
  {
    if m == i + 1 {
      OpeningGuards(origin, policy, calls, i);
    } else {
      hide Apply, Guarded, OpensAt;
      GuardLasts(origin, policy, calls, i, m - 1);
      GuardStep(origin, policy, calls, m - 1, calls[i].now + policy.circuitOpen);
    }
  }

  /** After a failure at `t` opened the circuit, nothing is granted before `t` plus the open
      time, unless a success is recorded or a later failure re-opens the circuit with an older
      clock reading. */
  lemma {:induction false} OpenCircuitHolds(origin: Option<Stored>, policy: Policy, calls: seq<Call>, i: nat, j: nat)
    requires i < j < |calls| && OpensAt(origin, policy, calls, i) && GrantedAt(origin, policy, calls, j)
    requires forall k :: i < k < j ==> !calls[k].op.RecordSuccess?
    requires forall k :: i < k < j && OpensAt(origin, policy, calls, k) ==> calls[k].now >= calls[i].now
    ensures calls[j].now >= calls[i].now + policy.circuitOpen
  {
    GuardLasts(origin, policy, calls, i, j);
    OnlyRequestsAreGranted(origin, policy, calls, j);
    GuardStep(origin, policy, calls, j, calls[i].now + policy.circuitOpen);
  }

  /** Without that clock condition the open time can be cut short: five minutes after a failure
      read at midnight are over at once if another failure was read five minutes before it. */
  lemma {:induction false} SkewShortensCircuit() returns (policy: Policy, calls: seq<Call>)
    ensures policy.dayOf == UtcDay && policy.circuitOpen == 300_000_000
    ensures calls == [
      Call(RecordFailure("rate_limited"), DAY_LENGTH), Call(RecordFailure("rate_limited"), DAY_LENGTH - 300_000_000),
      Call(BeforeRequest, DAY_LENGTH)]
    ensures OpensAt(None, policy, calls, 0) && GrantedAt(None, policy, calls, 2)
    ensures calls[2].now < calls[0].now + policy.circuitOpen
  {
    var d := DAY_LENGTH;
    policy := Policy("p", 1, 0, 3, 300_000_000, {}, {"rate_limited"}, UtcDay);
    calls := [
      Call(RecordFailure("rate_limited"), d), Call(RecordFailure("rate_limited"), d - 300_000_000),
      Call(BeforeRequest, d)];
    assert policy.dayOf(d) == 1 && policy.dayOf(d - 300_000_000) == 0;
    var s1 := Stored(1, 1, 0, 0, 1, 0, map["rate_limited" := 1], None, Some(d + 300_000_000));
    assert StateAfter(None, policy, calls, 1) == Some(s1);
    var s2 := Stored(0, 1, 0, 0, 1, 0, map["rate_limited" := 1], None, Some(d));
    assert StateAfter(None, policy, calls, 2) == Some(s2);
  }
}
