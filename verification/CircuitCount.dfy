/** When the circuit opens and whom it blocks, read off the calls and their answers alone: nothing
    here looks at the stored failure count or the stored open time. */
module CircuitCount {
  import opened Prelude
  import opened Governor
  import opened GovernorSafety
  import opened RedisGovernor

  /** Call `i` is a failure whose code counts against the circuit. */
  predicate CountsAt(policy: Policy, calls: seq<Call>, i: nat)
    requires i < |calls|
  {
    calls[i].op.RecordFailure? && calls[i].op.code in policy.circuitCodes
  }

  /** Call `i` ends the open circuit: a success, or a granted request. */
  predicate EndsAt(policy: Policy, calls: seq<Call>, i: nat)
    requires i < |calls|
  {
    calls[i].op.RecordSuccess? || GrantedAt(None, policy, calls, i)
  }

  /** The failures that count among the first `n` calls, from the last success or the last request
      that closed a tripped circuit on. */
  ghost function Streak(policy: Policy, calls: seq<Call>, n: nat): nat
    requires n <= |calls|
    decreases n, 0
  {
    if n == 0 then 0
    else if calls[n - 1].op.RecordSuccess? then 0
    else if GrantedAt(None, policy, calls, n - 1) && Tripped(policy, calls, n - 1) then 0
    else Streak(policy, calls, n - 1) + (if CountsAt(policy, calls, n - 1) then 1 else 0)
  }

  /** Call `i` is a failure that trips the circuit: its code is immediate, or with it the count
      reaches the threshold. */
  ghost predicate TripsAt(policy: Policy, calls: seq<Call>, i: nat)
    requires i < |calls|
    decreases i, 1
  {
    && calls[i].op.RecordFailure?
    && (|| calls[i].op.code in policy.immediateCodes
        || Streak(policy, calls, i) + (if CountsAt(policy, calls, i) then 1 else 0) >= policy.failureThreshold)
  }

  /** Some call among the first `n` tripped the circuit and nothing ended it since. */
  ghost predicate Tripped(policy: Policy, calls: seq<Call>, n: nat)
    requires n <= |calls|
    decreases n, 2
  {
    n > 0 && (TripsAt(policy, calls, n - 1) || (!EndsAt(policy, calls, n - 1) && Tripped(policy, calls, n - 1)))
  }

  /** Call `i` tripped the circuit and nothing since, up to call `n`, tripped it again or ended it. */
  ghost predicate LastTrip(policy: Policy, calls: seq<Call>, i: nat, n: nat)
    requires n <= |calls|
  {
    && i < n && TripsAt(policy, calls, i)
    && forall k :: i < k < n ==> !EndsAt(policy, calls, k) && !TripsAt(policy, calls, k)
  }

  // ---- the stored state agrees -------------------------------------------------------------------

  /** What is stored after `n` calls says what the calls say. */
  ghost predicate Agrees(policy: Policy, calls: seq<Call>, n: nat)
    requires n <= |calls|
  {
    var stored := StateAfter(None, policy, calls, n);
    && (stored.Some? <==> n > 0)
    && (stored.Some? ==>
          && stored.value.consecutiveFailures == Streak(policy, calls, n)
          && (stored.value.circuitOpenUntil.Some? <==> Tripped(policy, calls, n))
          && forall i: nat :: i < n && LastTrip(policy, calls, i, n) ==>
               stored.value.circuitOpenUntil == Some(calls[i].now + policy.circuitOpen))
  }

  /** Reading the stored record on another day changes neither count nor circuit. */
  lemma {:induction false} TodayKeepsCircuit(stored: Option<Stored>, policy: Policy, now: Instant)
    ensures
      var s := StateForToday(stored, policy, now);
      && s.consecutiveFailures == (if stored.Some? then stored.value.consecutiveFailures else 0)
      && s.circuitOpenUntil == (if stored.Some? then stored.value.circuitOpenUntil else None)
  {
  }

  lemma {:induction false} OpensIffTrips(policy: Policy, calls: seq<Call>, i: nat)
    requires i < |calls| && Agrees(policy, calls, i)
    ensures OpensAt(None, policy, calls, i) <==> TripsAt(policy, calls, i)
  {
    hide Tripped, LastTrip;
    TodayKeepsCircuit(StateAfter(None, policy, calls, i), policy, calls[i].now);
    assert i == 0 ==> Streak(policy, calls, i) == 0;
  }

  /** What one call does to the last trip. */
  lemma {:induction false} LastTripStep(policy: Policy, calls: seq<Call>, i: nat, n: nat)
    requires i <= n < |calls|
    ensures LastTrip(policy, calls, i, n + 1) <==>
      if i == n then TripsAt(policy, calls, n)
      else LastTrip(policy, calls, i, n) && !EndsAt(policy, calls, n) && !TripsAt(policy, calls, n)
  {
    hide TripsAt, EndsAt;
  }

  lemma {:induction false} TheLastTrip(policy: Policy, calls: seq<Call>, n: nat) returns (i: nat)
    requires n <= |calls| && Tripped(policy, calls, n)
    ensures i < n && LastTrip(policy, calls, i, n)
  {
    hide TripsAt, EndsAt, LastTrip;
    if TripsAt(policy, calls, n - 1) { i := n - 1; } else { i := TheLastTrip(policy, calls, n - 1); }
    LastTripStep(policy, calls, i, n - 1);
  }

  lemma {:induction false} LastTripIsTripped(policy: Policy, calls: seq<Call>, i: nat, n: nat)
    requires n <= |calls| && LastTrip(policy, calls, i, n)
    ensures Tripped(policy, calls, n)
  {
    hide TripsAt, EndsAt;
    if i < n - 1 { LastTripIsTripped(policy, calls, i, n - 1); }
  }

  /** What one call does to the stored count and circuit, whatever is stored. */
  lemma {:induction false} StoredStep(policy: Policy, stored: Option<Stored>, call: Call)
    ensures
      var s, r := StateForToday(stored, policy, call.now), Apply(stored, policy, call.op, call.now);
      && (call.op.BeforeRequest? <==> r.answer.Granted? || r.answer.Blocked?)
      && (r.answer.Blocked? ==> r.stored == stored)
      && (stored.None? ==> !r.answer.Blocked?)
      && (!r.answer.Blocked? ==>
            && r.stored.Some?
            && r.stored.value.circuitOpenUntil ==
                 (match call.op
                  case RecordSuccess => None
                  case BeforeRequest => None
                  case RecordFailure(code) =>
                    if OpensCircuit(s, policy, code) then Some(call.now + policy.circuitOpen) else s.circuitOpenUntil
                  case Snapshot => s.circuitOpenUntil)
            && r.stored.value.consecutiveFailures ==
                 (match call.op
                  case RecordSuccess => 0
                  case BeforeRequest => if s.circuitOpenUntil.Some? then 0 else s.consecutiveFailures
                  case RecordFailure(code) => s.consecutiveFailures + (if code in policy.circuitCodes then 1 else 0)
                  case Snapshot => s.consecutiveFailures))
  {
  }

  lemma {:induction false} CallAgrees(policy: Policy, calls: seq<Call>, n: nat)
    requires n < |calls| && Agrees(policy, calls, n)
    ensures Agrees(policy, calls, n + 1)
  {
    hide Apply, OpensCircuit, LastTrip, TripsAt, StateForToday;
    var stored, call := StateAfter(None, policy, calls, n), calls[n];
    OpensIffTrips(policy, calls, n);
    StoredStep(policy, stored, call);
    TodayKeepsCircuit(stored, policy, call.now);
    if TripsAt(policy, calls, n) { OnlyFailuresTrip(policy, calls, n); }
    forall i: nat | i < n + 1 && LastTrip(policy, calls, i, n + 1)
      ensures StateAfter(None, policy, calls, n + 1).value.circuitOpenUntil == Some(calls[i].now + policy.circuitOpen)
    {
      LastTripStep(policy, calls, i, n);
    }
    var after := StateAfter(None, policy, calls, n + 1);
    assert after.Some?;
    assert after.value.consecutiveFailures == Streak(policy, calls, n + 1);
    assert after.value.circuitOpenUntil.Some? <==> Tripped(policy, calls, n + 1);
  }

  lemma {:induction false} OnlyFailuresTrip(policy: Policy, calls: seq<Call>, i: nat)
    requires i < |calls| && TripsAt(policy, calls, i)
    ensures calls[i].op.RecordFailure?
  {
  }

  lemma {:induction false} RunAgrees(policy: Policy, calls: seq<Call>, n: nat)
    requires n <= |calls|
    ensures Agrees(policy, calls, n)
  {
    hide Agrees;
    if n > 0 {
      RunAgrees(policy, calls, n - 1);
      CallAgrees(policy, calls, n - 1);
    } else {
      assert Agrees(policy, calls, 0) by { NothingAgrees(policy, calls); }
    }
  }

  lemma {:induction false} NothingAgrees(policy: Policy, calls: seq<Call>)
    ensures Agrees(policy, calls, 0)
  {
  }

  // ---- what a caller sees ---------------------------------------------------------------------------

  /** In every history, across days, a failure opens the circuit if and only if its code is immediate
      or the failures that count have reached the threshold with it. */
  lemma {:induction false} CircuitOpensIff(policy: Policy, calls: seq<Call>, i: nat)
    requires i < |calls|
    ensures OpensAt(None, policy, calls, i) <==> TripsAt(policy, calls, i)
  {
    hide Agrees, OpensAt, TripsAt;
    RunAgrees(policy, calls, i);
    OpensIffTrips(policy, calls, i);
  }

  lemma {:induction false} BlockedByCircuit(policy: Policy, stored: Option<Stored>, call: Call, until: Option<Instant>)
    ensures Apply(stored, policy, call.op, call.now).answer == Blocked(CircuitOpen, until) <==>
      && call.op.BeforeRequest? && stored.Some? && stored.value.circuitOpenUntil.Some?
      && until == stored.value.circuitOpenUntil && call.now < until.value
  {
  }

  /** A request is blocked for the circuit if and only if some failure tripped it, nothing since ended
      or tripped it again, and the request was read before that failure's open time is over, which is
      when it may be tried again. */
  lemma {:induction false} CircuitBlocksIff(policy: Policy, calls: seq<Call>, j: nat, until: Option<Instant>)
    requires j < |calls|
    ensures AnswerAt(None, policy, calls, j) == Blocked(CircuitOpen, until) <==>
      && calls[j].op.BeforeRequest?
      && exists i: nat :: i < j && LastTrip(policy, calls, i, j)
           && until == Some(calls[i].now + policy.circuitOpen) && calls[j].now < calls[i].now + policy.circuitOpen
  {
    hide Apply, LastTrip, Tripped;
    RunAgrees(policy, calls, j);
    BlockedByCircuit(policy, StateAfter(None, policy, calls, j), calls[j], until);
    if Tripped(policy, calls, j) {
      var i := TheLastTrip(policy, calls, j);
      assert LastTrip(policy, calls, i, j);
    }
    forall i: nat | i < j && LastTrip(policy, calls, i, j)
      ensures Tripped(policy, calls, j)
    {
      LastTripIsTripped(policy, calls, i, j);
    }
  }

  /** The same for any number of interleaved clients, in the order their operations took effect. */
  lemma {:induction false} InterleavedCircuitBlocksIff(policy: Policy, events: seq<Event>, j: nat, until: Option<Instant>)
    requires j < |Run(policy, events).log|
    ensures
      var log := Run(policy, events).log;
      var calls := CallsOf(log);
      log[j].answer == Blocked(CircuitOpen, until) <==>
        && calls[j].op.BeforeRequest?
        && exists i: nat :: i < j && LastTrip(policy, calls, i, j)
             && until == Some(calls[i].now + policy.circuitOpen) && calls[j].now < calls[i].now + policy.circuitOpen
  {
    hide Run, LastTrip, RedisGovernor.Recorded, StateAfter;
    RunIsLinearized(policy, events);
    CircuitBlocksIff(policy, CallsOf(Run(policy, events).log), j, until);
  }

  /** After a failure that trips, and before anything else, every request is blocked for the whole
      open time, and none is any longer once it is over. */
  lemma {:induction false} TrippedBlocksNext(policy: Policy, calls: seq<Call>, j: nat)
    requires 0 < j < |calls| && TripsAt(policy, calls, j - 1) && calls[j].op.BeforeRequest?
    ensures AnswerAt(None, policy, calls, j) == Blocked(CircuitOpen, Some(calls[j - 1].now + policy.circuitOpen)) <==>
      calls[j].now < calls[j - 1].now + policy.circuitOpen
  {
    hide AnswerAt, TripsAt;
    CircuitBlocksIff(policy, calls, j, Some(calls[j - 1].now + policy.circuitOpen));
    LastTripStep(policy, calls, j - 1, j - 1);
    assert LastTrip(policy, calls, j - 1, j);
  }
}
