/** The provider request governor: daily budget, request spacing and circuit breaker over one
    stored state shared by many processes.  Instants are integer microseconds. */
module Governor {
  import opened Prelude

  type Instant = int

  type Day = int

  /** `dayOf` is the quota timezone: the calendar day of an instant. */
  datatype PolicyRecord = Policy(
    provider: string,
    dailyBudget: int,
    minimumInterval: int,
    failureThreshold: int,
    circuitOpen: int,
    circuitCodes: set<string>,
    immediateCodes: set<string>,
    dayOf: Instant -> Day)

  type Policy = p: PolicyRecord | p.dailyBudget > 0 && p.minimumInterval >= 0 && p.failureThreshold > 0 && p.circuitOpen > 0
    witness Policy("p", 1, 0, 3, 300_000_000, {}, {"rate_limited"}, (t: Instant) => t / 86_400_000_000)

  /** The state as it is persisted. */
  datatype Stored = Stored(
    quotaDay: Day,
    dailyBudget: int,
    requestCount: int,
    successCount: int,
    failureCount: int,
    consecutiveFailures: int,
    failureCounts: map<string, int>,
    lastRequestAt: Option<Instant>,
    circuitOpenUntil: Option<Instant>)

  datatype BlockCode = RateWindow | DailyBudgetExhausted | CircuitOpen

  datatype Operation = BeforeRequest | RecordSuccess | RecordFailure(code: string) | Snapshot

  datatype Answer =
    | Granted
    | Blocked(code: BlockCode, retryAt: Option<Instant>)
    | Recorded
    | Usage(snapshot: Stored)

  // ---- one operation as a function of the stored state ------------------------------------------

  function FreshState(day: Day, budget: int): Stored {
    Stored(day, budget, 0, 0, 0, 0, map[], None, None)
  }

  /** A new day resets the counters, but neither the last request nor the circuit. */
  function RolledOver(s: Stored, day: Day, budget: int): Stored {
    s.(quotaDay := day, dailyBudget := budget, requestCount := 0, successCount := 0, failureCount := 0,
       failureCounts := map[])
  }

  function StateForToday(stored: Option<Stored>, policy: Policy, now: Instant): Stored {
    var today := policy.dayOf(now);
    if stored.None? then FreshState(today, policy.dailyBudget)
    else if stored.value.quotaDay != today then RolledOver(stored.value, today, policy.dailyBudget)
    else stored.value.(dailyBudget := policy.dailyBudget)
  }

  /** An expired circuit is closed before the other limits are looked at. */
  function CircuitChecked(s: Stored): Stored {
    if s.circuitOpenUntil.Some? then s.(circuitOpenUntil := None, consecutiveFailures := 0) else s
  }

  datatype Effect = Effect(state: Stored, answer: Answer)

  function BeforeRequestEffect(s: Stored, policy: Policy, now: Instant): Effect {
    if s.circuitOpenUntil.Some? && now < s.circuitOpenUntil.value then
      Effect(s, Blocked(CircuitOpen, s.circuitOpenUntil))
    else
      var open := CircuitChecked(s);
      if open.lastRequestAt.Some? && now < open.lastRequestAt.value + policy.minimumInterval then
        Effect(open, Blocked(RateWindow, Some(open.lastRequestAt.value + policy.minimumInterval)))
      else if open.requestCount >= policy.dailyBudget then Effect(open, Blocked(DailyBudgetExhausted, None))
      else Effect(open.(requestCount := open.requestCount + 1, lastRequestAt := Some(now)), Granted)
  }

  function SuccessEffect(s: Stored): Stored {
    s.(successCount := s.successCount + 1, consecutiveFailures := 0, circuitOpenUntil := None)
  }

  function CountOf(counts: map<string, int>, code: string): int {
    if code in counts then counts[code] else 0
  }

  /** A failure whose code counts against the circuit opens it at the threshold; an immediate
      code opens it at once. */
  function OpensCircuit(s: Stored, policy: Policy, code: string): bool {
    var consecutive := s.consecutiveFailures + (if code in policy.circuitCodes then 1 else 0);
    code in policy.immediateCodes || consecutive >= policy.failureThreshold
  }

  function FailureEffect(s: Stored, policy: Policy, code: string, now: Instant): Stored {
    s.(failureCount := s.failureCount + 1,
       failureCounts := s.failureCounts[code := CountOf(s.failureCounts, code) + 1],
       consecutiveFailures := s.consecutiveFailures + (if code in policy.circuitCodes then 1 else 0),
       circuitOpenUntil := if OpensCircuit(s, policy, code) then Some(now + policy.circuitOpen) else s.circuitOpenUntil)
  }

  function OperationEffect(s: Stored, policy: Policy, op: Operation, now: Instant): Effect {
    match op
    case BeforeRequest => BeforeRequestEffect(s, policy, now)
    case RecordSuccess => Effect(SuccessEffect(s), Recorded)
    case RecordFailure(code) => Effect(FailureEffect(s, policy, code, now), Recorded)
    case Snapshot => Effect(s, Usage(s))
  }

  /** The answer of an operation, and what is stored afterwards: a blocked request raises
      before anything is written. */
  datatype Commit = Commit(stored: Option<Stored>, answer: Answer)

  function Apply(stored: Option<Stored>, policy: Policy, op: Operation, now: Instant): (r: Commit)
    ensures r.answer.Blocked? ==> r.stored == stored
    ensures !r.answer.Blocked? ==> r.stored.Some? && r.stored.value.quotaDay == policy.dayOf(now)
  {
    var effect := OperationEffect(StateForToday(stored, policy, now), policy, op, now);
    if effect.answer.Blocked? then Commit(stored, effect.answer) else Commit(Some(effect.state), effect.answer)
  }

  // ---- the mutable state object --------------------------------------------------------------------

  class ProviderState {
    var quotaDay: Day
    var dailyBudget: int
    var requestCount: int
    var successCount: int
    var failureCount: int
    var consecutiveFailures: int
    var failureCounts: map<string, int>
    var lastRequestAt: Option<Instant>
    var circuitOpenUntil: Option<Instant>

    /** What `to_dict` writes. */
    function Value(): Stored
      reads this
    {
      Stored(quotaDay, dailyBudget, requestCount, successCount, failureCount, consecutiveFailures, failureCounts,
             lastRequestAt, circuitOpenUntil)
    }

    constructor (s: Stored)
      ensures Value() == s
    {
      quotaDay := s.quotaDay;
      dailyBudget := s.dailyBudget;
      requestCount := s.requestCount;
      successCount := s.successCount;
      failureCount := s.failureCount;
      consecutiveFailures := s.consecutiveFailures;
      failureCounts := s.failureCounts;
      lastRequestAt := s.lastRequestAt;
      circuitOpenUntil := s.circuitOpenUntil;
    }

    method Rollover(day: Day, budget: int)
      modifies this
      ensures Value() == RolledOver(old(Value()), day, budget)
    {
      quotaDay := day;
      dailyBudget := budget;
      requestCount := 0;
      successCount := 0;
      failureCount := 0;
      failureCounts := map[];
    }

    method ApplyBeforeRequest(policy: Policy, now: Instant) returns (answer: Answer)
      modifies this
      ensures Effect(Value(), answer) == BeforeRequestEffect(old(Value()), policy, now)
    {
      if circuitOpenUntil.Some? {
        if now < circuitOpenUntil.value { return Blocked(CircuitOpen, circuitOpenUntil); }
        circuitOpenUntil := None;
        consecutiveFailures := 0;
      }
      if lastRequestAt.Some? {
        var retryAt := lastRequestAt.value + policy.minimumInterval;
        if now < retryAt { return Blocked(RateWindow, Some(retryAt)); }
      }
      if requestCount >= policy.dailyBudget { return Blocked(DailyBudgetExhausted, None); }
      requestCount := requestCount + 1;
      lastRequestAt := Some(now);
      answer := Granted;
    }

    method ApplySuccess()
      modifies this
      ensures Value() == SuccessEffect(old(Value()))
    {
      successCount := successCount + 1;
      consecutiveFailures := 0;
      circuitOpenUntil := None;
    }

    method ApplyFailure(policy: Policy, code: string, now: Instant)
      modifies this
      ensures Value() == FailureEffect(old(Value()), policy, code, now)
    {
      failureCount := failureCount + 1;
      failureCounts := failureCounts[code := CountOf(failureCounts, code) + 1];
      if code in policy.circuitCodes { consecutiveFailures := consecutiveFailures + 1; }
      if code in policy.immediateCodes || consecutiveFailures >= policy.failureThreshold {
        circuitOpenUntil := Some(now + policy.circuitOpen);
      }
    }
  }

  // ---- the locked file ---------------------------------------------------------------------------------

  /** The JSON file behind the lock: one stored state per provider. */
  class StateFile {
    var providers: map<string, Stored>

    constructor ()
      ensures providers == map[]
    {
      providers := map[];
    }

    function Get(provider: string): Option<Stored>
      reads this
    {
      if provider in providers then Some(providers[provider]) else None
    }
  }

  class JsonGovernor {
    const file: StateFile
    const policy: Policy

    constructor (file: StateFile, policy: Policy)
      ensures this.file == file && this.policy == policy
    {
      this.file := file;
      this.policy := policy;
    }

    /** Reads the provider's state and brings it to the present day. */
    method LoadToday(now: Instant) returns (state: ProviderState)
      ensures fresh(state) && state.Value() == StateForToday(file.Get(policy.provider), policy, now)
    {
      var today := policy.dayOf(now);
      var stored := file.Get(policy.provider);
      if stored.None? {
        state := new ProviderState(FreshState(today, policy.dailyBudget));
      } else {
        state := new ProviderState(stored.value);
        if state.quotaDay != today {
          state.Rollover(today, policy.dailyBudget);
        } else {
          state.dailyBudget := policy.dailyBudget;
        }
      }
    }

    /** One governed operation under the lock; `now` was read before the lock was taken. */
    method Perform(op: Operation, now: Instant) returns (answer: Answer)
      modifies file
      ensures
        var outcome := Apply(old(file.Get(policy.provider)), policy, op, now);
        && answer == outcome.answer
        && file.Get(policy.provider) == outcome.stored
      ensures forall p :: p != policy.provider ==> file.Get(p) == old(file.Get(p))
    {
      var state := LoadToday(now);
      match op {
        case BeforeRequest =>
          answer := state.ApplyBeforeRequest(policy, now);
          if answer.Blocked? { return; }
        case RecordSuccess =>
          state.ApplySuccess();
          answer := Recorded;
        case RecordFailure(code) =>
          state.ApplyFailure(policy, code, now);
          answer := Recorded;
        case Snapshot =>
          answer := Usage(state.Value());
      }
      file.providers := file.providers[policy.provider := state.Value()];
    }
  }
}
