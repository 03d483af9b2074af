/** Many clients of one Redis key: WATCH, GET, compute, MULTI/EXEC, retry on conflict. */
module RedisGovernor {
  import opened Prelude
  import opened Governor
  import opened GovernorSafety
  import opened ClockConditions

  /** An operation as it was called: `invoked` is the number of events before the call, `began`
      the length of the log at the call. */
  datatype Started = Started(call: Call, invoked: nat, began: nat)

  /** Where a client is in its transaction; a finished one took effect as log entry `at`. */
  datatype Client =
    | Idle
    | Pending(op: Started)
    | Watching(op: Started, watched: nat)
    | Fetched(op: Started, watched: nat, seen: Option<Stored>)
    | Finished(op: Started, answer: Answer, at: nat)

  /** An operation that took effect: a commit, or a blocked request at its read. */
  datatype Entry = Entry(client: int, call: Call, answer: Answer)

  /** An operation that returned to its caller after `returned` events. */
  datatype Done = Done(client: int, op: Started, answer: Answer, at: nat, returned: nat)

  /** The key's value, the number of writes to it, the number of events so far, the clients, the
      order of effects, and the operations that returned. */
  datatype System = System(
    stored: Option<Stored>, version: nat, time: nat, clients: map<int, Client>, log: seq<Entry>, done: seq<Done>)

  datatype Event =
    | Begin(client: int, call: Call)
    | Watch(client: int)
    | Get(client: int)
    | Exec(client: int)
    | Collect(client: int)

  function ClientOf(sys: System, c: int): Client {
    if c in sys.clients then sys.clients[c] else Idle
  }

  function WithClient(sys: System, c: int, client: Client): System {
    sys.(clients := sys.clients[c := client], time := sys.time + 1)
  }

  /** One step of one client; an event that is not enabled only passes time. */
  function Step(sys: System, policy: Policy, e: Event): System {
    var c, idle := ClientOf(sys, e.client), sys.(time := sys.time + 1);
    match e
    case Begin(id, call) => if c.Idle? then WithClient(sys, id, Pending(Started(call, sys.time, |sys.log|))) else idle
    case Watch(id) => if c.Pending? then WithClient(sys, id, Watching(c.op, sys.version)) else idle
    case Get(id) =>
      if !c.Watching? then idle
      else
        var outcome := Apply(sys.stored, policy, c.op.call.op, c.op.call.now);
        if outcome.answer.Blocked? then
          WithClient(sys, id, Finished(c.op, outcome.answer, |sys.log|))
            .(log := sys.log + [Entry(id, c.op.call, outcome.answer)])
        else WithClient(sys, id, Fetched(c.op, c.watched, sys.stored))
    case Exec(id) =>
      if !c.Fetched? then idle
      else if sys.version != c.watched then WithClient(sys, id, Pending(c.op))
      else
        var outcome := Apply(c.seen, policy, c.op.call.op, c.op.call.now);
        WithClient(sys, id, Finished(c.op, outcome.answer, |sys.log|))
          .(stored := outcome.stored, version := sys.version + 1,
            log := sys.log + [Entry(id, c.op.call, outcome.answer)])
    case Collect(id) =>
      if c.Finished? then
        WithClient(sys, id, Idle).(done := sys.done + [Done(id, c.op, c.answer, c.at, sys.time)])
      else idle
  }

  const START: System := System(None, 0, 0, map[], [], [])

  function Run(policy: Policy, events: seq<Event>): System {
    if events == [] then START
    else Step(Run(policy, events[..|events| - 1]), policy, events[|events| - 1])
  }

  function CallsOf(log: seq<Entry>): (calls: seq<Call>)
    ensures |calls| == |log|
    ensures forall i :: 0 <= i < |log| ==> calls[i] == log[i].call
  {
    Map((e: Entry) => e.call, log)
  }

  // ---- the log explains the store and the answers --------------------------------------------------

  /** The log explains the system: run serially in log order it gives the same stored state
      and the same answers. */
  predicate Explained(sys: System, policy: Policy) {
    var calls := CallsOf(sys.log);
    && sys.stored == StateAfter(None, policy, calls, |calls|)
    && forall i :: 0 <= i < |calls| ==> sys.log[i].answer == AnswerAt(None, policy, calls, i)
  }

  /** What a client fetched is current unless the key was written since its WATCH. */
  predicate ClientSound(sys: System, c: int) {
    match ClientOf(sys, c)
    case Watching(_, watched) => watched <= sys.version
    case Fetched(_, watched, seen) => watched <= sys.version && (watched == sys.version ==> seen == sys.stored)
    case _ => true
  }

  /** A fetched operation is one that will write: the others ended at their read. */
  predicate FetchedWrites(sys: System, policy: Policy, c: int) {
    var client := ClientOf(sys, c);
    client.Fetched? ==> !Apply(client.seen, policy, client.op.call.op, client.op.call.now).answer.Blocked?
  }

  ghost predicate Linearized(sys: System, policy: Policy) {
    && Explained(sys, policy)
    && forall c :: ClientSound(sys, c) && FetchedWrites(sys, policy, c)
  }

  lemma {:induction false} PrefixStates(policy: Policy, calls: seq<Call>, more: seq<Call>, n: nat)
    requires n <= |calls|
    ensures StateAfter(None, policy, calls + more, n) == StateAfter(None, policy, calls, n)
  {
    hide Apply;
    if n > 0 { PrefixStates(policy, calls, more, n - 1); }
  }

  /** Appending an operation that is applied to the current stored state keeps the log an
      explanation. */
  lemma {:induction false} AppendExplains(sys: System, next: System, policy: Policy, entry: Entry)
    requires Explained(sys, policy)
    requires next.log == sys.log + [entry]
    requires
      var outcome := Apply(sys.stored, policy, entry.call.op, entry.call.now);
      next.stored == outcome.stored && entry.answer == outcome.answer
    ensures Explained(next, policy)
  {
    hide Apply, StateAfter;
    var calls := CallsOf(sys.log);
    assert CallsOf(next.log) == calls + [entry.call];
    AppendState(policy, calls, entry.call);
    forall i | 0 <= i < |calls|
      ensures AnswerAt(None, policy, calls + [entry.call], i) == AnswerAt(None, policy, calls, i)
    {
      PrefixStates(policy, calls, [entry.call], i);
    }
  }

  lemma {:induction false} AppendState(policy: Policy, calls: seq<Call>, call: Call)
    ensures
      var stored := StateAfter(None, policy, calls, |calls|);
      && StateAfter(None, policy, calls + [call], |calls|) == stored
      && StateAfter(None, policy, calls + [call], |calls| + 1) == Apply(stored, policy, call.op, call.now).stored
  {
    hide Apply;
    PrefixStates(policy, calls, [call], |calls|);
  }

  /** Every step of every client keeps the system explained by its log. */
  lemma {:induction false} StepKeepsLinearized(sys: System, policy: Policy, e: Event)
    requires Linearized(sys, policy)
    ensures Linearized(Step(sys, policy, e), policy)
  {
    hide Apply, StateAfter;
    var next := Step(sys, policy, e);
    assert ClientSound(sys, e.client) && FetchedWrites(sys, policy, e.client);
    if next.log != sys.log {
      AppendExplains(sys, next, policy, next.log[|sys.log|]);
    }
    forall other
      ensures ClientSound(next, other) && FetchedWrites(next, policy, other)
    {
      assert ClientSound(sys, other) && FetchedWrites(sys, policy, other);
    }
  }

  // ---- every entry is one operation, every operation one entry -------------------------------------------

  predicate Active(sys: System, c: int) { !ClientOf(sys, c).Idle? }

  /** Operation `op` of client `c` took effect as entry `at`, after its call. */
  predicate Effective(sys: System, c: int, op: Started, answer: Answer, at: nat) {
    op.began <= at < |sys.log| && sys.log[at] == Entry(c, op.call, answer)
  }

  /** Operations in progress and operations that returned were called at different times, in the
      past, and each that took effect has its own entry. */
  ghost predicate Tracked(sys: System) {
    && (forall c :: Active(sys, c) ==>
          ClientOf(sys, c).op.invoked < sys.time && ClientOf(sys, c).op.began <= |sys.log|)
    && (forall c :: ClientOf(sys, c).Finished? ==>
          Effective(sys, c, ClientOf(sys, c).op, ClientOf(sys, c).answer, ClientOf(sys, c).at))
    && (forall i :: 0 <= i < |sys.done| ==>
          var d := sys.done[i];
          d.op.invoked < d.returned < sys.time && Effective(sys, d.client, d.op, d.answer, d.at))
  }

  /** No two operations share their call. */
  ghost predicate CallsApart(sys: System) {
    && (forall c, d :: c != d && Active(sys, c) && Active(sys, d) ==>
          ClientOf(sys, c).op.invoked != ClientOf(sys, d).op.invoked)
    && (forall c, i :: Active(sys, c) && 0 <= i < |sys.done| ==> ClientOf(sys, c).op.invoked != sys.done[i].op.invoked)
    && (forall i, j :: 0 <= i < j < |sys.done| ==> sys.done[i].op.invoked != sys.done[j].op.invoked)
  }

  /** No two operations share their entry. */
  ghost predicate EntriesApart(sys: System) {
    && (forall c, d :: c != d && ClientOf(sys, c).Finished? && ClientOf(sys, d).Finished? ==>
          ClientOf(sys, c).at != ClientOf(sys, d).at)
    && (forall c, i :: ClientOf(sys, c).Finished? && 0 <= i < |sys.done| ==> ClientOf(sys, c).at != sys.done[i].at)
    && (forall i, j :: 0 <= i < j < |sys.done| ==> sys.done[i].at != sys.done[j].at)
  }

  /** Entry `p` is the effect of an operation that has finished or returned. */
  ghost predicate Owned(sys: System, p: nat) {
    || (exists c :: ClientOf(sys, c).Finished? && ClientOf(sys, c).at == p)
    || (exists i :: 0 <= i < |sys.done| && sys.done[i].at == p)
  }

  /** An operation called after another returned began with the other's entry on the log. */
  ghost predicate RealTime(sys: System) {
    && (forall c, i :: Active(sys, c) && 0 <= i < |sys.done| && sys.done[i].returned < ClientOf(sys, c).op.invoked ==>
          sys.done[i].at < ClientOf(sys, c).op.began)
    && (forall i, j :: 0 <= i < |sys.done| && 0 <= j < |sys.done| && sys.done[i].returned < sys.done[j].op.invoked ==>
          sys.done[i].at < sys.done[j].op.began)
  }

  ghost predicate Recorded(sys: System) {
    Tracked(sys) && CallsApart(sys) && EntriesApart(sys) && RealTime(sys) && forall p: nat :: p < |sys.log| ==> Owned(sys, p)
  }

  /** What one step does to the other clients, the log and the returned operations. */
  lemma {:induction false} StepShape(sys: System, policy: Policy, e: Event)
    ensures
      var next, id := Step(sys, policy, e), e.client;
      var before, after := ClientOf(sys, id), ClientOf(next, id);
      && next.time == sys.time + 1
      && (forall c :: c != id ==> ClientOf(next, c) == ClientOf(sys, c))
      && (|| (next.log == sys.log && next.done == sys.done
              && (|| after == before
                  || (before.Idle? && after.Pending? && after.op.invoked == sys.time && after.op.began == |sys.log|
                      && e == Begin(id, after.op.call))
                  || (!before.Idle? && !before.Finished? && !after.Idle? && !after.Finished? && after.op == before.op)))
          || (!before.Idle? && !before.Finished? && after.Finished? && after.op == before.op && after.at == |sys.log|
              && next.done == sys.done && next.log == sys.log + [Entry(id, before.op.call, after.answer)])
          || (before.Finished? && after.Idle? && next.log == sys.log && e == Collect(id)
              && next.done == sys.done + [Done(id, before.op, before.answer, before.at, sys.time)]))
  {
    hide Apply;
  }

  lemma {:induction false} StepKeepsTracked(sys: System, policy: Policy, e: Event)
    requires Tracked(sys)
    ensures Tracked(Step(sys, policy, e))
  {
    hide Step;
    StepShape(sys, policy, e);
  }

  lemma {:induction false} StepKeepsCallsApart(sys: System, policy: Policy, e: Event)
    requires Tracked(sys) && CallsApart(sys)
    ensures CallsApart(Step(sys, policy, e))
  {
    hide Step;
    StepShape(sys, policy, e);
  }

  lemma {:induction false} StepKeepsEntriesApart(sys: System, policy: Policy, e: Event)
    requires Tracked(sys) && EntriesApart(sys)
    ensures EntriesApart(Step(sys, policy, e))
  {
    hide Step;
    StepShape(sys, policy, e);
  }

  lemma {:induction false} StepKeepsRealTime(sys: System, policy: Policy, e: Event)
    requires Tracked(sys) && RealTime(sys)
    ensures RealTime(Step(sys, policy, e))
  {
    hide Step;
    StepShape(sys, policy, e);
  }

  lemma {:induction false} StepKeepsOwned(sys: System, policy: Policy, e: Event, p: nat)
    requires p < |sys.log| ==> Owned(sys, p)
    requires p < |Step(sys, policy, e).log|
    ensures Owned(Step(sys, policy, e), p)
  {
    hide Step;
    StepShape(sys, policy, e);
    var next := Step(sys, policy, e);
    if p == |sys.log| {
      assert ClientOf(next, e.client).at == p;
    } else if c :| ClientOf(sys, c).Finished? && ClientOf(sys, c).at == p {
      if ClientOf(next, c) != ClientOf(sys, c) { assert next.done[|sys.done|].at == p; }
    } else {
      var i :| 0 <= i < |sys.done| && sys.done[i].at == p;
      assert next.done[i] == sys.done[i];
    }
  }

  lemma {:induction false} StepKeepsRecorded(sys: System, policy: Policy, e: Event)
    requires Recorded(sys)
    ensures Recorded(Step(sys, policy, e))
  {
    hide Step, Tracked, CallsApart, EntriesApart, RealTime, Owned;
    StepKeepsTracked(sys, policy, e);
    StepKeepsCallsApart(sys, policy, e);
    StepKeepsEntriesApart(sys, policy, e);
    StepKeepsRealTime(sys, policy, e);
    forall p: nat | p < |Step(sys, policy, e).log|
      ensures Owned(Step(sys, policy, e), p)
    {
      StepKeepsOwned(sys, policy, e, p);
    }
  }

  // ---- whole runs ------------------------------------------------------------------------------------------

  /** Linearizability: in every interleaving of any number of clients, the stored state and
      every answer are those of a serial run in log order; the entries of the log are exactly the
      operations that finished or returned, each once, with its call and its answer, after its
      call; and an operation that returned before another was called comes first. */
  lemma {:induction false} RunIsLinearized(policy: Policy, events: seq<Event>)
    ensures Linearized(Run(policy, events), policy) && Recorded(Run(policy, events))
  {
    if events == [] {
    } else {
      hide Linearized, Recorded, Step;
      RunIsLinearized(policy, events[..|events| - 1]);
      StepKeepsLinearized(Run(policy, events[..|events| - 1]), policy, events[|events| - 1]);
      StepKeepsRecorded(Run(policy, events[..|events| - 1]), policy, events[|events| - 1]);
    }
  }

  /** Returned operations keep the order in which they did not overlap. */
  lemma {:induction false} RealTimeOrderIsKept(policy: Policy, events: seq<Event>, i: nat, j: nat)
    requires
      var done := Run(policy, events).done;
      i < |done| && j < |done| && done[i].returned < done[j].op.invoked
    ensures Run(policy, events).done[i].at < Run(policy, events).done[j].at
  {
    hide Run, Linearized;
    RunIsLinearized(policy, events);
  }

  /** The log, once written, never changes. */
  lemma {:induction false} LogOnlyGrows(policy: Policy, events: seq<Event>, n: nat)
    requires n <= |events|
    ensures Run(policy, events[..n]).log <= Run(policy, events).log
    decreases |events|
  {
    hide Step;
    if n == |events| {
      assert events[..n] == events;
    } else {
      var front := events[..|events| - 1];
      LogOnlyGrows(policy, front, n);
      assert front[..n] == events[..n];
      StepShape(Run(policy, front), policy, events[|events| - 1]);
    }
  }

  /** The operation called by event `n` is still in progress or has returned. */
  ghost predicate Accounted(sys: System, c: int, call: Call, n: nat) {
    || (Active(sys, c) && ClientOf(sys, c).op.call == call && ClientOf(sys, c).op.invoked == n)
    || (exists i :: 0 <= i < |sys.done| && sys.done[i].client == c && sys.done[i].op.call == call
                    && sys.done[i].op.invoked == n)
  }

  /** Operations come from the events: each was called by the event it names and returned at the
      event it names. */
  ghost predicate FromEvents(sys: System, events: seq<Event>) {
    && sys.time == |events|
    && (forall c :: Active(sys, c) ==>
          var op := ClientOf(sys, c).op;
          op.invoked < |events| && events[op.invoked] == Begin(c, op.call))
    && (forall i :: 0 <= i < |sys.done| ==>
          var d := sys.done[i];
          && d.op.invoked < d.returned < |events|
          && events[d.op.invoked] == Begin(d.client, d.op.call)
          && events[d.returned] == Collect(d.client))
  }

  /** Every call of an idle client is accounted for ever after, and no operation is made up. */
  lemma {:induction false} OperationsAreTheCalls(policy: Policy, events: seq<Event>)
    ensures FromEvents(Run(policy, events), events)
    ensures forall n: nat :: n < |events| && events[n].Begin? && !Active(Run(policy, events[..n]), events[n].client) ==>
      Accounted(Run(policy, events), events[n].client, events[n].call, n)
  {
    if events != [] {
      var front, last := events[..|events| - 1], events[|events| - 1];
      OperationsAreTheCalls(policy, front);
      StepComesFromEvents(Run(policy, front), policy, front, last);
      assert events == front + [last];
      forall n: nat | n < |events| && events[n].Begin? && !Active(Run(policy, events[..n]), events[n].client)
        ensures Accounted(Run(policy, events), events[n].client, events[n].call, n)
      {
        if n < |front| {
          assert front[..n] == events[..n] && front[n] == events[n];
          StepKeepsAccounted(Run(policy, front), policy, last, events[n].client, events[n].call, n);
        } else {
          assert events[..n] == front;
          BeginIsAccounted(Run(policy, front), policy, last);
        }
      }
    }
  }

  lemma {:induction false} BeginIsAccounted(sys: System, policy: Policy, e: Event)
    requires e.Begin? && !Active(sys, e.client)
    ensures Accounted(Step(sys, policy, e), e.client, e.call, sys.time)
  {
  }

  lemma {:induction false} StepKeepsAccounted(sys: System, policy: Policy, e: Event, c: int, call: Call, n: nat)
    requires Accounted(sys, c, call, n)
    ensures Accounted(Step(sys, policy, e), c, call, n)
  {
    hide Step;
    StepShape(sys, policy, e);
    var next := Step(sys, policy, e);
    if Active(sys, c) && ClientOf(sys, c).op.call == call && ClientOf(sys, c).op.invoked == n {
      if !Active(next, c) { assert next.done[|sys.done|].op == ClientOf(sys, c).op; }
    } else {
      var i :| 0 <= i < |sys.done| && sys.done[i].client == c && sys.done[i].op.call == call && sys.done[i].op.invoked == n;
      assert next.done[i] == sys.done[i];
    }
  }

  lemma {:induction false} StepComesFromEvents(sys: System, policy: Policy, events: seq<Event>, e: Event)
    requires FromEvents(sys, events)
    ensures FromEvents(Step(sys, policy, e), events + [e])
  {
    hide Step;
    StepShape(sys, policy, e);
  }

  /** An EXEC fails only if some other operation has committed since the WATCH, so one of the
      contenders always makes progress. */
  lemma {:induction false} FailedExecMeansCommit(policy: Policy, events: seq<Event>, id: int)
    requires ClientOf(Run(policy, events), id).Fetched?
    requires ClientOf(Step(Run(policy, events), policy, Exec(id)), id).Pending?
    ensures Run(policy, events).version > ClientOf(Run(policy, events), id).watched
  {
    hide Recorded;
    RunIsLinearized(policy, events);
    assert ClientSound(Run(policy, events), id);
  }

  // ---- what the clients may rely on -------------------------------------------------------------------------

  /** Two requests any clients were granted, in the order they took effect, are spaced by the
      minimum interval however the clients interleave. */
  lemma {:induction false} InterleavedGrantsAreSpaced(policy: Policy, events: seq<Event>, i: nat, j: nat)
    requires
      var log := Run(policy, events).log;
      i < j < |log| && log[i].answer == Granted && log[j].answer == Granted
    ensures
      var log := Run(policy, events).log;
      log[j].call.now
        >= log[i].call.now + policy.minimumInterval * (Grants(None, policy, CallsOf(log), i + 1, j) + 1)
  {
    hide Run, StateAfter, Recorded;
    RunIsLinearized(policy, events);
    GrantsAreSpaced(None, policy, CallsOf(Run(policy, events).log), i, j);
  }

  /** However the clients interleave, grants on a quota day stay within the budget if the
      days of the writing operations do not go back in commit order. */
  lemma {:induction false} InterleavedBudgetHolds(policy: Policy, events: seq<Event>, day: Day)
    requires DaysMonotone(policy, CallsOf(Run(policy, events).log))
    ensures
      var calls := CallsOf(Run(policy, events).log);
      GrantsOn(policy, calls, |calls|, day) <= policy.dailyBudget
  {
    hide Run;
    MonotoneClockKeepsBudget(policy, CallsOf(Run(policy, events).log), |Run(policy, events).log|, day);
  }

  function OneByOne(calls: seq<Call>): seq<Event> {
    if calls == [] then []
    else OneByOne(calls[..|calls| - 1]) + [Begin(0, calls[|calls| - 1]), Watch(0), Get(0), Exec(0), Collect(0)]
  }

  lemma {:induction false} RunAppend(policy: Policy, events: seq<Event>, e: Event)
    ensures Run(policy, events + [e]) == Step(Run(policy, events), policy, e)
  {
    assert (events + [e])[..|events|] == events;
  }

  /** One client that takes its turns alone can produce every serial history. */
  lemma {:induction false} EveryHistoryHappens(policy: Policy, calls: seq<Call>)
    ensures CallsOf(Run(policy, OneByOne(calls)).log) == calls
    ensures ClientOf(Run(policy, OneByOne(calls)), 0).Idle?
  {
    if calls != [] {
      var front, call := calls[..|calls| - 1], calls[|calls| - 1];
      EveryHistoryHappens(policy, front);
      hide Step, Run, CallsOf;
      RunTurn(policy, OneByOne(front), call);
      OneTurn(Run(policy, OneByOne(front)), policy, call);
      CallsAppend(Run(policy, OneByOne(front)).log, Run(policy, OneByOne(calls)).log);
      assert calls == front + [call];
    }
  }

  lemma {:induction false} CallsAppend(log: seq<Entry>, next: seq<Entry>)
    requires |next| == |log| + 1 && next[..|log|] == log
    ensures CallsOf(next) == CallsOf(log) + [next[|log|].call]
  {
    assert next == log + [next[|log|]];
  }

  lemma {:induction false} RunTurn(policy: Policy, events: seq<Event>, call: Call)
    ensures
      var s1 := Step(Run(policy, events), policy, Begin(0, call));
      var s4 := Step(Step(Step(s1, policy, Watch(0)), policy, Get(0)), policy, Exec(0));
      Run(policy, events + [Begin(0, call), Watch(0), Get(0), Exec(0), Collect(0)]) == Step(s4, policy, Collect(0))
  {
    hide Step, Run;
    var e1 := events + [Begin(0, call)];
    var e2 := e1 + [Watch(0)];
    var e3 := e2 + [Get(0)];
    var e4 := e3 + [Exec(0)];
    RunAppend(policy, events, Begin(0, call));
    RunAppend(policy, e1, Watch(0));
    RunAppend(policy, e2, Get(0));
    RunAppend(policy, e3, Exec(0));
    RunAppend(policy, e4, Collect(0));
    assert events + [Begin(0, call), Watch(0), Get(0), Exec(0), Collect(0)] == e4 + [Collect(0)];
  }

  lemma {:induction false} OneTurn(sys: System, policy: Policy, call: Call)
    requires ClientOf(sys, 0).Idle?
    ensures
      var s1 := Step(sys, policy, Begin(0, call));
      var s4 := Step(Step(Step(s1, policy, Watch(0)), policy, Get(0)), policy, Exec(0));
      var s5 := Step(s4, policy, Collect(0));
      && |s5.log| == |sys.log| + 1 && s5.log[..|sys.log|] == sys.log && s5.log[|sys.log|].call == call
      && ClientOf(s5, 0).Idle?
  {
    hide Apply;
  }

  /** However many clients interleave, if their operations take effect with these readings, the
      budget is kept on every day. */
  ghost predicate InterleavedBudgetKept(dayOf: Instant -> Day, interval: int, budget: int, nows: seq<Instant>) {
    forall policy: Policy, events: seq<Event>, day: Day ::
      && policy.dayOf == dayOf && policy.minimumInterval == interval && policy.dailyBudget == budget
      && Readings(CallsOf(Run(policy, events).log)) == nows
      ==> GrantsOn(policy, CallsOf(Run(policy, events).log), |CallsOf(Run(policy, events).log)|, day) <= budget
  }

  /** However many clients interleave, if their operations take effect with these readings, an
      opened circuit grants nothing for its open time unless a success is recorded. */
  ghost predicate InterleavedCircuitKept(dayOf: Instant -> Day, open: int, nows: seq<Instant>) {
    forall policy: Policy, events: seq<Event>, i: nat, j: nat ::
      var calls := CallsOf(Run(policy, events).log);
      && policy.dayOf == dayOf && policy.circuitOpen == open && Readings(calls) == nows && i < j < |calls|
      && OpensAt(None, policy, calls, i) && GrantedAt(None, policy, calls, j) && NoSuccessBetween(calls, i, j)
      ==> nows[j] >= nows[i] + open
  }

  /** Over all interleavings of any number of clients, the daily budget is kept if and only if the
      readings, in the order of effects, do not leave a day and return to it with room for one
      more spaced request than allowed. */
  lemma {:induction false} InterleavedBudgetKeptIff(dayOf: Instant -> Day, interval: int, budget: int, nows: seq<Instant>)
    requires interval >= 0 && budget > 0
    ensures InterleavedBudgetKept(dayOf, interval, budget, nows) <==> !Overruns(dayOf, interval, budget, nows)
  {
    hide Run, GrantsOn, Overruns, OneByOne, CallsOf;
    BudgetKeptIff(dayOf, interval, budget, nows);
    if !BudgetKept(dayOf, interval, budget, nows) {
      var policy: Policy, calls: seq<Call>, day: Day :|
        policy.dayOf == dayOf && policy.minimumInterval == interval && policy.dailyBudget == budget && Readings(calls) == nows
        && GrantsOn(policy, calls, |calls|, day) > budget;
      EveryHistoryHappens(policy, calls);
      assert CallsOf(Run(policy, OneByOne(calls)).log) == calls;
    }
  }

  /** The same for the circuit: an opened circuit keeps its time if and only if no reading between
      is so old that its own open time would be over first. */
  lemma {:induction false} InterleavedCircuitKeptIff(dayOf: Instant -> Day, open: int, nows: seq<Instant>)
    requires open > 0
    ensures InterleavedCircuitKept(dayOf, open, nows) <==> !Shortens(open, nows)
  {
    hide Run, OpensAt, GrantedAt, NoSuccessBetween, OneByOne, CallsOf, FailureCalls;
    CircuitKeptIff(dayOf, open, nows);
    if i: nat, k: nat, j: nat :| CutsShort(open, nows, i, k, j) {
      var policy: Policy := Policy("p", 1, 0, 1, open, {}, {"rate_limited"}, dayOf);
      EarlyGrantHappens(policy, nows, i, k, j);
      var calls := FailureCalls(nows, i, k, j);
      assert Readings(calls) == nows;
      assert nows[j] < nows[i] + open;
      EveryHistoryHappens(policy, calls);
      var events := OneByOne(calls);
      assert CallsOf(Run(policy, events).log) == calls;
      assert !InterleavedCircuitKept(dayOf, open, nows);
    }
  }
}
