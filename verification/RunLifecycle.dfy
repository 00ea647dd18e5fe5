/** Admission, execution, completion, shutdown and restart of benchmark runs
    (backend/internal/api/{runs,routes}.go, backend/internal/pgstore/store.go, backend/storage.go).

    A step relation over everything that runs concurrently: request handlers from admission on,
    executors, callers of Shutdown, and the store.  Each step is one mutex section, channel
    operation, WaitGroup operation or store transaction, so its traces are all interleavings. */
module RunLifecycle {
  import opened Sorting

  const MAX_CONCURRENT_RUNS: nat := 2
  const COMPLETION_ATTEMPTS: nat := 3

  type RunID = string

  /** A terminal status with everything completeRun stores beside it. */
  datatype Terminal = Terminal(succeeded: bool, content: string)

  const INTERRUPTED := Terminal(false, "benchmark run was interrupted because the benchmark service restarted")

  datatype Record = Running | Done(terminal: Terminal)

  /** Where createRun is, from the admission check to the answer. */
  datatype Handler =
    | Admitting
    | Registered           // counted by the WaitGroup
    | Holding              // also holds a slot
    | Stored(id: RunID)    // the record exists; about to start its executor
    | GivingSlotBack
    | LeavingGroup
    | Answered(accepted: bool)
  {
    predicate Counted() { Registered? || Holding? || Stored? || GivingSlotBack? || LeavingGroup? }

    predicate HoldsSlot() { Holding? || Stored? || GivingSlotBack? }
  }

  /** Where executeRun is; its deferred calls give the slot back first and leave the group last. */
  datatype Executor =
    | Executing
    | Completing(terminal: Terminal, attempts: nat)
    | ReturningSlot
    | Leaving
  {
    predicate HoldsSlot() { !Leaving? }
  }

  datatype Waiter = Arriving | Waiting | Returned(clean: bool)

  datatype State = State(
    serving: bool,
    closing: bool,
    group: nat,
    slots: nat,
    handlers: map<nat, Handler>,
    executors: map<RunID, Executor>,
    waiters: map<nat, Waiter>,
    records: map<RunID, Record>,
    /** The result each executor computed, for the statement of what is stored. */
    results: map<RunID, Terminal>)

  /** What one attempt to store a completion came to. */
  datatype Reply = Stored | Refused | Unknown(tookEffect: bool)

  datatype Step =
    | Request(h: nat)
    | Register(h: nat)
    | TakeSlot(h: nat)
    | CreateRecord(h: nat, id: RunID)
    | CreateFails(h: nat, id: RunID, tookEffect: bool)
    | Spawn(h: nat)
    | HandlerGivesSlotBack(h: nat)
    | HandlerLeavesGroup(h: nat)
    | Finish(id: RunID, terminal: Terminal)
    | Complete(id: RunID, reply: Reply)
    | ExecutorReturnsSlot(id: RunID)
    | ExecutorLeaves(id: RunID)
    | ShutdownCall(w: nat)
    | Close(w: nat)
    | WaitReturns(w: nat)
    | WaitTimesOut(w: nat)
    | Crash
    | RecoveryFails(tookEffect: bool)
    | Recover

  function FailRunning(records: map<RunID, Record>): map<RunID, Record> {
    map id | id in records :: if records[id].Running? then Done(INTERRUPTED) else records[id]
  }

  /** UPDATE ... WHERE id = $1 AND status = 'running' */
  function CompleteRecord(records: map<RunID, Record>, id: RunID, terminal: Terminal): map<RunID, Record> {
    if id in records && records[id].Running? then records[id := Done(terminal)] else records
  }

  predicate Enabled(s: State, step: Step) {
    match step
    case Request(h) => s.serving && h !in s.handlers
    case Register(h) => h in s.handlers && s.handlers[h].Admitting?
    case TakeSlot(h) => h in s.handlers && s.handlers[h].Registered?
    case CreateRecord(h, id) => h in s.handlers && s.handlers[h].Holding? && id !in s.records
    case CreateFails(h, id, tookEffect) => h in s.handlers && s.handlers[h].Holding?
    case Spawn(h) => h in s.handlers && s.handlers[h].Stored?
    case HandlerGivesSlotBack(h) => h in s.handlers && s.handlers[h].GivingSlotBack?
    case HandlerLeavesGroup(h) => h in s.handlers && s.handlers[h].LeavingGroup?
    case Finish(id, _) => id in s.executors && s.executors[id].Executing?
    case Complete(id, reply) =>
      && id in s.executors && s.executors[id].Completing?
      && (reply.Stored? ==> id in s.records && s.records[id].Running?)
      && (reply.Refused? ==> id !in s.records || s.records[id].Done?)
    case ExecutorReturnsSlot(id) => id in s.executors && s.executors[id].ReturningSlot?
    case ExecutorLeaves(id) => id in s.executors && s.executors[id].Leaving?
    case ShutdownCall(w) => w !in s.waiters
    case Close(w) => w in s.waiters && s.waiters[w].Arriving?
    case WaitReturns(w) => w in s.waiters && s.waiters[w].Waiting? && s.group == 0
    case WaitTimesOut(w) => w in s.waiters && s.waiters[w].Waiting?
    case Crash => true
    case RecoveryFails(_) => !s.serving
    case Recover => !s.serving
  }

  function Move(s: State, h: nat, to: Handler): State { s.(handlers := s.handlers[h := to]) }

  /** The counters are integers here; the invariant shows that they never go below zero. */
  function Less(n: nat): nat { if n == 0 then 0 else n - 1 }

  predicate HandlerStep(step: Step) {
    || step.Request? || step.Register? || step.TakeSlot? || step.CreateRecord? || step.CreateFails?
    || step.HandlerGivesSlotBack? || step.HandlerLeavesGroup?
  }

  function Apply(s: State, step: Step): State
    requires Enabled(s, step)
  {
    if HandlerStep(step) then ApplyHandler(s, step) else ApplyOther(s, step)
  }

  /** createRun, up to the start of its executor. */
  function ApplyHandler(s: State, step: Step): State
    requires Enabled(s, step) && HandlerStep(step)
  {
    match step
    case Request(h) => Move(s, h, Admitting)
    case Register(h) =>
      if s.closing then Move(s, h, Answered(false)) else Move(s, h, Registered).(group := s.group + 1)
    case TakeSlot(h) =>
      if s.slots < MAX_CONCURRENT_RUNS then Move(s, h, Holding).(slots := s.slots + 1) else Move(s, h, LeavingGroup)
    case CreateRecord(h, id) => Move(s, h, Handler.Stored(id)).(records := s.records[id := Running])
    case CreateFails(h, id, tookEffect) =>
      Move(s, h, GivingSlotBack).(records := if tookEffect && id !in s.records then s.records[id := Running] else s.records)
    case HandlerGivesSlotBack(h) => Move(s, h, LeavingGroup).(slots := Less(s.slots))
    case HandlerLeavesGroup(h) => Move(s, h, Answered(false)).(group := Less(s.group))
  }

  /** The start of an executor, executeRun, Shutdown, and what happens to the process. */
  function ApplyOther(s: State, step: Step): State
    requires Enabled(s, step) && !HandlerStep(step)
  {
    match step
    case Spawn(h) => Move(s, h, Answered(true)).(executors := s.executors[s.handlers[h].id := Executing])
    case Finish(id, terminal) =>
      s.(executors := s.executors[id := Completing(terminal, 0)], results := s.results[id := terminal])
    case Complete(id, reply) =>
      var t, k := s.executors[id].terminal, s.executors[id].attempts;
      var records := if reply.Stored? || (reply.Unknown? && reply.tookEffect) then CompleteRecord(s.records, id, t) else s.records;
      var again := reply.Unknown? && k + 1 < COMPLETION_ATTEMPTS;
      s.(records := records, executors := s.executors[id := if again then Completing(t, k + 1) else ReturningSlot])
    case ExecutorReturnsSlot(id) => s.(executors := s.executors[id := Leaving], slots := Less(s.slots))
    case ExecutorLeaves(id) => s.(executors := s.executors - {id}, group := Less(s.group))
    case ShutdownCall(w) => s.(waiters := s.waiters[w := Arriving])
    case Close(w) => s.(waiters := s.waiters[w := Waiting], closing := true)
    case WaitReturns(w) => s.(waiters := s.waiters[w := Returned(true)])
    case WaitTimesOut(w) => s.(waiters := s.waiters[w := Returned(false)])
    case Crash => Restarted(s.records, s.results)
    case RecoveryFails(tookEffect) => Restarted(if tookEffect then FailRunning(s.records) else s.records, s.results)
    case Recover => s.(records := FailRunning(s.records), serving := true)
  }

  /** A new process before recovery: only the database and history survive. */
  function Restarted(records: map<RunID, Record>, results: map<RunID, Terminal>): State {
    State(false, false, 0, 0, map[], map[], map[], records, results)
  }

  /** A history: from an empty database, enabled steps only. */
  ghost predicate History(steps: seq<Step>, states: seq<State>) {
    && |states| == |steps| + 1
    && states[0] == Restarted(map[], map[])
    && forall i {:trigger steps[i]} :: 0 <= i < |steps| ==> Enabled(states[i], steps[i]) && states[i + 1] == Apply(states[i], steps[i])
  }

  // ---- what every step keeps ----

  function Where<K, V>(m: map<K, V>, p: V -> bool): set<K> { set k | k in m && p(m[k]) }

  const COUNTED: Handler -> bool := (h: Handler) => h.Counted()
  const HANDLER_HOLDS: Handler -> bool := (h: Handler) => h.HoldsSlot()
  const EXECUTOR_HOLDS: Executor -> bool := (e: Executor) => e.HoldsSlot()

  function CountedHandlers(handlers: map<nat, Handler>): set<nat> { Where(handlers, COUNTED) }

  function SlotHandlers(handlers: map<nat, Handler>): set<nat> { Where(handlers, HANDLER_HOLDS) }

  function SlotExecutors(executors: map<RunID, Executor>): set<RunID> { Where(executors, EXECUTOR_HOLDS) }

  /** The WaitGroup and the semaphore count exactly what they should. */
  ghost predicate Counts(s: State) {
    && s.group == |CountedHandlers(s.handlers)| + |s.executors.Keys|
    && s.slots == |SlotHandlers(s.handlers)| + |SlotExecutors(s.executors)|
    && s.slots <= MAX_CONCURRENT_RUNS
  }

  /** Shutdown has closed admission before anyone waits, and after a clean return nothing is left. */
  ghost predicate Closed(s: State) {
    && (forall w :: w in s.waiters && !s.waiters[w].Arriving? ==> s.closing)
    && (forall w :: w in s.waiters && s.waiters[w] == Returned(true) ==> s.group == 0)
    && (!s.serving ==> s.handlers.Keys == {} && s.executors.Keys == {})
  }

  /** A handler that is about to start an executor does so for a running record of its own. */
  ghost predicate StoredHandlers(s: State) {
    && (forall h :: h in s.handlers && s.handlers[h].Stored? ==> Fresh(s, s.handlers[h].id))
    && (forall h, k :: h in s.handlers && k in s.handlers && h != k && s.handlers[h].Stored? && s.handlers[k].Stored? ==>
          s.handlers[h].id != s.handlers[k].id)
  }

  /** A running record that no executor has touched. */
  predicate Fresh(s: State, id: RunID) {
    id in s.records && s.records[id].Running? && id !in s.results && id !in s.executors
  }

  ghost predicate OwnedResults(s: State) {
    && (forall id :: id in s.results ==> id in s.records)
    && (forall id :: id in s.executors ==> id in s.records)
  }

  ghost predicate ExecutorStates(s: State)
    requires OwnedResults(s)
  {
    && (forall id :: id in s.executors && s.executors[id].Executing? ==> s.records[id].Running? && id !in s.results)
    && (forall id :: id in s.executors && s.executors[id].Completing? ==>
          && s.executors[id].attempts < COMPLETION_ATTEMPTS
          && id in s.results && s.results[id] == s.executors[id].terminal)
  }

  ghost predicate OwnedExecutors(s: State) { OwnedResults(s) && ExecutorStates(s) }

  /** A terminal record holds its executor's result or the interruption notice. */
  ghost predicate TerminalRecords(s: State) {
    forall id :: id in s.records && s.records[id].Done? ==>
      s.records[id].terminal == INTERRUPTED || (id in s.results && s.results[id] == s.records[id].terminal)
  }

  ghost predicate Owned(s: State) { StoredHandlers(s) && OwnedExecutors(s) && TerminalRecords(s) }

  /** While an executor completes its run, nobody else has ended the record. */
  ghost predicate CompletingRecords(s: State)
    requires Owned(s)
  {
    forall id :: id in s.executors && s.executors[id].Completing? ==>
      s.records[id].Running? || s.records[id] == Done(s.results[id])
  }

  ghost predicate Inv(s: State) { Counts(s) && Closed(s) && Owned(s) && CompletingRecords(s) }

  function One(b: bool): nat { if b then 1 else 0 }

  lemma WhereUpdate<K, V>(m: map<K, V>, p: V -> bool, k: K, v: V)
    ensures |Where(m[k := v], p)| == |Where(m, p)| + One(p(v)) - One(k in m && p(m[k]))
  {
    var before, after := Where(m, p), Where(m[k := v], p);
    assert after == if p(v) then before + {k} else before - {k};
  }

  lemma MoveCounts(handlers: map<nat, Handler>, h: nat, to: Handler)
    ensures var moved := handlers[h := to];
            var counted, holds := h in handlers && handlers[h].Counted(), h in handlers && handlers[h].HoldsSlot();
            && |CountedHandlers(moved)| == |CountedHandlers(handlers)| + One(to.Counted()) - One(counted)
            && |SlotHandlers(moved)| == |SlotHandlers(handlers)| + One(to.HoldsSlot()) - One(holds)
  {
    WhereUpdate(handlers, COUNTED, h, to);
    WhereUpdate(handlers, HANDLER_HOLDS, h, to);
  }

  lemma ExecutorCounts(executors: map<RunID, Executor>, id: RunID, to: Executor)
    ensures var moved := executors[id := to];
            var holds := id in executors && executors[id].HoldsSlot();
            && |moved.Keys| == |executors.Keys| + One(id !in executors)
            && |SlotExecutors(moved)| == |SlotExecutors(executors)| + One(to.HoldsSlot()) - One(holds)
  {
    WhereUpdate(executors, EXECUTOR_HOLDS, id, to);
    assert executors[id := to].Keys == executors.Keys + {id};
  }

  lemma LeaveCounts(executors: map<RunID, Executor>, id: RunID)
    requires id in executors && !executors[id].HoldsSlot()
    ensures |(executors - {id}).Keys| == |executors.Keys| - 1
    ensures |SlotExecutors(executors - {id})| == |SlotExecutors(executors)|
  {
    assert (executors - {id}).Keys == executors.Keys - {id};
    assert SlotExecutors(executors - {id}) == SlotExecutors(executors);
  }

  /** How a handler step changes the counters agrees with how it moves its handler. */
  ghost predicate CountsTogether(s: State, t: State, h: nat) {
    && t.executors == s.executors && h in t.handlers && t.handlers == s.handlers[h := t.handlers[h]]
    && t.slots <= MAX_CONCURRENT_RUNS
    && t.group == s.group + One(t.handlers[h].Counted()) - One(h in s.handlers && s.handlers[h].Counted())
    && t.slots == s.slots + One(t.handlers[h].HoldsSlot()) - One(h in s.handlers && s.handlers[h].HoldsSlot())
  }

  lemma HandlerStepCounts(s: State, step: Step)
    requires Enabled(s, step) && HandlerStep(step)
    requires step.h in s.handlers && s.handlers[step.h].Counted() ==> s.group > 0
    requires step.h in s.handlers && s.handlers[step.h].HoldsSlot() ==> s.slots > 0
    requires s.slots <= MAX_CONCURRENT_RUNS
    ensures CountsTogether(s, Apply(s, step), step.h)
  {
    var t, h := Apply(s, step), step.h;
    assert h in t.handlers && t.handlers == s.handlers[h := t.handlers[h]] && t.executors == s.executors by {
      HandlerStepMoves(s, step);
    }
  }

  lemma HandlerStepMoves(s: State, step: Step)
    requires Enabled(s, step) && HandlerStep(step)
    ensures var t := Apply(s, step);
            step.h in t.handlers && t.handlers == s.handlers[step.h := t.handlers[step.h]] && t.executors == s.executors
    ensures var to := Apply(s, step).handlers[step.h]; to.Stored? ==> step.CreateRecord? && to.id == step.id
  {
    match step
    case Request(h) => Moved(s, h, Admitting);
    case Register(h) => Moved(s, h, if s.closing then Answered(false) else Registered);
    case TakeSlot(h) => Moved(s, h, if s.slots < MAX_CONCURRENT_RUNS then Holding else LeavingGroup);
    case CreateRecord(h, id) => Moved(s, h, Handler.Stored(id));
    case CreateFails(h, _, _) => Moved(s, h, GivingSlotBack);
    case HandlerGivesSlotBack(h) => Moved(s, h, LeavingGroup);
    case HandlerLeavesGroup(h) => Moved(s, h, Answered(false));
  }

  lemma Moved(s: State, h: nat, to: Handler)
    ensures var handlers := Move(s, h, to).handlers;
            h in handlers && handlers[h] == to && handlers == s.handlers[h := handlers[h]]
  {
  }

  lemma HandlerStepKeepsCounts(s: State, step: Step)
    requires Counts(s) && Enabled(s, step) && HandlerStep(step)
    ensures Counts(Apply(s, step))
  {
    var t := Apply(s, step);
    MoveCounts(s.handlers, step.h, t.handlers[step.h]);
    SlotImpliesCount(s.handlers, step.h);
    HandlerStepCounts(s, step);
  }

  lemma SlotImpliesCount(handlers: map<nat, Handler>, h: nat)
    ensures h in handlers && handlers[h].Counted() ==> |CountedHandlers(handlers)| > 0
    ensures h in handlers && handlers[h].HoldsSlot() ==> |SlotHandlers(handlers)| > 0
  {
    if h in handlers && handlers[h].Counted() { assert h in CountedHandlers(handlers); }
    if h in handlers && handlers[h].HoldsSlot() { assert h in SlotHandlers(handlers); }
  }

  lemma SpawnKeepsCounts(s: State, step: Step)
    requires Counts(s) && Owned(s) && Enabled(s, step) && step.Spawn?
    ensures Counts(Apply(s, step))
  {
    assert Fresh(s, s.handlers[step.h].id);
    MoveCounts(s.handlers, step.h, Answered(true));
    ExecutorCounts(s.executors, s.handlers[step.h].id, Executing);
  }

  lemma ExecutorStepKeepsCounts(s: State, step: Step)
    requires Counts(s) && Enabled(s, step)
    requires step.Finish? || step.Complete? || step.ExecutorReturnsSlot? || step.ExecutorLeaves?
    ensures Counts(Apply(s, step))
  {
    if s.executors[step.id].HoldsSlot() { assert step.id in SlotExecutors(s.executors); }
    if step.ExecutorLeaves? {
      LeaveCounts(s.executors, step.id);
    } else {
      ExecutorCounts(s.executors, step.id, Apply(s, step).executors[step.id]);
    }
  }

  lemma StepKeepsCounts(s: State, step: Step)
    requires Counts(s) && Owned(s) && Enabled(s, step)
    ensures Counts(Apply(s, step))
  {
    if HandlerStep(step) {
      HandlerStepKeepsCounts(s, step);
    } else if step.Spawn? {
      SpawnKeepsCounts(s, step);
    } else if step.Finish? || step.Complete? || step.ExecutorReturnsSlot? || step.ExecutorLeaves? {
      ExecutorStepKeepsCounts(s, step);
    } else if step.Crash? || step.RecoveryFails? {
      NothingCounted();
    }
  }

  lemma NothingCounted()
    ensures CountedHandlers(map[]) == {} && SlotHandlers(map[]) == {} && SlotExecutors(map[]) == {}
  {
  }

  lemma NothingLeft(s: State)
    requires Counts(s) && s.group == 0
    ensures s.executors == map[] && s.slots == 0
    ensures forall h :: h in s.handlers ==> !s.handlers[h].Counted()
  {
    assert CountedHandlers(s.handlers) == {} && s.executors.Keys == {};
    assert s.executors == map[];
    assert SlotHandlers(s.handlers) <= CountedHandlers(s.handlers);
    forall h | h in s.handlers ensures !s.handlers[h].Counted() {
      assert h !in CountedHandlers(s.handlers);
    }
  }

  lemma StepKeepsClosed(s: State, step: Step)
    requires Inv(s) && Enabled(s, step)
    ensures Closed(Apply(s, step))
  {
    if s.group == 0 { NothingLeft(s); }
  }

  lemma FreshStays(s: State, step: Step, id: RunID)
    requires OwnedExecutors(s) && Enabled(s, step) && Fresh(s, id)
    requires !step.Recover? && !step.Crash? && !step.RecoveryFails?
    requires step.Spawn? ==> s.handlers[step.h].id != id
    ensures Fresh(Apply(s, step), id)
  {
  }

  /** A handler holds a record because it did so before, or because this step created the record. */
  lemma HoldsRecordBy(s: State, step: Step, h: nat)
    requires Enabled(s, step) && h in Apply(s, step).handlers && Apply(s, step).handlers[h].Stored?
    ensures || (h in s.handlers && s.handlers[h] == Apply(s, step).handlers[h] && (step.Spawn? ==> step.h != h))
            || (step.CreateRecord? && step.h == h && step.id == Apply(s, step).handlers[h].id)
  {
    if HandlerStep(step) {
      HandlerStepMoves(s, step);
    } else {
      OtherStepsStoreNothing(s, step, h);
    }
  }

  lemma OtherStepsStoreNothing(s: State, step: Step, h: nat)
    requires Enabled(s, step) && !HandlerStep(step) && h in ApplyOther(s, step).handlers && ApplyOther(s, step).handlers[h].Stored?
    ensures h in s.handlers && s.handlers[h] == ApplyOther(s, step).handlers[h] && (step.Spawn? ==> step.h != h)
  {
  }

  lemma CreatedIsFresh(s: State, step: Step)
    requires OwnedResults(s) && Enabled(s, step) && step.CreateRecord?
    ensures Fresh(Apply(s, step), step.id)
  {
  }

  lemma StepKeepsStoredFresh(s: State, step: Step, h: nat)
    requires StoredHandlers(s) && OwnedExecutors(s) && Enabled(s, step)
    requires !step.Recover? && !step.Crash? && !step.RecoveryFails?
    requires h in Apply(s, step).handlers && Apply(s, step).handlers[h].Stored?
    ensures Fresh(Apply(s, step), Apply(s, step).handlers[h].id)
  {
    HoldsRecordBy(s, step, h);
    if step.CreateRecord? && step.h == h {
      CreatedIsFresh(s, step);
    } else {
      FreshStays(s, step, s.handlers[h].id);
    }
  }

  lemma StepKeepsStoredDistinct(s: State, step: Step, h: nat, k: nat)
    requires StoredHandlers(s) && Enabled(s, step) && h != k
    requires var t := Apply(s, step).handlers; h in t && k in t && t[h].Stored? && t[k].Stored?
    ensures Apply(s, step).handlers[h].id != Apply(s, step).handlers[k].id
  {
    HoldsRecordBy(s, step, h);
    HoldsRecordBy(s, step, k);
    if h in s.handlers && s.handlers[h].Stored? { assert Fresh(s, s.handlers[h].id); }
    if k in s.handlers && s.handlers[k].Stored? { assert Fresh(s, s.handlers[k].id); }
  }

  lemma StepKeepsStoredHandlers(s: State, step: Step)
    requires StoredHandlers(s) && OwnedExecutors(s) && Closed(s) && Enabled(s, step)
    ensures StoredHandlers(Apply(s, step))
  {
    var t := Apply(s, step);
    if step.Recover? || step.Crash? || step.RecoveryFails? {
      assert forall h :: h !in t.handlers;
    } else {
      forall h | h in t.handlers && t.handlers[h].Stored? ensures Fresh(t, t.handlers[h].id) {
        StepKeepsStoredFresh(s, step, h);
      }
      forall h, k | h in t.handlers && k in t.handlers && h != k && t.handlers[h].Stored? && t.handlers[k].Stored?
        ensures t.handlers[h].id != t.handlers[k].id
      {
        StepKeepsStoredDistinct(s, step, h, k);
      }
    }
  }

  /** A handler step touches nothing that concerns executors, and may only add a running record. */
  ghost predicate OnlyAdds(s: State, t: State) {
    && t.executors == s.executors && t.results == s.results
    && (t.records == s.records || exists id :: id !in s.records && t.records == s.records[id := Running])
  }

  lemma HandlerStepOnlyAdds(s: State, step: Step)
    requires Enabled(s, step) && HandlerStep(step)
    ensures OnlyAdds(s, Apply(s, step))
  {
  }

  lemma AddingKeepsOwned(s: State, t: State)
    requires OwnedExecutors(s) && OnlyAdds(s, t)
    ensures OwnedExecutors(t) && (TerminalRecords(s) ==> TerminalRecords(t)) && Evolves(s, t)
  {
  }

  lemma OtherStepKeepsOwnedResults(s: State, step: Step)
    requires StoredHandlers(s) && OwnedExecutors(s) && Enabled(s, step) && !HandlerStep(step)
    ensures OwnedResults(Apply(s, step))
  {
    if step.Spawn? { assert Fresh(s, s.handlers[step.h].id); }
  }

  lemma OtherStepKeepsExecutorStates(s: State, step: Step)
    requires StoredHandlers(s) && OwnedExecutors(s) && Closed(s) && Enabled(s, step) && !HandlerStep(step)
    ensures OwnedResults(Apply(s, step)) ==> ExecutorStates(Apply(s, step))
  {
    if step.Spawn? { assert Fresh(s, s.handlers[step.h].id); }
  }

  lemma StepKeepsOwnedExecutors(s: State, step: Step)
    requires StoredHandlers(s) && OwnedExecutors(s) && Closed(s) && Enabled(s, step)
    ensures OwnedExecutors(Apply(s, step))
  {
    if HandlerStep(step) {
      HandlerStepOnlyAdds(s, step);
      AddingKeepsOwned(s, Apply(s, step));
    } else {
      OtherStepKeepsOwnedResults(s, step);
      OtherStepKeepsExecutorStates(s, step);
    }
  }

  lemma OtherStepKeepsTerminalRecords(s: State, step: Step)
    requires Owned(s) && Enabled(s, step) && !HandlerStep(step)
    ensures TerminalRecords(Apply(s, step))
  {
  }

  lemma StepKeepsTerminalRecords(s: State, step: Step)
    requires Owned(s) && Enabled(s, step)
    ensures TerminalRecords(Apply(s, step))
  {
    if HandlerStep(step) {
      HandlerStepOnlyAdds(s, step);
      AddingKeepsOwned(s, Apply(s, step));
    } else {
      OtherStepKeepsTerminalRecords(s, step);
    }
  }

  lemma StepKeepsOwned(s: State, step: Step)
    requires Owned(s) && Closed(s) && Enabled(s, step)
    ensures Owned(Apply(s, step))
  {
    StepKeepsStoredHandlers(s, step);
    StepKeepsOwnedExecutors(s, step);
    StepKeepsTerminalRecords(s, step);
  }

  lemma {:induction false} EveryStateIsGood(steps: seq<Step>, states: seq<State>, i: nat)
    requires History(steps, states) && i < |states|
    ensures Inv(states[i])
  {
    if i == 0 {
      StartIsGood();
    } else {
      EveryStateIsGood(steps, states, i - 1);
      HistoryKeepsInv(steps, states, i - 1);
    }
  }

  lemma StartIsGood()
    ensures Inv(Restarted(map[], map[]))
  {
  }

  lemma HistoryKeepsInv(steps: seq<Step>, states: seq<State>, i: nat)
    requires History(steps, states) && i < |steps| && Inv(states[i])
    ensures Inv(states[i + 1])
  {
    StepKeepsInv(states[i], steps[i]);
  }

  lemma StepKeepsInv(s: State, step: Step)
    requires Inv(s) && Enabled(s, step)
    ensures Inv(Apply(s, step))
  {
    StepKeepsCounts(s, step);
    StepKeepsClosed(s, step);
    StepKeepsOwned(s, step);
    StepKeepsCompletingRecords(s, step);
  }

  lemma StepKeepsCompletingRecords(s: State, step: Step)
    requires Closed(s) && Owned(s) && CompletingRecords(s) && Enabled(s, step)
    ensures Owned(Apply(s, step)) ==> CompletingRecords(Apply(s, step))
  {
  }

  /** Records are never removed and change only from running to terminal; results never change. */
  ghost predicate Evolves(s: State, t: State) {
    && (forall id :: id in s.records ==> id in t.records && (s.records[id].Done? ==> t.records[id] == s.records[id]))
    && (forall id :: id in s.results ==> id in t.results && t.results[id] == s.results[id])
  }

  lemma OtherStepEvolves(s: State, step: Step)
    requires Owned(s) && Enabled(s, step) && !HandlerStep(step)
    ensures Evolves(s, Apply(s, step))
  {
  }

  lemma StepEvolves(s: State, step: Step)
    requires Owned(s) && Enabled(s, step)
    ensures Evolves(s, Apply(s, step))
  {
    if HandlerStep(step) {
      HandlerStepOnlyAdds(s, step);
      AddingKeepsOwned(s, Apply(s, step));
    } else {
      OtherStepEvolves(s, step);
    }
  }

  lemma StepAfterCleanShutdown(s: State, step: Step, w: nat)
    requires Inv(s) && Enabled(s, step) && !step.Crash? && !step.RecoveryFails?
    requires w in s.waiters && s.waiters[w] == Returned(true)
    ensures var t := Apply(s, step);
            w in t.waiters && t.waiters[w] == Returned(true) && t.records.Keys == s.records.Keys
  {
    NothingLeft(s);
  }

  lemma HistoryEvolves(steps: seq<Step>, states: seq<State>, i: nat)
    requires History(steps, states) && i < |steps|
    ensures Evolves(states[i], states[i + 1])
  {
    EveryStateIsGood(steps, states, i);
    StepEvolves(states[i], steps[i]);
  }

  lemma HistoryAfterCleanShutdown(steps: seq<Step>, states: seq<State>, w: nat, i: nat)
    requires History(steps, states) && i < |steps| && !steps[i].Crash? && !steps[i].RecoveryFails?
    requires w in states[i].waiters && states[i].waiters[w] == Returned(true)
    ensures w in states[i + 1].waiters && states[i + 1].waiters[w] == Returned(true)
    ensures states[i + 1].records.Keys == states[i].records.Keys
  {
    EveryStateIsGood(steps, states, i);
    StepAfterCleanShutdown(states[i], steps[i], w);
  }

  // ---- over whole histories ----

  /** The WaitGroup counts the handlers past registration and the live executors; slots are taken only
      by those, and never more than two. */
  lemma CountersAreExact(steps: seq<Step>, states: seq<State>, i: nat)
    requires History(steps, states) && i < |states|
    ensures var s := states[i];
            && s.group == |CountedHandlers(s.handlers)| + |s.executors.Keys|
            && s.slots <= MAX_CONCURRENT_RUNS && s.slots <= s.group
  {
    EveryStateIsGood(steps, states, i);
    var s := states[i];
    SubsetCount(SlotHandlers(s.handlers), CountedHandlers(s.handlers));
    SubsetCount(SlotExecutors(s.executors), s.executors.Keys);
  }

  ghost predicate NoCrash(steps: seq<Step>, from: nat, to: nat) {
    forall k :: from <= k < to <= |steps| ==> !steps[k].Crash? && !steps[k].RecoveryFails?
  }

  /** Once Shutdown has returned nil, as long as the process lives: nothing runs, all slots are free,
      and no run is ever admitted again. */
  lemma {:induction false} CleanShutdownIsFinal(steps: seq<Step>, states: seq<State>, w: nat, i: nat, j: nat)
    requires History(steps, states) && i <= j < |states| && NoCrash(steps, i, j)
    requires w in states[i].waiters && states[i].waiters[w] == Returned(true)
    ensures w in states[j].waiters && states[j].waiters[w] == Returned(true)
    ensures states[j].group == 0 && states[j].slots == 0 && states[j].executors == map[]
    ensures states[j].records.Keys == states[i].records.Keys
    decreases j
  {
    EveryStateIsGood(steps, states, j);
    if i < j {
      CleanShutdownIsFinal(steps, states, w, i, j - 1);
      HistoryAfterCleanShutdown(steps, states, w, j - 1);
    }
    NothingLeft(states[j]);
  }

  /** A record runs, and then at most once becomes terminal for good. */
  lemma {:induction false} RecordsEndOnce(steps: seq<Step>, states: seq<State>, i: nat, j: nat, id: RunID)
    requires History(steps, states) && i <= j < |states| && id in states[i].records
    ensures id in states[j].records
    ensures states[i].records[id].Done? ==> states[j].records[id] == states[i].records[id]
    decreases j
  {
    if i < j {
      RecordsEndOnce(steps, states, i, j - 1, id);
      HistoryEvolves(steps, states, j - 1);
    }
  }

  /** An executor has one result, whatever its store attempts report, and a terminal record holds that
      result or says that the service restarted. */
  lemma {:induction false} StoredResultIsTheExecutors(steps: seq<Step>, states: seq<State>, i: nat, j: nat, id: RunID)
    requires History(steps, states) && i <= j < |states| && id in states[i].results
    ensures id in states[j].results && states[j].results[id] == states[i].results[id]
    ensures id in states[j].records && (states[j].records[id].Done? ==>
              states[j].records[id].terminal == states[i].results[id] || states[j].records[id].terminal == INTERRUPTED)
  {
    ResultsStay(steps, states, i, j, id);
    EveryStateIsGood(steps, states, j);
  }

  lemma {:induction false} ResultsStay(steps: seq<Step>, states: seq<State>, i: nat, j: nat, id: RunID)
    requires History(steps, states) && i <= j < |states| && id in states[i].results
    ensures id in states[j].results && states[j].results[id] == states[i].results[id]
    decreases j
  {
    if i < j {
      ResultsStay(steps, states, i, j - 1, id);
      HistoryEvolves(steps, states, j - 1);
    }
  }

  /** An attempt to complete a run that did anything but fail without effect leaves the executor's result
      in the record for good: when it was acknowledged, when it was reported as failed although it took
      effect, and when it was refused. */
  lemma EffectiveCompletionIsStored(steps: seq<Step>, states: seq<State>, i: nat, j: nat, id: RunID, reply: Reply)
    requires History(steps, states) && i < |steps| && steps[i] == Complete(id, reply) && i < j < |states|
    requires reply != Unknown(false)
    ensures id in states[i].results
    ensures id in states[j].records && states[j].records[id] == Done(states[i].results[id])
  {
    EveryStateIsGood(steps, states, i);
    CompletionEnds(states[i], id, reply);
    RecordsEndOnce(steps, states, i + 1, j, id);
  }

  lemma CompletionEnds(s: State, id: RunID, reply: Reply)
    requires Inv(s) && Enabled(s, Complete(id, reply)) && reply != Unknown(false)
    ensures id in s.results
    ensures var records := Apply(s, Complete(id, reply)).records; id in records && records[id] == Done(s.results[id])
  {
  }

  /** The process serves, and the record of this finished run is not ended by anything but its result. */
  predicate HoldsOwnResult(s: State, id: RunID) {
    && s.serving && id in s.results && id in s.records
    && (s.records[id].Running? || s.records[id] == Done(s.results[id]))
  }

  lemma OwnResultStays(s: State, step: Step, id: RunID)
    requires Inv(s) && Enabled(s, step) && !step.Crash?
    requires HoldsOwnResult(s, id) || (step.Finish? && step.id == id)
    ensures HoldsOwnResult(Apply(s, step), id)
  {
    assert Owned(Apply(s, step)) by { StepKeepsOwned(s, step); }
  }

  lemma KeepsOwnResult(steps: seq<Step>, states: seq<State>, k: nat, id: RunID)
    requires History(steps, states) && k < |steps| && !steps[k].Crash?
    requires HoldsOwnResult(states[k], id) || (steps[k].Finish? && steps[k].id == id)
    ensures HoldsOwnResult(states[k + 1], id)
  {
    EveryStateIsGood(steps, states, k);
    OwnResultStays(states[k], steps[k], id);
  }

  lemma {:induction false} ResultIsKeptWhileServing(steps: seq<Step>, states: seq<State>, i: nat, j: nat)
    requires History(steps, states) && i < j < |states| && steps[i].Finish?
    requires forall k :: i < k < j ==> !steps[k].Crash?
    ensures HoldsOwnResult(states[j], steps[i].id)
    decreases j
  {
    if i + 1 < j { ResultIsKeptWhileServing(steps, states, i, j - 1); }
    KeepsOwnResult(steps, states, j - 1, steps[i].id);
  }

  /** A run whose executor has finished is recorded as interrupted only if the process crashed after that. */
  lemma InterruptionNeedsCrash(steps: seq<Step>, states: seq<State>, i: nat, j: nat)
    requires History(steps, states) && i < j < |states| && steps[i].Finish? && steps[i].terminal != INTERRUPTED
    requires steps[i].id in states[j].records && states[j].records[steps[i].id] == Done(INTERRUPTED)
    ensures exists k :: i < k < j && steps[k].Crash?
  {
    if forall k :: i < k < j ==> !steps[k].Crash? {
      ResultIsKeptWhileServing(steps, states, i, j);
      ResultsStay(steps, states, i + 1, j, steps[i].id);
    }
  }

  /** A recovery settles every record made before it, for good: those still running are interrupted, and
      the others keep what they say. */
  lemma RecoverySettles(steps: seq<Step>, states: seq<State>, i: nat, r: nat, j: nat, id: RunID)
    requires History(steps, states) && i <= r < j < |states| && steps[r].Recover?
    requires id in states[i].records
    ensures id in states[r].records && id in states[j].records
    ensures states[j].records[id] == if states[r].records[id].Running? then Done(INTERRUPTED) else states[r].records[id]
  {
    RecordsEndOnce(steps, states, i, r, id);
    RecordsEndOnce(steps, states, r + 1, j, id);
  }

  predicate Creates(step: Step, id: RunID) {
    (step.CreateRecord? && step.id == id) || (step.CreateFails? && step.id == id && step.tookEffect)
  }

  /** A process serves and the record runs. */
  predicate Runs(s: State, id: RunID) { s.serving && id in s.records && s.records[id].Running? }

  /** A record that runs while a process serves either ran before the last step or was created by it. */
  lemma RunningByCreation(s: State, step: Step, id: RunID)
    requires Closed(s) && Enabled(s, step)
    requires Runs(Apply(s, step), id)
    ensures Runs(s, id) || Creates(step, id)
    ensures !step.Crash? && !step.Recover?
  {
  }

  /** Step k created the record, and no process ended or began between it and state j. */
  ghost predicate CreatedAt(steps: seq<Step>, k: nat, j: nat, id: RunID) {
    k < j <= |steps| && Creates(steps[k], id) && forall m :: k <= m < j ==> !steps[m].Recover? && !steps[m].Crash?
  }

  lemma LastStepCreates(steps: seq<Step>, states: seq<State>, j: nat, id: RunID)
    requires History(steps, states) && j < |states| && Runs(states[j], id)
    ensures 0 < j && (CreatedAt(steps, j - 1, j, id) || Runs(states[j - 1], id))
    ensures !steps[j - 1].Recover? && !steps[j - 1].Crash?
  {
    EveryStateIsGood(steps, states, j - 1);
    RunningByCreation(states[j - 1], steps[j - 1], id);
  }

  /** Whenever a process serves, every running record was created since its recovery, by itself. */
  lemma {:induction false} RunningIsOfThisProcess(steps: seq<Step>, states: seq<State>, j: nat, id: RunID) returns (k: nat)
    requires History(steps, states) && j < |states| && Runs(states[j], id)
    ensures CreatedAt(steps, k, j, id)
    decreases j
  {
    LastStepCreates(steps, states, j, id);
    k := j - 1;
    if !CreatedAt(steps, k, j, id) { k := RunningIsOfThisProcess(steps, states, j - 1, id); }
  }

  // ---- stranded records ----

  /** Somebody is on the way to ending this record: the handler about to start its executor, or the executor
      before its last attempt. */
  ghost predicate Tended(s: State, id: RunID) {
    || (exists h :: h in s.handlers && s.handlers[h] == Handler.Stored(id))
    || (id in s.executors && (s.executors[id].Executing? || s.executors[id].Completing?))
  }

  /** The record runs, and this process will never end it. */
  ghost predicate Stranded(s: State, id: RunID) { Runs(s, id) && !Tended(s, id) }

  /** The insertion was reported as failed but took effect, or the last attempt to complete failed without
      effect. */
  predicate Strands(s: State, step: Step, id: RunID) {
    || (step.CreateFails? && step.id == id && step.tookEffect && id !in s.records)
    || (&& step == Complete(id, Unknown(false)) && id in s.executors && s.executors[id].Completing?
        && s.executors[id].attempts + 1 == COMPLETION_ATTEMPTS && id in s.records && s.records[id].Running?)
  }

  predicate Restarts(step: Step) { step.Crash? || step.RecoveryFails? || step.Recover? }

  lemma HandlerStepTends(s: State, step: Step, id: RunID)
    requires Enabled(s, step) && HandlerStep(step)
    ensures Tended(Apply(s, step), id) <==> Tended(s, id) || (step.CreateRecord? && step.id == id)
  {
    HandlerStepMoves(s, step);
    var t := Apply(s, step);
    assert step.h in s.handlers ==> !s.handlers[step.h].Stored?;
    if step.CreateRecord? && step.id == id { assert t.handlers[step.h] == Handler.Stored(id); }
    if h :| h in s.handlers && s.handlers[h] == Handler.Stored(id) { assert t.handlers[h] == Handler.Stored(id); }
  }

  lemma HandlerStepStrands(s: State, step: Step, id: RunID)
    requires Closed(s) && StoredHandlers(s) && OwnedResults(s) && Enabled(s, step) && HandlerStep(step)
    ensures Stranded(Apply(s, step), id) <==> Stranded(s, id) || Strands(s, step, id)
  {
    HandlerStepTends(s, step, id);
    if id !in s.records {
      forall h | h in s.handlers && s.handlers[h].Stored? ensures s.handlers[h].id != id { assert Fresh(s, s.handlers[h].id); }
      assert !Tended(s, id);
    }
  }

  lemma SpawnStrands(s: State, h: nat, id: RunID)
    requires Enabled(s, Spawn(h))
    ensures Stranded(Apply(s, Spawn(h)), id) <==> Stranded(s, id)
  {
    var t := Apply(s, Spawn(h));
    if k :| k in s.handlers && s.handlers[k] == Handler.Stored(id) {
      assert if k == h then id in t.executors && t.executors[id].Executing? else t.handlers[k] == Handler.Stored(id);
    }
    if s.handlers[h].id == id { assert s.handlers[h] == Handler.Stored(id); }
  }

  lemma CompleteStrands(s: State, id: RunID, reply: Reply)
    requires Closed(s) && StoredHandlers(s) && OwnedExecutors(s) && Enabled(s, Complete(id, reply))
    ensures Stranded(Apply(s, Complete(id, reply)), id) <==> Stranded(s, id) || Strands(s, Complete(id, reply), id)
  {
    forall h | h in s.handlers && s.handlers[h].Stored? ensures s.handlers[h].id != id { assert Fresh(s, s.handlers[h].id); }
  }

  lemma OtherStepStrands(s: State, step: Step, id: RunID)
    requires Enabled(s, step) && !HandlerStep(step) && !Restarts(step) && !step.Spawn? && !(step.Complete? && step.id == id)
    ensures Stranded(Apply(s, step), id) <==> Stranded(s, id)
  {
    assert Apply(s, step).handlers == s.handlers;
  }

  lemma StepStrands(s: State, step: Step, id: RunID)
    requires Closed(s) && Owned(s) && Enabled(s, step) && !Restarts(step)
    ensures Stranded(Apply(s, step), id) <==> Stranded(s, id) || Strands(s, step, id)
  {
    if HandlerStep(step) {
      HandlerStepStrands(s, step, id);
    } else if step.Spawn? {
      SpawnStrands(s, step.h, id);
    } else if step.Complete? && step.id == id {
      CompleteStrands(s, id, step.reply);
    } else {
      OtherStepStrands(s, step, id);
    }
  }

  lemma HistoryStrands(steps: seq<Step>, states: seq<State>, i: nat, id: RunID)
    requires History(steps, states) && i < |steps|
    ensures !Restarts(steps[i]) ==> (Stranded(states[i + 1], id) <==> Stranded(states[i], id) || Strands(states[i], steps[i], id))
    ensures Restarts(steps[i]) ==> !Stranded(states[i + 1], id) && !Strands(states[i], steps[i], id)
  {
    EveryStateIsGood(steps, states, i);
    if Restarts(steps[i]) {
      NothingStrandedAtRestart(states[i], steps[i], id);
    } else {
      StepStrands(states[i], steps[i], id);
    }
  }

  lemma NothingStrandedAtRestart(s: State, step: Step, id: RunID)
    requires Enabled(s, step) && Restarts(step)
    ensures !Stranded(Apply(s, step), id) && !Strands(s, step, id)
  {
  }

  /** Step k stranded the record, and since then no process ended or began. */
  ghost predicate StrandedAt(steps: seq<Step>, states: seq<State>, k: nat, j: nat, id: RunID) {
    && k < j <= |steps| && |states| == |steps| + 1
    && Strands(states[k], steps[k], id) && forall m :: k < m < j ==> !Restarts(steps[m])
  }

  lemma StrandedLater(steps: seq<Step>, states: seq<State>, k: nat, j: nat, id: RunID)
    requires StrandedAt(steps, states, k, j, id) && j < |steps| && !Restarts(steps[j])
    ensures StrandedAt(steps, states, k, j + 1, id)
  {
  }

  lemma {:induction false} StrandingStep(steps: seq<Step>, states: seq<State>, j: nat, id: RunID) returns (k: nat)
    requires History(steps, states) && j < |states| && Stranded(states[j], id)
    ensures StrandedAt(steps, states, k, j, id)
    decreases j
  {
    assert !Stranded(states[0], id);
    var i: nat := j - 1;
    HistoryStrands(steps, states, i, id);
    if Strands(states[i], steps[i], id) { return i; }
    k := StrandingStep(steps, states, i, id);
    StrandedLater(steps, states, k, i, id);
  }

  lemma {:induction false} StaysStranded(steps: seq<Step>, states: seq<State>, k: nat, j: nat, id: RunID)
    requires History(steps, states) && StrandedAt(steps, states, k, j, id)
    ensures Stranded(states[j], id)
    decreases j
  {
    HistoryStrands(steps, states, j - 1, id);
    if k < j - 1 { StaysStranded(steps, states, k, j - 1, id); }
  }

  /** Which running records nobody in the process will ever end: exactly those whose insertion was reported as
      failed although it took effect, and those whose executor gave up after its last attempt without effect. */
  lemma StrandedExactly(steps: seq<Step>, states: seq<State>, j: nat, id: RunID)
    requires History(steps, states) && j < |states|
    ensures Stranded(states[j], id) <==> exists k: nat :: StrandedAt(steps, states, k, j, id)
  {
    if Stranded(states[j], id) {
      var k := StrandingStep(steps, states, j, id);
    }
    if k: nat :| StrandedAt(steps, states, k, j, id) { StaysStranded(steps, states, k, j, id); }
  }
}
