/** From the coordinator's result to the stored record (executeRun, completeRun in backend/internal/api/runs.go,
    sanitizeRunnerMetrics in backend/internal/api/preparation.go), and recovery at startup
    (recoverInterruptedRuns in backend/storage.go). */
module RunExecution {
  import opened GoText
  import opened RunnerResult
  import Redaction
  import opened RunStore
  import Cluster
  import Coordinator
  import OrphanCleanup
  import Scheduling

  // ---- the shared store ----

  /** The run store as its callers meet it: a call may fail, also after it took effect, and meanwhile other
      callers work on other records.  Nobody but its own executor completes a record while the service runs. */
  class RunTable {
    var runs: Runs

    method OthersAct(id: string)
      requires id in runs
      modifies this
      ensures id in runs && runs[id] == old(runs[id])
    {
      var later: Runs := *;
      if id in later && later[id] == runs[id] { runs := later; }
    }

    /** None is an error that says nothing about the record. */
    method Complete(id: string, status: Status, result: Result, message: string) returns (reply: Option<Reply>)
      requires id in runs
      modifies this
      ensures id in runs
      ensures runs[id] == old(runs[id]) || EndsAs(old(runs[id]), runs[id], status, result, message)
      ensures reply == Some(Ok) ==> EndsAs(old(runs[id]), runs[id], status, result, message)
      ensures reply.Some? && reply.value != Ok ==> runs[id] == old(runs[id]) && !(old(runs[id]).status.Running? && ValidCompletion(status, message))
    {
      OthersAct(id);
      var reaches: bool := *;
      if !reaches { return None; }
      var now: nat := *;
      if !ValidCompletion(status, message) { return Some(Refused(InvalidCompletion)); }
      if !runs[id].status.Running? { return Some(Refused(AlreadyCompleted)); }
      runs := runs[id := Completed(runs[id], now, status, result, message)];
      var acknowledged: bool := *;
      if acknowledged { return Some(Ok); }
      return None;
    }

    method FailRunning(message: string) returns (ids: Option<seq<string>>)
      modifies this
      ensures runs == old(runs) || Interruption(old(runs), runs, message)
      ensures ids.Some? ==> Interruption(old(runs), runs, message)
      ensures ids.Some? ==> IsInterruptedList(old(runs), ids.value)
    {
      var reaches: bool := *;
      if !reaches || !ValidCompletion(Failed, message) { return None; }
      var store := new MemoryRunStore();
      store.runs := runs;
      var now: nat := *;
      var reply := store.FailRunning(message, now);
      InterruptionMeans(old(runs), message, now, store.runs, reply);
      runs := store.runs;
      var acknowledged: bool := *;
      if acknowledged { return Some(reply.ids); }
      return None;
    }
  }

  /** Every running record was failed, at some time, with this message. */
  ghost predicate Interruption(before: Runs, after: Runs, message: string) {
    exists now :: after == Interrupted(before, now, message)
  }

  lemma InterruptionMeans(runs: Runs, message: string, now: nat, runs': Runs, reply: Reply)
    requires LazyStep(runs, FailRunning(message), now, runs', reply) && ValidCompletion(Failed, message)
    ensures Interruption(runs, runs', message) && reply.IDs? && IsInterruptedList(runs, reply.ids)
  {
  }

  /** The record ended, at some time, with this result. */
  ghost predicate EndsAs(before: Run, after: Run, status: Status, result: Result, message: string) {
    && before.status.Running? && ValidCompletion(status, message)
    && exists now :: after == Completed(before, now, status, result, message)
  }

  const COMPLETION_ATTEMPTS: nat := 3

  /** completeRun: three attempts, however they fail. */
  method CompleteRun(table: RunTable, id: string, status: Status, result: Result, message: string) returns (stored: bool)
    requires id in table.runs && table.runs[id].status.Running? && ValidCompletion(status, message)
    modifies table
    ensures id in table.runs
    ensures table.runs[id] == old(table.runs[id]) || EndsAs(old(table.runs[id]), table.runs[id], status, result, message)
    ensures stored ==> EndsAs(old(table.runs[id]), table.runs[id], status, result, message)
  {
    ghost var before := table.runs[id];
    for attempt := 0 to COMPLETION_ATTEMPTS
      invariant id in table.runs
      invariant table.runs[id] == before || EndsAs(before, table.runs[id], status, result, message)
    {
      var reply := table.Complete(id, status, result, message);
      if reply == Some(Ok) { return true; }
      if reply == Some(Refused(NotFound)) || reply == Some(Refused(AlreadyCompleted)) { return false; }
    }
    return false;
  }

  // ---- what may be published ----

  predicate Reveals(m: Metric, secrets: seq<string>) {
    exists i :: 0 <= i < |secrets| && secrets[i] != "" && (Contains(m.name, secrets[i]) || Contains(m.unit, secrets[i]))
  }

  function Unrevealing(metrics: seq<Metric>, secrets: seq<string>): seq<Metric> {
    if metrics == [] then []
    else
      var last := metrics[|metrics| - 1];
      Unrevealing(metrics[..|metrics| - 1], secrets) + if Reveals(last, secrets) then [] else [last]
  }

  method SanitizeRunnerMetrics(metrics: seq<Metric>, secrets: seq<string>) returns (safe: seq<Metric>)
    ensures safe == Unrevealing(metrics, secrets)
  {
    safe := [];
    for n := 0 to |metrics|
      invariant safe == Unrevealing(metrics[..n], secrets)
    {
      assert metrics[..n + 1][..n] == metrics[..n];
      var metric := metrics[n];
      var sensitive := false;
      for i := 0 to |secrets|
        invariant !sensitive && forall k :: 0 <= k < i ==>
                    secrets[k] == "" || (!Contains(metric.name, secrets[k]) && !Contains(metric.unit, secrets[k]))
      {
        if secrets[i] != "" && (Contains(metric.name, secrets[i]) || Contains(metric.unit, secrets[i])) {
          sensitive := true;
          break;
        }
      }
      if !sensitive { safe := safe + [metric]; }
    }
    assert metrics[..|metrics|] == metrics;
  }

  /** No name or unit of a published metric contains a secret, and every metric of which that is true is
      published, as it was. */
  lemma {:induction false} PublishedMetrics(metrics: seq<Metric>, secrets: seq<string>)
    ensures forall m :: m in Unrevealing(metrics, secrets) <==> m in metrics && !Reveals(m, secrets)
  {
    if metrics != [] {
      PublishedMetrics(metrics[..|metrics| - 1], secrets);
      assert metrics == metrics[..|metrics| - 1] + [metrics[|metrics| - 1]];
    }
  }

  // ---- executeRun ----

  const SUBJECT: string := "benchmark"
  const FAILED: string := " execution failed"
  const UNSCHEDULABLE: string := " runner could not be scheduled: no node satisfies the placement rules and resource requests"
  const UNSCHEDULABLE_TIMEOUT: string :=
    " execution timed out before the runner could be scheduled: no node satisfies the placement rules and resource requests"

  predicate BlamesScheduling(errors: seq<Coordinator.RunError>) {
    exists e :: e in errors && Coordinator.OfScheduling(e)
  }

  predicate AnyTimeout(errors: seq<Coordinator.RunError>) {
    exists e :: e in errors && Coordinator.DeadlineExceeded(e)
  }

  function FailureMessage(errors: seq<Coordinator.RunError>): string {
    SUBJECT +
    if !BlamesScheduling(errors) then FAILED
    else if AnyTimeout(errors) then UNSCHEDULABLE_TIMEOUT
    else UNSCHEDULABLE
  }

  lemma FailureMessageIsValid(errors: seq<Coordinator.RunError>)
    ensures ValidCompletion(Failed, FailureMessage(errors))
  {
    NotBlank(FailureMessage(errors));
  }

  /** Does the message say that the execution timed out before the runner could be scheduled? */
  predicate SaysTimedOut(errors: seq<Coordinator.RunError>) {
    FailureMessage(errors) == SUBJECT + UNSCHEDULABLE_TIMEOUT
  }

  /** Did the execution end because its own deadline passed? */
  predicate ExecutionTimedOut(errors: seq<Coordinator.RunError>) {
    Coordinator.WaitFailed(Coordinator.WaitExpired(true)) in errors || Coordinator.ContextEnded(true) in errors
  }

  /** A request timed out for another reason: on its own, while reading diagnostics, or during cleanup. */
  predicate OtherTimeout(errors: seq<Coordinator.RunError>) {
    exists e :: e in errors && Coordinator.DeadlineExceeded(e)
                && e != Coordinator.WaitFailed(Coordinator.WaitExpired(true)) && e != Coordinator.ContextEnded(true)
  }

  /** An execution that timed out is past its deadline.  The message says so rightly unless scheduling failed,
      the execution did not time out, and some other request did: then, and only then, it says so wrongly. */
  lemma TimeoutWordingExactly(v: Cluster.World, w: Cluster.World, job: Coordinator.Ref, terms: Coordinator.Terms,
                              errors: seq<Coordinator.RunError>)
    requires Coordinator.Backed(v, w, job, terms, errors)
    ensures ExecutionTimedOut(errors) ==> w.now >= terms.ctx.deadline
    ensures SaysTimedOut(errors) == (BlamesScheduling(errors) && ExecutionTimedOut(errors)) <==>
            !(BlamesScheduling(errors) && !ExecutionTimedOut(errors) && OtherTimeout(errors))
  {
    WordingsDiffer();
    if ExecutionTimedOut(errors) {
      var i :| 0 <= i < |errors| && (errors[i] == Coordinator.WaitFailed(Coordinator.WaitExpired(true)) || errors[i] == Coordinator.ContextEnded(true));
      assert Coordinator.Cause(v, w, job, terms, errors[i]);
      assert Coordinator.DeadlineExceeded(errors[i]);
    }
  }

  lemma WordingsDiffer()
    ensures SUBJECT + UNSCHEDULABLE_TIMEOUT != SUBJECT + FAILED && SUBJECT + UNSCHEDULABLE_TIMEOUT != SUBJECT + UNSCHEDULABLE
  {
    assert |UNSCHEDULABLE_TIMEOUT| != |FAILED| && |UNSCHEDULABLE_TIMEOUT| != |UNSCHEDULABLE|;
  }

  /** For instance: the Pod could not be placed within the grace period, and deleting the Job then took too long. */
  lemma CleanupTimeoutIsNamed(e: Scheduling.SchedulingError)
    ensures SaysTimedOut([Coordinator.WaitFailed(Coordinator.NotScheduled(e)), Coordinator.JobCleanupFailed(true)])
    ensures !ExecutionTimedOut([Coordinator.WaitFailed(Coordinator.NotScheduled(e)), Coordinator.JobCleanupFailed(true)])
  {
    var errors := [Coordinator.WaitFailed(Coordinator.NotScheduled(e)), Coordinator.JobCleanupFailed(true)];
    assert Coordinator.OfScheduling(errors[0]) && Coordinator.DeadlineExceeded(errors[1]);
  }

  /** What of the execution's result is stored: everything, with the secrets taken out. */
  function Published(result: Result, secrets: seq<string>): Result {
    result.(output := Redaction.Replace(secrets, result.output), metrics := Unrevealing(result.metrics, secrets))
  }

  /** The record holds what this execution came to. */
  ghost predicate Reports(before: Run, after: Run, errors: seq<Coordinator.RunError>, result: Result, secrets: seq<string>) {
    if errors == [] then EndsAs(before, after, Succeeded, Published(result, secrets), "")
    else EndsAs(before, after, Failed, Published(result, secrets), FailureMessage(errors))
  }

  /** The executor of one run.  However Kubernetes and the store behave, the record either is still running,
      because no attempt to complete it took effect, or holds exactly what the execution came to; and it says
      succeeded only after everything that a success takes was seen and done. */
  method ExecuteRun(api: Cluster.API, caller: Cluster.Context, table: RunTable, id: string, prepared: bool,
                    executionTimeout: nat, grace: nat, secrets: seq<string>)
    returns (ghost result: Result, ghost errors: seq<Coordinator.RunError>, ghost secret: Coordinator.Ref, ghost job: Coordinator.Ref)
    requires api.Valid() && id in table.runs && table.runs[id].status.Running?
    modifies api, table
    ensures id in table.runs
    ensures table.runs[id] == old(table.runs[id]) || Reports(old(table.runs[id]), table.runs[id], errors, result, secrets)
    ensures table.runs[id].status.Succeeded? ==>
              table.runs[id].result == Published(result, secrets) && table.runs[id].error == ""
    ensures table.runs[id].status.Succeeded? ==> Coordinator.Success(old(api.Now()), api.Now(), secret, job, result)
    ensures Coordinator.Outcome(old(api.Now()), api.Now(), secret, job,
              Coordinator.TermsOf(caller, prepared, executionTimeout, grace, old(api.now)), result, errors)
  {
    ghost var before := table.runs[id];
    var res, errs;
    res, errs, secret, job := Coordinator.Run(api, caller, id, prepared, executionTimeout, grace);
    result, errors := res, errs;
    var output := Redaction.SanitizeRunnerOutput(res.output, secrets);
    var safe := SanitizeRunnerMetrics(res.metrics, secrets);
    var status := if errs == [] then Succeeded else Failed;
    var message := if errs == [] then "" else FailureMessage(errs);
    FailureMessageIsValid(errs);
    var _ := CompleteRun(table, id, status, res.(output := output, metrics := safe), message);
  }

  // ---- startup ----

  const INTERRUPTED_MESSAGE: string := "benchmark run was interrupted because the benchmark service restarted"

  ghost predicate NothingRuns(runs: Runs) { forall id :: id in runs ==> !runs[id].status.Running? }

  /** Records that had ended keep what they say. */
  ghost predicate EndedStay(before: Runs, after: Runs) {
    forall id :: id in before && !before[id].status.Running? ==> id in after && after[id] == before[id]
  }

  /** recoverInterruptedRuns: without an error no record is running, whatever happens no ended record is
      touched, and unless more cleanup is pending no object of an earlier process is left. */
  method RecoverInterruptedRuns(table: RunTable, api: Cluster.API, caller: Cluster.Context) returns (pending: bool, failed: bool)
    requires api.Valid()
    modifies table, api
    ensures api.Valid() && OrphanCleanup.RemovesOrphans(api, old(api.Now()), api.Now())
    ensures EndedStay(old(table.runs), table.runs) && table.runs.Keys == old(table.runs).Keys
    ensures !failed ==> NothingRuns(table.runs)
    ensures !failed && !pending ==> OrphanCleanup.Clean(api, api.Now())
    ensures failed ==> !pending && api.Now() == old(api.Now())
  {
    OrphanCleanup.RemovesNothing(api);
    var ctx := Cluster.Context(caller.cancellable, OrphanCleanup.Min(caller.deadline, api.now + OrphanCleanup.RECOVERY_TIMEOUT));
    var ids := table.FailRunning(INTERRUPTED_MESSAGE);
    if ids.None? { return false, true; }
    var _, _, errors, _, _ := OrphanCleanup.CleanupOrphanedResources(api, ctx);
    pending, failed := errors != [], false;
  }
}
