/** Early failure of runs whose Pod cannot be placed (backend/internal/coordinator/scheduling.go). */
module Scheduling {
  import opened GoText
  import opened RunnerResult

  datatype PodCondition = PodCondition(kind: string, status: string, reason: string, message: string)

  /** The container state that runnerHasStarted and runnerMetrics read; report is what the termination
      message decodes to, nothing when it is no valid record. */
  datatype ContainerStatus = ContainerStatus(name: string, running: bool, terminated: bool, lastTerminated: bool,
                                             report: seq<Metric>)

  datatype Owner = Owner(apiVersion: string, kind: string, name: string, uid: nat)

  datatype Pod = Pod(name: string, uid: string, nodeName: string, deleting: bool, controller: Option<Owner>,
                     conditions: seq<PodCondition>, containers: seq<ContainerStatus>)

  predicate Unschedulable(c: PodCondition) {
    c.kind == "PodScheduled" && c.status == "False" && c.reason == "Unschedulable"
  }

  function FirstUnschedulable(conditions: seq<PodCondition>): Option<PodCondition> {
    if conditions == [] then None
    else if Unschedulable(conditions[0]) then Some(conditions[0])
    else FirstUnschedulable(conditions[1..])
  }

  /** unschedulableCondition: stale conditions of bound or terminating Pods are ignored. */
  function UnschedulableCondition(pod: Option<Pod>): Option<PodCondition> {
    if pod.None? || pod.value.nodeName != "" || pod.value.deleting then None
    else FirstUnschedulable(pod.value.conditions)
  }

  const RUNNER_CONTAINER: string := "benchmark-runner"

  function FirstRunner(statuses: seq<ContainerStatus>): Option<ContainerStatus> {
    if statuses == [] then None
    else if statuses[0].name == RUNNER_CONTAINER then Some(statuses[0])
    else FirstRunner(statuses[1..])
  }

  predicate RunnerHasStarted(pod: Pod) {
    var s := FirstRunner(pod.containers);
    s.Some? && (s.value.running || s.value.terminated || s.value.lastTerminated)
  }

  /** runnerMetrics: only the current run of the runner container counts. */
  function RunnerMetrics(pod: Pod): seq<Metric> {
    var s := FirstRunner(pod.containers);
    if s.Some? && s.value.terminated then s.value.report else []
  }

  datatype SchedulingError = SchedulingError(podName: string, message: string, gracePeriod: nat)

  /** What one round of the wait loop saw. */
  datatype Observation = LookupFailed | Saw(pod: Option<Pod>, at: nat)

  /** The Pod UID that an observation shows as unschedulable; "" for every other observation. */
  function StuckPod(o: Observation): string {
    if o.Saw? && UnschedulableCondition(o.pod).Some? then o.pod.value.uid else ""
  }

  /** The observations from i to n all show the same Pod as unschedulable. */
  ghost predicate Window(seen: seq<Observation>, i: nat, n: nat) {
    && i <= n < |seen| && StuckPod(seen[n]) != ""
    && forall k :: i <= k <= n ==> StuckPod(seen[k]) == StuckPod(seen[n])
  }

  /** The last observation completes a window at least the grace period long. */
  ghost predicate Overdue(seen: seq<Observation>, grace: nat) {
    seen != [] && exists i :: 0 <= i && Window(seen, i, |seen| - 1) && seen[|seen| - 1].at - seen[i].at >= grace
  }

  ghost predicate OverdueAt(rounds: seq<Observation>, n: nat, grace: nat) {
    n < |rounds| && Overdue(rounds[..n + 1], grace)
  }

  ghost predicate ClockRuns(seen: seq<Observation>) {
    forall i, j :: 0 <= i < j < |seen| && seen[i].Saw? && seen[j].Saw? ==> seen[i].at <= seen[j].at
  }

  /** The tracked Pod and the first observation of its current window. */
  ghost predicate Tracks(seen: seq<Observation>, podUID: string, since: Option<nat>) {
    if since.None? then podUID == "" && (seen == [] || StuckPod(seen[|seen| - 1]) == "")
    else
      && seen != [] && podUID != "" && StuckPod(seen[|seen| - 1]) == podUID
      && exists i ::
           && 0 <= i && Window(seen, i, |seen| - 1) && seen[i].at == since.value
           && (i > 0 ==> StuckPod(seen[i - 1]) != podUID)
  }

  class SchedulingTracker {
    var podUID: string
    var since: Option<nat>
    ghost var seen: seq<Observation>

    ghost predicate Valid()
      reads this
    {
      ClockRuns(seen) && Tracks(seen, podUID, since)
    }

    constructor ()
      ensures Valid() && seen == []
    {
      podUID, since, seen := "", None, [];
    }

    /** A failed lookup forgets the window. */
    method Reset()
      requires Valid()
      modifies this
      ensures Valid() && seen == old(seen) + [LookupFailed]
      ensures !Overdue(seen, 0)
    {
      podUID, since := "", None;
      seen := seen + [LookupFailed];
    }

    /** The failure fires exactly when the current observation is overdue. */
    method Observe(pod: Option<Pod>, now: nat, grace: nat) returns (err: Option<SchedulingError>)
      requires Valid() && forall i :: 0 <= i < |seen| && seen[i].Saw? ==> seen[i].at <= now
      modifies this
      ensures Valid() && seen == old(seen) + [Saw(pod, now)]
      ensures err.Some? <==> Overdue(seen, grace)
      ensures err.Some? ==>
                pod.Some? && UnschedulableCondition(pod).Some? && err.value == SchedulingError(pod.value.name, UnschedulableCondition(pod).value.message, grace)
    {
      var condition := UnschedulableCondition(pod);
      if condition.None? || pod.value.uid == "" {
        WindowEnds(seen, pod, now, grace);
        podUID, since, seen := "", None, seen + [Saw(pod, now)];
        return None;
      }
      WindowGrows(seen, podUID, since, pod, now);
      ClockGoesOn(seen, pod, now);
      if since.None? || podUID != pod.value.uid {
        podUID, since := pod.value.uid, Some(now);
      }
      seen := seen + [Saw(pod, now)];
      OverdueFromStart(seen, podUID, since.value, grace);
      if now - since.value < grace { return None; }
      err := Some(SchedulingError(pod.value.name, condition.value.message, grace));
    }
  }

  lemma ClockGoesOn(before: seq<Observation>, pod: Option<Pod>, now: nat)
    requires ClockRuns(before) && forall i :: 0 <= i < |before| && before[i].Saw? ==> before[i].at <= now
    ensures ClockRuns(before + [Saw(pod, now)])
  {
  }

  lemma WindowEnds(before: seq<Observation>, pod: Option<Pod>, now: nat, grace: nat)
    requires ClockRuns(before) && forall i :: 0 <= i < |before| && before[i].Saw? ==> before[i].at <= now
    requires UnschedulableCondition(pod).None? || pod.value.uid == ""
    ensures var seen := before + [Saw(pod, now)];
            ClockRuns(seen) && Tracks(seen, "", None) && !Overdue(seen, grace)
  {
    var seen := before + [Saw(pod, now)];
    ClockGoesOn(before, pod, now);
    assert StuckPod(seen[|before|]) == "";
  }

  lemma WindowGrows(before: seq<Observation>, podUID: string, since: Option<nat>, pod: Option<Pod>, now: nat)
    requires ClockRuns(before) && Tracks(before, podUID, since)
    requires UnschedulableCondition(pod).Some? && pod.value.uid != ""
    ensures var seen, uid := before + [Saw(pod, now)], pod.value.uid;
            Tracks(seen, uid, if since.None? || podUID != uid then Some(now) else since)
  {
    var seen, uid, n := before + [Saw(pod, now)], pod.value.uid, |before|;
    assert seen[n] == Saw(pod, now) && StuckPod(seen[n]) == uid;
    assert forall k :: 0 <= k < n ==> seen[k] == before[k];
    if since.None? || podUID != uid {
      assert Window(seen, n, n);
    } else {
      var i :| 0 <= i && Window(before, i, n - 1) && before[i].at == since.value && (i > 0 ==> StuckPod(before[i - 1]) != podUID);
      assert Window(seen, i, n);
    }
  }

  /** The longest window decides: with a clock that does not run backwards, no shorter one is older. */
  lemma OverdueFromStart(seen: seq<Observation>, podUID: string, since: nat, grace: nat)
    requires ClockRuns(seen) && Tracks(seen, podUID, Some(since))
    ensures since <= seen[|seen| - 1].at
    ensures Overdue(seen, grace) <==> seen[|seen| - 1].at - since >= grace
  {
  }

  /** The wait loop's use of the tracker: it stops at the first overdue observation. */
  method WatchScheduling(rounds: seq<Observation>, grace: nat) returns (fired: Option<nat>)
    requires ClockRuns(rounds) && grace > 0
    ensures fired.Some? ==> fired.value < |rounds| && OverdueAt(rounds, fired.value, grace)
    ensures forall m :: 0 <= m < (if fired.Some? then fired.value else |rounds|) ==> !OverdueAt(rounds, m, grace)
  {
    var tracker := new SchedulingTracker();
    for n := 0 to |rounds|
      invariant tracker.Valid() && tracker.seen == rounds[..n]
      invariant forall m :: 0 <= m < n ==> !OverdueAt(rounds, m, grace)
    {
      assert rounds[..n + 1] == rounds[..n] + [rounds[n]];
      match rounds[n]
      case LookupFailed =>
        tracker.Reset();
        assert !OverdueAt(rounds, n, grace);
      case Saw(pod, at) =>
        var err := tracker.Observe(pod, at, grace);
        if err.Some? { return Some(n); }
    }
    fired := None;
  }
}
