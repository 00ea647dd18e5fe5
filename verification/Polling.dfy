/** One polling session of the run page (startBenchmarkRunPolling in src/benchmarkRunPolling.ts).

    The session reacts to events: its timer fires, its request succeeds or fails, or the page stops it.
    A callback of the page may itself stop the session; that is part of the event. */
module Polling {
  import opened GoText

  const POLL_DELAY: nat := 2_000
  const RETRY_DELAYS: seq<nat> := [2_000, 4_000, 8_000]

  datatype Run = Run(running: bool, content: string)

  datatype Cause = Aborted | StatusError(message: string, retryable: bool) | Unknown

  datatype Event =
    | TimerFires
    | FetchSucceeds(run: Run, callbackStops: bool)
    | FetchFails(cause: Cause, callbackStops: bool)
    | ExternalStop

  /** What the page and the network see of the session. */
  datatype Entry =
    | Requested
    | Delivered(run: Run)
    | Reported(message: string, retryIn: Option<nat>)   // paused exactly without a retry

  datatype Session = Session(active: bool, timer: Option<nat>, inFlight: bool, failures: nat, log: seq<Entry>)

  const UNKNOWN_MESSAGE: string := "Could not retrieve the benchmark status."

  function Message(cause: Cause): string { if cause.StatusError? then cause.message else UNKNOWN_MESSAGE }

  predicate Retryable(cause: Cause) { cause.StatusError? && cause.retryable }

  predicate Enabled(s: Session, e: Event) {
    match e
    case TimerFires => s.timer.Some?
    case FetchSucceeds(_, _) => s.inFlight
    case FetchFails(_, _) => s.inFlight
    case ExternalStop => true
  }

  function Stopped(s: Session): Session { s.(active := false, timer := None) }

  function Polled(s: Session): Session {
    if s.active then s.(inFlight := true, log := s.log + [Requested]) else s
  }

  function Enqueued(s: Session, delay: nat): Session {
    if s.active then s.(timer := Some(delay)) else s
  }

  function Step(s: Session, e: Event): Session
    requires Enabled(s, e)
  {
    match e
    case TimerFires => Polled(s.(timer := None))
    case ExternalStop => Stopped(s)
    case FetchSucceeds(run, callbackStops) =>
      var t := s.(inFlight := false);
      if !s.active then t
      else
        var reset := t.(failures := 0);
        var before := if run.running then reset else Stopped(reset);
        var told := before.(log := s.log + [Delivered(run)]);
        var after := if callbackStops then Stopped(told) else told;
        if run.running then Enqueued(after, POLL_DELAY) else after
    case FetchFails(cause, callbackStops) =>
      var t := s.(inFlight := false);
      if !s.active then t
      else if cause.Aborted? then Stopped(t)
      else if Retryable(cause) && s.failures < |RETRY_DELAYS| then
        var delay := RETRY_DELAYS[s.failures];
        var told := t.(failures := s.failures + 1, log := s.log + [Reported(Message(cause), Some(delay))]);
        Enqueued(if callbackStops then Stopped(told) else told, delay)
      else
        var paused := Stopped(t.(failures := if Retryable(cause) then s.failures + 1 else s.failures));
        paused.(log := s.log + [Reported(Message(cause), None)])
  }

  const FRESH := Session(true, None, true, 0, [Requested])

  /** startBenchmarkRunPolling's closure; its functions run one event at a time. */
  class PollingSession {
    var active: bool
    var timer: Option<nat>
    var inFlight: bool
    var failures: nat
    ghost var log: seq<Entry>

    ghost function Now(): Session
      reads this
    {
      Session(active, timer, inFlight, failures, log)
    }

    constructor ()
      ensures Now() == FRESH
    {
      active, timer, inFlight, failures, log := true, None, true, 0, [Requested];
    }

    method Stop()
      modifies this
      ensures Now() == Step(old(Now()), ExternalStop)
    {
      active := false;
      timer := None;
    }

    method Enqueue(delay: nat)
      modifies this
      ensures Now() == Enqueued(old(Now()), delay)
    {
      if active { timer := Some(delay); }
    }

    method Poll()
      modifies this
      ensures Now() == Polled(old(Now()))
    {
      if !active { return; }
      inFlight := true;
      log := log + [Requested];
    }

    method OnTimer()
      requires timer.Some?
      modifies this
      ensures Now() == Step(old(Now()), TimerFires)
    {
      timer := None;
      Poll();
    }

    method OnFailure(cause: Cause, callbackStops: bool)
      requires inFlight
      modifies this
      ensures Now() == Step(old(Now()), FetchFails(cause, callbackStops))
    {
      inFlight := false;
      if !active { return; }
      if cause.Aborted? {
        Stop();
        return;
      }
      var delay: Option<nat> := None;
      if Retryable(cause) {
        if failures < |RETRY_DELAYS| { delay := Some(RETRY_DELAYS[failures]); }
        failures := failures + 1;
      }
      if delay.None? {
        Stop();
        log := log + [Reported(Message(cause), None)];
      } else {
        log := log + [Reported(Message(cause), delay)];
        if callbackStops { Stop(); }
        Enqueue(delay.value);
      }
    }

    method OnSuccess(run: Run, callbackStops: bool)
      requires inFlight
      modifies this
      ensures Now() == Step(old(Now()), FetchSucceeds(run, callbackStops))
    {
      inFlight := false;
      if !active { return; }
      failures := 0;
      if !run.running { Stop(); }
      log := log + [Delivered(run)];
      if callbackStops { Stop(); }
      if run.running { Enqueue(POLL_DELAY); }
    }
  }

  // ---- every session ----

  ghost predicate History(events: seq<Event>, states: seq<Session>) {
    && |states| == |events| + 1 && states[0] == FRESH
    && forall i {:trigger events[i]} :: 0 <= i < |events| ==> Enabled(states[i], events[i]) && states[i + 1] == Step(states[i], events[i])
  }

  /** Failures reported since the last snapshot. */
  function FailuresSince(log: seq<Entry>): nat {
    if log == [] || log[|log| - 1].Delivered? then 0
    else FailuresSince(log[..|log| - 1]) + if log[|log| - 1].Reported? then 1 else 0
  }

  /** Nothing may follow a terminal snapshot or a pause. */
  predicate Final(entry: Entry) {
    (entry.Delivered? && !entry.run.running) || (entry.Reported? && entry.retryIn.None?)
  }

  /** Retry delays double, and a retry follows at most the third failure in a row. */
  predicate PacedAt(log: seq<Entry>, i: nat)
    requires i < |log|
  {
    log[i].Reported? && log[i].retryIn.Some? ==>
      FailuresSince(log[..i]) < |RETRY_DELAYS| && log[i].retryIn.value == RETRY_DELAYS[FailuresSince(log[..i])]
  }

  ghost predicate LogGood(log: seq<Entry>) {
    && (forall i :: 0 <= i < |log| ==> PacedAt(log, i))
    && (forall i :: 0 <= i < |log| - 1 ==> !Final(log[i]))
  }

  ghost predicate Good(s: Session) {
    && LogGood(s.log) && s.log != []
    && (s.active ==> (s.timer.Some? <==> !s.inFlight))
    && (s.active ==> s.failures == FailuresSince(s.log) <= |RETRY_DELAYS| && !Final(s.log[|s.log| - 1]))
    && (!s.active ==> s.timer.None?)
  }

  lemma LogGrows(log: seq<Entry>, entry: Entry)
    requires LogGood(log) && log != [] && !Final(log[|log| - 1])
    requires entry.Reported? && entry.retryIn.Some? ==>
               FailuresSince(log) < |RETRY_DELAYS| && entry.retryIn.value == RETRY_DELAYS[FailuresSince(log)]
    ensures LogGood(log + [entry])
    ensures FailuresSince(log + [entry]) == if entry.Delivered? then 0 else FailuresSince(log) + if entry.Reported? then 1 else 0
  {
    var longer := log + [entry];
    assert longer[..|log|] == log;
    forall i | 0 <= i < |log| ensures PacedAt(longer, i) { PaceStays(log, longer, i); }
  }

  lemma PaceStays(log: seq<Entry>, longer: seq<Entry>, i: nat)
    requires log <= longer && i < |log| && PacedAt(log, i)
    ensures PacedAt(longer, i)
  {
    assert longer[..i] == log[..i];
  }

  lemma StepKeepsGood(s: Session, e: Event)
    requires Good(s) && Enabled(s, e)
    ensures Good(Step(s, e))
    ensures s.log <= Step(s, e).log && (!s.active ==> !Step(s, e).active && Step(s, e).log == s.log)
  {
    if s.active {
      match e
      case TimerFires => LogGrows(s.log, Requested);
      case ExternalStop =>
      case FetchSucceeds(run, _) => LogGrows(s.log, Delivered(run));
      case FetchFails(cause, _) =>
        if !cause.Aborted? {
          LogGrows(s.log, Reported(Message(cause), if Retryable(cause) && s.failures < 3 then Some(RETRY_DELAYS[s.failures]) else None));
        }
    }
  }

  /** In every session: while it is active it waits for exactly one thing, a request or a timer; a terminal
      snapshot and a pause come last; and there are at most three retries in a row, at 2, 4 and 8 seconds. */
  lemma {:induction false} EverySessionIsGood(events: seq<Event>, states: seq<Session>, i: nat)
    requires History(events, states) && i < |states|
    ensures Good(states[i])
    decreases i
  {
    if i > 0 {
      EverySessionIsGood(events, states, i - 1);
      StepKeepsGood(states[i - 1], events[i - 1]);
    } else {
      assert FailuresSince([Requested]) == 0;
    }
  }

  /** After a stop, from outside or from a callback, nothing is requested or reported any more. */
  lemma {:induction false} NothingAfterStop(events: seq<Event>, states: seq<Session>, i: nat, j: nat)
    requires History(events, states) && i <= j < |states| && !states[i].active
    ensures !states[j].active && states[j].log == states[i].log && states[j].timer.None?
    decreases j
  {
    EverySessionIsGood(events, states, j);
    if i < j {
      NothingAfterStop(events, states, i, j - 1);
      EverySessionIsGood(events, states, j - 1);
      StepKeepsGood(states[j - 1], events[j - 1]);
    }
  }

  /** A fourth failure in a row ends the session, whatever happens before. */
  lemma FourthFailurePauses(events: seq<Event>, states: seq<Session>, i: nat)
    requires History(events, states) && i < |states|
    ensures FailuresSince(states[i].log) <= |RETRY_DELAYS| + 1
    ensures FailuresSince(states[i].log) == |RETRY_DELAYS| + 1 ==> !states[i].active && Final(states[i].log[|states[i].log| - 1])
  {
    EverySessionIsGood(events, states, i);
    FailuresAreFew(states[i].log);
  }

  lemma {:induction false} FailuresAreFew(log: seq<Entry>)
    requires LogGood(log)
    ensures FailuresSince(log) <= |RETRY_DELAYS| + 1
    ensures FailuresSince(log) == |RETRY_DELAYS| + 1 ==> log != [] && Final(log[|log| - 1])
  {
    if log != [] {
      var n := |log| - 1;
      var front := log[..n];
      forall i | 0 <= i < |front| ensures PacedAt(front, i) {
        assert front[..i] == log[..i];
        assert PacedAt(log, i);
      }
      FailuresAreFew(front);
      assert PacedAt(log, n);
      if n > 0 { assert !Final(log[n - 1]); }
    }
  }
}
