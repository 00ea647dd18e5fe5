/** The phases of one go-ycsb run (runners/go-ycsb/main.go: run, runWithMetrics). */
module GoYcsbRun {
  import opened GoText
  import opened Lines
  import opened SummaryLines
  import opened GoYcsbMetrics
  import PhaseObservations
  import opened PhaseOutput

  /** A context that may be cancelled at any moment and stays cancelled. */
  class Context {
    var cancelled: bool

    method Err() returns (done: bool)
      modifies this
      ensures done == cancelled && (old(cancelled) ==> cancelled)
    {
      var now: bool := *;
      cancelled := cancelled || now;
      done := cancelled;
    }
  }

  datatype Config = Config(secrets: seq<string>, recordCount: nat, initialize: bool)

  datatype RunError = Cancelled | NoConnectionFile | PhaseExecution(load: bool) | PhaseOutputRejected(load: bool)

  /** One execution of the child: the phase, everything it wrote and in which fragments, whether the
      process failed, whether a destination refused some of its output, and the verdict on it. */
  datatype Attempt = Attempt(load: bool, fragments: seq<Fragment>, processFailed: bool, refused: bool,
                             verdict: PhaseObservations.Verdict) {
    function Out(): string { Stream(true, fragments) }

    function Err(): string { Stream(false, fragments) }

    predicate Wrote(out: string, err: string) { out == Out() && err == Err() }

    predicate Succeeded() { !processFailed && verdict == PhaseObservations.Passed }
  }

  function Phases(config: Config): seq<bool> { if config.initialize then [true, false] else [false] }

  /** The attempts are an initial part of the planned phases, each started only after the ones before
      it succeeded, and every verdict is that of the complete streams unless forwarding failed. */
  ghost predicate InOrder(config: Config, attempts: seq<Attempt>) {
    Planned(config, attempts) && AllJudged(config, attempts)
  }

  predicate Planned(config: Config, attempts: seq<Attempt>) {
    && |attempts| <= |Phases(config)|
    && (forall i :: 0 <= i < |attempts| ==> attempts[i].load == Phases(config)[i])
    && (forall i :: 0 <= i < |attempts| - 1 ==> attempts[i].Succeeded())
  }

  ghost predicate AllJudged(config: Config, attempts: seq<Attempt>) {
    attempts == [] || (AllJudged(config, attempts[..|attempts| - 1]) && Judged(config, attempts[|attempts| - 1]))
  }

  lemma {:induction false} JudgedAt(config: Config, attempts: seq<Attempt>, i: nat)
    requires AllJudged(config, attempts) && i < |attempts|
    ensures Judged(config, attempts[i])
  {
    if i < |attempts| - 1 { JudgedAt(config, attempts[..|attempts| - 1], i); }
  }

  /** The child process: it writes any fragments in any order and may fail. */
  method Invoke() returns (fragments: seq<Fragment>, failed: bool) {
    fragments := *;
    failed := *;
  }

  method Run(ctx: Context, config: Config, collector: Collector, out: Destination, err: Destination)
    returns (error: Option<RunError>, ghost attempts: seq<Attempt>)
    requires collector.Valid() && collector.Buffer() == START && out != err
    modifies ctx, collector, out, err
    ensures collector.Valid()
    ensures InOrder(config, attempts)
    ensures error.None? ==> |attempts| == |Phases(config)| && attempts[|attempts| - 1].Succeeded()
    ensures error.None? ==> collector.Buffer() == SummaryLines.AddBytes(START, attempts[|attempts| - 1].Out())
    ensures old(out.refusals) <= out.refusals && old(err.refusals) <= err.refusals
    ensures AnyRefused(attempts) <==> out.refusals > old(out.refusals) || err.refusals > old(err.refusals)
  {
    attempts := [];
    var done := ctx.Err();
    if done { return Some(Cancelled), attempts; }
    var noFile: bool := *;
    if noFile { return Some(NoConnectionFile), attempts; }
    error, attempts := RunPhases(ctx, config, collector, out, err);
  }

  method RunPhases(ctx: Context, config: Config, collector: Collector, out: Destination, err: Destination)
    returns (error: Option<RunError>, ghost attempts: seq<Attempt>)
    requires collector.Valid() && collector.Buffer() == START && out != err
    modifies ctx, collector, out, err
    ensures collector.Valid()
    ensures InOrder(config, attempts)
    ensures error.None? ==> |attempts| == |Phases(config)| && attempts[|attempts| - 1].Succeeded()
    ensures error.None? ==> collector.Buffer() == SummaryLines.AddBytes(START, attempts[|attempts| - 1].Out())
    ensures old(out.refusals) <= out.refusals && old(err.refusals) <= err.refusals
    ensures AnyRefused(attempts) <==> out.refusals > old(out.refusals) || err.refusals > old(err.refusals)
  {
    attempts := [];
    var phases := Phases(config);
    for i := 0 to |phases|
      invariant collector.Valid() && InOrder(config, attempts) && |attempts| == i
      invariant i > 0 ==> attempts[i - 1].Succeeded()
      invariant out.refusals == old(out.refusals) && err.refusals == old(err.refusals) && !AnyRefused(attempts)
      invariant i < |phases| ==> collector.Buffer() == START
      invariant i == |phases| ==> collector.Buffer() == SummaryLines.AddBytes(START, attempts[i - 1].Out())
    {
      var done := ctx.Err();
      if done { return Some(Cancelled), attempts; }
      error, attempts := RunNextPhase(ctx, config, phases[i], collector, out, err, attempts);
      if error.Some? { return; }
      SucceededUnrefused(config, attempts[i]);
    }
    var done := ctx.Err();
    error := if done then Some(Cancelled) else None;
  }

  /** The next planned phase, after the given attempts. */
  method RunNextPhase(ctx: Context, config: Config, load: bool, collector: Collector, out: Destination, err: Destination,
                      ghost before: seq<Attempt>) returns (error: Option<RunError>, ghost attempts: seq<Attempt>)
    requires collector.Valid() && collector.Buffer() == START && out != err
    requires InOrder(config, before) && |before| < |Phases(config)| && load == Phases(config)[|before|]
    requires |before| > 0 ==> before[|before| - 1].Succeeded()
    modifies ctx, collector, out, err
    ensures collector.Valid() && InOrder(config, attempts) && |attempts| == |before| + 1
    ensures collector.Buffer() == if load then START else SummaryLines.AddBytes(START, attempts[|before|].Out())
    ensures error.None? ==> attempts[|before|].Succeeded()
    ensures before <= attempts && old(out.refusals) <= out.refusals && old(err.refusals) <= err.refusals
    ensures attempts[|before|].refused <==> out.refusals > old(out.refusals) || err.refusals > old(err.refusals)
  {
    ghost var attempt;
    error, attempt := RunPhaseOnce(ctx, config, load, collector, out, err);
    NextInOrder(config, before, attempt);
    attempts := before + [attempt];
  }

  ghost predicate Judged(config: Config, a: Attempt) {
    forall out, err :: a.Wrote(out, err) ==>
      a.verdict == if a.refused then PhaseObservations.ForwardingFailed
                   else PhaseObservations.VerdictOf(a.load, config.recordCount, out, err)
  }

  predicate AnyRefused(attempts: seq<Attempt>) { exists i :: 0 <= i < |attempts| && attempts[i].refused }

  /** Refused output fails the phase. */
  lemma SucceededUnrefused(config: Config, a: Attempt)
    requires Judged(config, a) && a.Succeeded()
    ensures !a.refused
  {
    assert a.Wrote(a.Out(), a.Err());
  }

  lemma NextInOrder(config: Config, attempts: seq<Attempt>, next: Attempt)
    requires InOrder(config, attempts) && |attempts| < |Phases(config)|
    requires |attempts| > 0 ==> attempts[|attempts| - 1].Succeeded()
    requires next.load == Phases(config)[|attempts|] && Judged(config, next)
    ensures InOrder(config, attempts + [next])
  {
    assert (attempts + [next])[..|attempts|] == attempts;
  }

  method RunPhaseOnce(ctx: Context, config: Config, load: bool, collector: Collector, out: Destination, err: Destination)
    returns (error: Option<RunError>, ghost attempt: Attempt)
    requires collector.Valid() && collector.Buffer() == START && out != err
    modifies ctx, collector, out, err
    ensures collector.Valid()
    ensures collector.Buffer() == if load then START else SummaryLines.AddBytes(START, attempt.Out())
    ensures attempt.load == load && Judged(config, attempt)
    ensures old(out.refusals) <= out.refusals && old(err.refusals) <= err.refusals
    ensures attempt.refused <==> out.refusals > old(out.refusals) || err.refusals > old(err.refusals)
    ensures error.None? ==> attempt.Succeeded()
  {
    var fragments, failed := Invoke();
    var phase, verdict := RunPhase(config.secrets, load, config.recordCount, fragments, out, err);
    if !load { Measure(collector, fragments); }
    attempt := Attempt(load, fragments, failed, out.refusals > old(out.refusals) || err.refusals > old(err.refusals), verdict);
    var done := ctx.Err();
    error := if done then Some(Cancelled)
      else if failed then Some(PhaseExecution(load))
      else if verdict != PhaseObservations.Passed then Some(PhaseOutputRejected(load))
      else None;
  }

  /** The collector sees the measured phase's raw stdout, write by write. */
  method Measure(collector: Collector, fragments: seq<Fragment>)
    requires collector.Valid() && collector.Buffer() == START
    modifies collector
    ensures collector.Valid() && collector.Buffer() == SummaryLines.AddBytes(START, Stream(true, fragments))
  {
    for j := 0 to |fragments|
      invariant collector.Valid() && collector.Buffer() == SummaryLines.AddBytes(START, Stream(true, fragments[..j]))
    {
      assert fragments[..j + 1][..j] == fragments[..j];
      if fragments[j].stdout {
        SummaryLines.AddBytesAppend(START, Stream(true, fragments[..j]), fragments[j].data);
        var _ := collector.Write(fragments[j].data);
      }
    }
    assert fragments[..|fragments|] == fragments;
  }

  /** Writes the collector's result, which may fail. */
  method Publish(collector: Collector, ghost out: string) returns (published: Option<(real, real)>)
    requires collector.Valid() && collector.Buffer() == SummaryLines.AddBytes(START, out)
    modifies collector
    ensures published.Some? ==> Summarizes(collector.number, Items(Rows(AllLines(out))), published)
  {
    DrainedIsWholeStream(out);
    var metrics := collector.Result();
    var written: bool := *;
    return if written then metrics else None;
  }

  ghost predicate AllSucceeded(config: Config, attempts: seq<Attempt>) {
    |attempts| == |Phases(config)| && forall i :: 0 <= i < |attempts| ==> attempts[i].Succeeded()
  }

  lemma LastSucceeded(config: Config, attempts: seq<Attempt>)
    requires Planned(config, attempts) && |attempts| == |Phases(config)| && attempts[|attempts| - 1].Succeeded()
    ensures AllSucceeded(config, attempts)
  {
  }

  /** Metrics are published only after every planned phase passed, and are those of the complete
      measured stdout. */
  method RunWithMetrics(ctx: Context, config: Config, number: Parser, out: Destination, err: Destination)
    returns (error: Option<RunError>, published: Option<(real, real)>, ghost attempts: seq<Attempt>)
    requires out != err
    modifies ctx, out, err
    ensures InOrder(config, attempts)
    ensures AnyRefused(attempts) <==> out.refusals > old(out.refusals) || err.refusals > old(err.refusals)
    ensures published.Some? ==>
              && error.None? && AllSucceeded(config, attempts)
              && Summarizes(number, Items(Rows(AllLines(attempts[|attempts| - 1].Out()))), published)
  {
    published := None;
    var collector := new Collector(number);
    error, attempts := Run(ctx, config, collector, out, err);
    if error.Some? { return; }
    var done := ctx.Err();
    if done { return Some(Cancelled), None, attempts; }
    LastSucceeded(config, attempts);
    published := Publish(collector, attempts[|attempts| - 1].Out());
  }

  /** The measured phase of an initializing run starts only after a confirmed load. */
  lemma MeasuredAfterConfirmedLoad(config: Config, attempts: seq<Attempt>, i: nat)
    requires InOrder(config, attempts) && config.initialize && i < |attempts| && !attempts[i].load
    ensures i == 1 && attempts[0].load && !attempts[0].processFailed
    ensures var said := PhaseObservations.Said(true, AllLines(attempts[0].Out()));
            PhaseObservations.ConfirmsLoad(said, config.recordCount) && PhaseObservations.CleanErrors(said)
    ensures PhaseObservations.CleanErrors(PhaseObservations.Said(false, AllLines(attempts[0].Err())))
    ensures !PhaseObservations.AnyOversized(AllLines(attempts[0].Out())) && !PhaseObservations.AnyOversized(AllLines(attempts[0].Err()))
  {
    JudgedAt(config, attempts, 0);
    assert attempts[0].Wrote(attempts[0].Out(), attempts[0].Err());
    PhaseObservations.LoadAcceptedExactly(config.recordCount, attempts[0].Out(), attempts[0].Err());
  }
}
