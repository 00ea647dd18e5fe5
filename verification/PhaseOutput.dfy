/** The streaming reader of one go-ycsb phase (runners/go-ycsb/output.go).

    Two logs, stdout and stderr, feed one shared record of observations.  Ghost histories
    hold the bytes each stream has received; the invariants tie every field to them, so
    chunking and interleaving of the writes cannot matter. */
module PhaseOutput {
  import opened GoText
  import opened Sorting
  import opened Lines
  import opened Redaction
  import opened PhaseObservations

  /** An io.Writer that may fail or write less than it was given. */
  class Destination {
    var text: string
    /** How many writes it failed or took only in part. */
    ghost var refusals: nat

    constructor ()
      ensures text == "" && refusals == 0
    {
      text, refusals := "", 0;
    }

    method WriteString(s: string) returns (n: nat, failed: bool)
      modifies this
      ensures n <= |s| && text == old(text) + s[..n]
      ensures refusals == old(refusals) + if failed || n != |s| then 1 else 0
    {
      n :| n <= |s|;
      failed := *;
      text := text + s[..n];
      if failed || n != |s| { refusals := refusals + 1; }
    }
  }

  /** One stream as the reader sees it: its own buffer and banner state, its share of the tally,
      and the text it has forwarded. */
  datatype Lane = Lane(line: string, discarding: bool, properties: bool, oversized: bool, tally: Tally, forwarded: string)

  const EMPTY_LANE := Lane("", false, false, false, Tally(false, false, false, false, 0), "")

  /** The two lanes of a phase. */
  datatype Lanes = Lanes(out: Lane, err: Lane) {
    function At(stdout: bool): Lane { if stdout then out else err }

    function With(stdout: bool, lane: Lane): Lanes { if stdout then this.(out := lane) else this.(err := lane) }
  }

  datatype Settings = Settings(load: bool, stdout: bool, secrets: seq<string>)

  /** The lane of a stream that has received these bytes, from its lines as a whole. */
  function LaneOf(c: Settings, seen: string): Lane {
    var lines, open := CompleteLines(seen), OpenLine(seen);
    Lane(if Oversized(open) then "" else open, Oversized(open), InBanner(lines),
         AnyOversized(lines) || Oversized(open),
         TallyOf(c.load, Said(c.stdout, lines)), Forwarded(c.secrets, ShownLines(lines)))
  }

  function EndLine(c: Settings, lane: Lane): Lane {
    var next := lane.(line := "", discarding := false);
    if lane.discarding then next
    else
      var text := TrimSuffix(lane.line, "\r");
      var trimmed := TrimSpace(text);
      if BannerStart(trimmed) then next.(properties := true)
      else if lane.properties then next.(properties := !BannerEnd(trimmed))
      else next.(tally := Count(c.load, lane.tally, KindOf(c.stdout, trimmed)),
                 forwarded := lane.forwarded + Sanitized(c.secrets, text) + "\n")
  }

  function AddByte(c: Settings, lane: Lane, b: char): Lane {
    if b == '\n' then EndLine(c, lane)
    else if lane.discarding then lane
    else Extended(lane, b)
  }

  function Extended(lane: Lane, b: char): Lane {
    if |lane.line| == MAX_LINE then lane.(line := "", discarding := true, oversized := true)
    else lane.(line := lane.line + [b])
  }

  function AddBytes(c: Settings, lane: Lane, data: string): Lane {
    if data == "" then lane else AddByte(c, AddBytes(c, lane, data[..|data| - 1]), data[|data| - 1])
  }

  // ---- reading byte by byte is reading line by line ----

  lemma EndLineIsOneMoreLine(c: Settings, lines: seq<string>, line: string)
    requires !Oversized(line)
    ensures var all := lines + [line];
            var lane := Lane(line, false, InBanner(lines), AnyOversized(lines),
              TallyOf(c.load, Said(c.stdout, lines)), Forwarded(c.secrets, ShownLines(lines)));
            EndLine(c, lane) == Lane("", false, InBanner(all), AnyOversized(all),
              TallyOf(c.load, Said(c.stdout, all)), Forwarded(c.secrets, ShownLines(all)))
  {
    var all := lines + [line];
    assert all[..|all| - 1] == lines && all[|all| - 1] == line;
    AnyOversizedAppend(lines, line);
    if Shown(lines, line) {
      var shown := ShownLines(all);
      assert shown[..|shown| - 1] == ShownLines(lines);
      var observed := Trimmed(shown);
      assert observed[..|observed| - 1] == Observed(lines);
      var said := Said(c.stdout, all);
      assert said[..|said| - 1] == Said(c.stdout, lines);
    }
  }

  lemma AnyOversizedAppend(lines: seq<string>, line: string)
    ensures AnyOversized(lines + [line]) <==> AnyOversized(lines) || Oversized(line)
  {
    if AnyOversized(lines) {
      var i :| 0 <= i < |lines| && Oversized(lines[i]);
      assert Oversized((lines + [line])[i]);
    }
    if Oversized(line) { assert Oversized((lines + [line])[|lines|]); }
  }

  lemma OversizedLineIsIgnored(c: Settings, lines: seq<string>, line: string)
    requires Oversized(line)
    ensures var all := lines + [line];
            && InBanner(all) == InBanner(lines) && AnyOversized(all)
            && ShownLines(all) == ShownLines(lines)
  {
  }

  lemma ByteAdvancesLane(c: Settings, seen: string, b: char)
    ensures AddByte(c, LaneOf(c, seen), b) == LaneOf(c, seen + [b])
  {
    NextByte(seen, b);
    var lines, open := CompleteLines(seen), OpenLine(seen);
    if b == '\n' {
      if Oversized(open) { OversizedLineIsIgnored(c, lines, open); } else { EndLineIsOneMoreLine(c, lines, open); }
    }
  }

  lemma {:induction false} StreamingIsBatch(c: Settings, seen: string)
    ensures AddBytes(c, EMPTY_LANE, seen) == LaneOf(c, seen)
  {
    if seen != "" {
      var before, b := seen[..|seen| - 1], seen[|seen| - 1];
      assert seen == before + [b];
      StreamingIsBatch(c, before);
      ByteAdvancesLane(c, before, b);
    }
  }

  lemma {:induction false} AddBytesAppend(c: Settings, lane: Lane, first: string, second: string)
    ensures AddBytes(c, lane, first + second) == AddBytes(c, AddBytes(c, lane, first), second)
  {
    if second == "" {
      assert first + second == first;
    } else {
      AddBytesAppend(c, lane, first, second[..|second| - 1]);
      assert (first + second)[..|first + second| - 1] == first + second[..|second| - 1];
    }
  }

  // ---- the reader ----

  predicate LongerFirst(a: string, b: string) { |a| >= |b| }

  lemma NonEmptyKeepsOrder(values: seq<string>)
    requires LongestFirst(values)
    ensures LongestFirst(NonEmpty(values))
    ensures forall v :: v in NonEmpty(values) <==> v in values && v != ""
  {
    if values != [] {
      var front, last := values[..|values| - 1], values[|values| - 1];
      NonEmptyKeepsOrder(front);
      assert values == front + [last];
      forall v | v in front ensures |v| >= |last| {
        var i :| 0 <= i < |front| && front[i] == v;
        assert values[i] == v;
      }
    }
  }

  class Phase {
    const secrets: seq<string>
    const load: bool
    const expected: nat
    var operationFailed: bool
    var invalid: bool
    var finished: bool
    var haveInsert: bool
    var insertCount: nat
    var writeErr: bool
    ghost var lanes: Lanes

    function Flags(): Tally
      reads this
    {
      Tally(operationFailed, invalid, finished, haveInsert, insertCount)
    }

    /** The shared flags are the flags of the two lanes put together. */
    ghost predicate Valid()
      reads this
    {
      Flags() == Combined(lanes)
    }

    function Uses(stdout: bool): Settings { Settings(load, stdout, secrets) }

    constructor (candidates: seq<string>, load: bool, expected: nat)
      ensures Valid() && !writeErr && lanes == Lanes(EMPTY_LANE, EMPTY_LANE)
      ensures this.load == load && this.expected == expected
      ensures Orders(secrets, candidates)
    {
      var sorted := SortBy(LongerFirst, candidates);
      this.secrets := NonEmpty(sorted);
      this.load, this.expected := load, expected;
      operationFailed, invalid, finished, haveInsert, insertCount, writeErr := false, false, false, false, 0, false;
      lanes := Lanes(EMPTY_LANE, EMPTY_LANE);
      SortByCorrect(LongerFirst, candidates);
      SameMultisetSameMembers(sorted, candidates);
      assert forall i, j :: 0 <= i < j < |sorted| ==> LongerFirst(sorted[i], sorted[j]);
      NonEmptyKeepsOrder(sorted);
    }

    /** Looks at one trimmed line of one stream. */
    method Observe(line: string, stdout: bool)
      modifies `operationFailed, `invalid, `finished, `haveInsert, `insertCount
      ensures Flags() == Count(load, old(Flags()), KindOf(stdout, line))
    {
      if stdout && FinishLine(line) {
        if finished { invalid := true; }
        finished := true;
        return;
      }
      var operation := Operation(line);
      if operation.None? { return; }
      var isError := HasSuffix(operation.value, "_ERROR");
      var isLoadInsert := stdout && load && finished && operation.value == "INSERT";
      if isError || isLoadInsert { Record(isError, CountOf(line)); }
    }

    /** The count of an error line, or of the load's INSERT summary. */
    method Record(isError: bool, count: Option<nat>)
      requires isError || (load && finished)
      modifies `operationFailed, `invalid, `haveInsert, `insertCount
      ensures Flags() == Count(load, old(Flags()), if isError then Error(count) else Insert(count))
    {
      if count.None? {
        invalid := true;
      } else if isError {
        if count.value > 0 { operationFailed := true; }
      } else {
        if haveInsert { invalid := true; }
        haveInsert, insertCount := true, count.value;
      }
    }

    /** finish, once both streams are drained: flush partial lines, then decide. */
    method Finish(stdout: Log, stderr: Log) returns (verdict: Verdict)
      requires Valid() && stdout.Valid() && stderr.Valid()
      requires stdout.phase == this == stderr.phase && stdout.stdout && !stderr.stdout
      requires stdout.destination != stderr.destination
      modifies this, stdout, stderr, stdout.destination, stderr.destination
      ensures stdout.Valid() && stderr.Valid()
      ensures lanes == Lanes(Drained(Uses(true), old(lanes.out)), Drained(Uses(false), old(lanes.err)))
      ensures old(stdout.destination.refusals) <= stdout.destination.refusals
      ensures old(stderr.destination.refusals) <= stderr.destination.refusals
      ensures writeErr <==> old(writeErr) || stdout.destination.refusals > old(stdout.destination.refusals)
                            || stderr.destination.refusals > old(stderr.destination.refusals)
      ensures verdict == if writeErr then ForwardingFailed else Decide(load, expected, lanes.out, lanes.err)
    {
      stdout.Drain();
      stderr.Drain();
      if writeErr { return ForwardingFailed; }
      if operationFailed { return OperationsFailed; }
      if invalid { return Unverifiable; }
      if load && (!finished || !haveInsert || insertCount != expected) { return LoadUnconfirmed; }
      return Passed;
    }
  }

  /** Flags that only ever rise are joined; the finish line and the INSERT count are stdout's alone. */
  function Combined(lanes: Lanes): Tally {
    var o, e := lanes.out, lanes.err;
    Tally(o.tally.failed || e.tally.failed,
          o.tally.invalid || e.tally.invalid || o.oversized || e.oversized,
          o.tally.finished, o.tally.haveInsert, o.tally.insertCount)
  }

  /** Observing on the shared flags is observing on the stream's own tally: why the order in which
      the two streams' lines arrive does not matter. */
  lemma ObserveOwnLane(load: bool, stdout: bool, lanes: Lanes, line: string)
    ensures var lane := lanes.At(stdout);
            Combined(lanes.With(stdout, lane.(tally := Count(load, lane.tally, KindOf(stdout, line))))) ==
            Count(load, Combined(lanes), KindOf(stdout, line))
  {
    CountOwnLane(load, stdout, lanes, KindOf(stdout, line));
  }

  lemma CountOwnLane(load: bool, stdout: bool, lanes: Lanes, kind: Kind)
    requires !stdout ==> kind.Error? || kind.Other?
    ensures var lane := lanes.At(stdout);
            Combined(lanes.With(stdout, lane.(tally := Count(load, lane.tally, kind)))) == Count(load, Combined(lanes), kind)
  {
  }

  function Drained(c: Settings, lane: Lane): Lane {
    if |lane.line| > 0 || lane.discarding then EndLine(c, lane) else lane
  }

  function Decide(load: bool, expected: nat, out: Lane, err: Lane): Verdict {
    if out.tally.failed || err.tally.failed then OperationsFailed
    else if out.tally.invalid || err.tally.invalid || out.oversized || err.oversized then Unverifiable
    else if load && !(out.tally.finished && out.tally.haveInsert && out.tally.insertCount == expected) then LoadUnconfirmed
    else Passed
  }

  class Log {
    const phase: Phase
    const destination: Destination
    const stdout: bool
    ghost const before: string
    var line: string
    var properties: bool
    var discarding: bool

    ghost predicate Valid()
      reads this, phase, destination
    {
      var lane := phase.lanes.At(stdout);
      && (line, discarding, properties) == (lane.line, lane.discarding, lane.properties)
      && (!phase.writeErr ==> destination.text == before + lane.forwarded)
    }

    constructor (phase: Phase, destination: Destination, stdout: bool)
      requires phase.lanes.At(stdout) == EMPTY_LANE
      ensures Valid() && this.phase == phase && this.destination == destination && this.stdout == stdout
      ensures before == destination.text
    {
      this.phase, this.destination, this.stdout, this.before := phase, destination, stdout, destination.text;
      line, properties, discarding := "", false, false;
    }

    /** Consumes one fragment of this stream.  The mutex makes each call atomic; calls for the two
        streams may come in any order. */
    method Write(data: string) returns (n: nat)
      requires Valid() && phase.Valid()
      modifies this, phase, destination
      ensures Valid() && phase.Valid()
      ensures n == |data|
      ensures phase.lanes == old(phase.lanes).With(stdout, AddBytes(phase.Uses(stdout), old(phase.lanes.At(stdout)), data))
      ensures old(destination.refusals) <= destination.refusals
      ensures phase.writeErr <==> old(phase.writeErr) || destination.refusals > old(destination.refusals)
    {
      for i := 0 to |data|
        invariant Valid() && phase.Valid()
        invariant phase.lanes == old(phase.lanes).With(stdout, AddBytes(phase.Uses(stdout), old(phase.lanes.At(stdout)), data[..i]))
        invariant old(destination.refusals) <= destination.refusals
        invariant phase.writeErr <==> old(phase.writeErr) || destination.refusals > old(destination.refusals)
      {
        assert data[..i + 1][..i] == data[..i];
        WriteByte(data[i]);
      }
      assert data[..|data|] == data;
      n := |data|;
    }

    method WriteByte(b: char)
      requires Valid() && phase.Valid()
      modifies this, phase, destination
      ensures Valid() && phase.Valid()
      ensures phase.lanes == old(phase.lanes).With(stdout, AddByte(phase.Uses(stdout), old(phase.lanes.At(stdout)), b))
      ensures old(destination.refusals) <= destination.refusals
      ensures phase.writeErr <==> old(phase.writeErr) || destination.refusals > old(destination.refusals)
    {
      if b == '\n' {
        FlushLine();
      } else if !discarding {
        AppendByte(b);
      }
    }

    method AppendByte(b: char)
      requires Valid() && phase.Valid() && !discarding
      modifies `line, `discarding, phase`invalid, phase`lanes
      ensures Valid() && phase.Valid()
      ensures phase.lanes == old(phase.lanes).With(stdout, Extended(old(phase.lanes.At(stdout)), b))
    {
      phase.lanes := phase.lanes.With(stdout, Extended(phase.lanes.At(stdout), b));
      if |line| == MAX_LINE {
        line := "";
        discarding := true;
        phase.invalid := true;
      } else {
        line := line + [b];
      }
    }

    /** Ends a partial last line, if there is one. */
    method Drain()
      requires Valid() && phase.Valid()
      modifies this, phase, destination
      ensures Valid() && phase.Valid()
      ensures phase.lanes == old(phase.lanes).With(stdout, Drained(phase.Uses(stdout), old(phase.lanes.At(stdout))))
      ensures old(destination.refusals) <= destination.refusals
      ensures phase.writeErr <==> old(phase.writeErr) || destination.refusals > old(destination.refusals)
    {
      if |line| > 0 || discarding {
        FlushLine();
      }
    }

    /** Ends the current line. */
    method FlushLine()
      requires Valid() && phase.Valid()
      modifies this, phase, destination
      ensures Valid() && phase.Valid()
      ensures phase.lanes == old(phase.lanes).With(stdout, EndLine(phase.Uses(stdout), old(phase.lanes.At(stdout))))
      ensures old(destination.refusals) <= destination.refusals
      ensures phase.writeErr <==> old(phase.writeErr) || destination.refusals > old(destination.refusals)
    {
      if !discarding {
        var text := TrimSuffix(line, "\r");
        var trimmed := TrimSpace(text);
        if BannerStart(trimmed) {
          properties := true;
        } else if properties {
          if BannerEnd(trimmed) { properties := false; }
        } else {
          ShowLine(text, trimmed);
        }
      }
      line := "";
      discarding := false;
      phase.lanes := phase.lanes.With(stdout, phase.lanes.At(stdout).(line := "", discarding := false, properties := properties));
    }

    /** Inspects and forwards a line of the log proper. */
    method ShowLine(text: string, trimmed: string)
      requires Valid() && phase.Valid()
      modifies phase, destination
      ensures Valid() && phase.Valid()
      ensures phase.lanes == old(phase.lanes).With(stdout, old(phase.lanes.At(stdout)).(
                tally := Count(phase.load, old(phase.lanes.At(stdout).tally), KindOf(stdout, trimmed)),
                forwarded := old(phase.lanes.At(stdout).forwarded) + Sanitized(phase.secrets, text) + "\n"))
      ensures old(destination.refusals) <= destination.refusals
      ensures phase.writeErr <==> old(phase.writeErr) || destination.refusals > old(destination.refusals)
    {
      ghost var lane := phase.lanes.At(stdout);
      ObserveOwnLane(phase.load, stdout, phase.lanes, trimmed);
      phase.Observe(trimmed, stdout);
      phase.lanes := phase.lanes.With(stdout, lane.(tally := Count(phase.load, lane.tally, KindOf(stdout, trimmed))));
      Forward(HideUris(Replace(phase.secrets, text)));
    }

    /** Forwards one sanitized line unless an earlier write failed. */
    method Forward(safe: string)
      requires !phase.writeErr ==> destination.text == before + phase.lanes.At(stdout).forwarded
      modifies phase`writeErr, phase`lanes, destination
      ensures phase.lanes == old(phase.lanes).With(stdout, old(phase.lanes.At(stdout)).(forwarded :=
                old(phase.lanes.At(stdout).forwarded) + safe + "\n"))
      ensures old(destination.refusals) <= destination.refusals
      ensures phase.writeErr <==> old(phase.writeErr) || destination.refusals > old(destination.refusals)
      ensures !phase.writeErr ==> destination.text == before + phase.lanes.At(stdout).forwarded
    {
      var wanted := safe + "\n";
      ghost var sent := phase.lanes.At(stdout).forwarded;
      if !phase.writeErr {
        var n, failed := destination.WriteString(wanted);
        if failed || n != |safe| + 1 {
          phase.writeErr := true;
        } else {
          assert wanted[..n] == wanted;
          assert (before + sent) + wanted == before + (sent + safe + "\n");
        }
      }
      phase.lanes := phase.lanes.With(stdout, phase.lanes.At(stdout).(forwarded := sent + safe + "\n"));
    }
  }

  // ---- any chunking, any interleaving ----

  lemma DrainedIsAllLines(c: Settings, seen: string)
    ensures var lines := AllLines(seen);
            Drained(c, LaneOf(c, seen)) == Lane("", false, InBanner(lines), AnyOversized(lines),
              TallyOf(c.load, Said(c.stdout, lines)), Forwarded(c.secrets, ShownLines(lines)))
  {
    ByteAdvancesLane(c, seen, '\n');
    NextByte(seen, '\n');
  }

  lemma DecisionIsVerdict(load: bool, expected: nat, secrets: seq<string>, out: string, err: string)
    ensures var o, e := Settings(load, true, secrets), Settings(load, false, secrets);
            Decide(load, expected, Drained(o, LaneOf(o, out)), Drained(e, LaneOf(e, err))) ==
            VerdictOf(load, expected, out, err)
  {
    DrainedIsAllLines(Settings(load, true, secrets), out);
    DrainedIsAllLines(Settings(load, false, secrets), err);
    var v, w := Said(true, AllLines(out)), Said(false, AllLines(err));
    TallyMeaning(load, v);
    TallyMeaning(load, w);
    if load && !Contradictory(true, v) { ConfirmationIsCounted(v, expected); }
  }

  /** One Write call: which stream, and the fragment. */
  datatype Fragment = Fragment(stdout: bool, data: string)

  function Stream(stdout: bool, fragments: seq<Fragment>): string {
    if fragments == [] then ""
    else
      var before, last := fragments[..|fragments| - 1], fragments[|fragments| - 1];
      if last.stdout == stdout then Stream(stdout, before) + last.data else Stream(stdout, before)
  }

  /** The non-empty candidates, longest first, in any order of equally long ones. */
  ghost predicate Orders(secrets: seq<string>, candidates: seq<string>) {
    LongestFirst(secrets) && forall v :: v in secrets <==> v in candidates && v != ""
  }

  /** What a phase must deliver for two complete streams, however its secrets are ordered. */
  ghost predicate Delivers(candidates: seq<string>, load: bool, expected: nat, verdict: Verdict,
                           out: string, err: string, outText: string, errText: string) {
    && verdict == VerdictOf(load, expected, out, err)
    && forall secrets :: Orders(secrets, candidates) ==>
         outText == Forwarded(secrets, ShownLines(AllLines(out))) && errText == Forwarded(secrets, ShownLines(AllLines(err)))
  }

  /** The forwarded text depends on the set of secrets only. */
  lemma {:induction false} ForwardedDependsOnlyOnSecrets(secrets: seq<string>, others: seq<string>, candidates: seq<string>, shown: seq<string>)
    requires Orders(secrets, candidates) && Orders(others, candidates)
    ensures Forwarded(secrets, shown) == Forwarded(others, shown)
  {
    if shown != [] {
      ForwardedDependsOnlyOnSecrets(secrets, others, candidates, shown[..|shown| - 1]);
      ReplaceDependsOnlyOnSecrets(secrets, others, shown[|shown| - 1]);
    }
  }

  lemma PhaseDelivers(candidates: seq<string>, phase: Phase, out: string, err: string)
    requires Orders(phase.secrets, candidates)
    ensures var o, e := Drained(phase.Uses(true), AddBytes(phase.Uses(true), EMPTY_LANE, out)),
                        Drained(phase.Uses(false), AddBytes(phase.Uses(false), EMPTY_LANE, err));
            Delivers(candidates, phase.load, phase.expected, Decide(phase.load, phase.expected, o, e), out, err, o.forwarded, e.forwarded)
  {
    StreamingIsBatch(phase.Uses(true), out);
    StreamingIsBatch(phase.Uses(false), err);
    DecisionIsVerdict(phase.load, phase.expected, phase.secrets, out, err);
    DrainedIsAllLines(phase.Uses(true), out);
    DrainedIsAllLines(phase.Uses(false), err);
    forall secrets | Orders(secrets, candidates)
      ensures Forwarded(phase.secrets, ShownLines(AllLines(out))) == Forwarded(secrets, ShownLines(AllLines(out)))
      ensures Forwarded(phase.secrets, ShownLines(AllLines(err))) == Forwarded(secrets, ShownLines(AllLines(err)))
    {
      ForwardedDependsOnlyOnSecrets(phase.secrets, secrets, candidates, ShownLines(AllLines(out)));
      ForwardedDependsOnlyOnSecrets(phase.secrets, secrets, candidates, ShownLines(AllLines(err)));
    }
  }

  /** The child's writes, in the order in which they arrive. */
  method WriteAll(phase: Phase, stdout: Log, stderr: Log, fragments: seq<Fragment>)
    requires phase.Valid() && stdout.Valid() && stderr.Valid() && phase.lanes == Lanes(EMPTY_LANE, EMPTY_LANE)
    requires stdout.phase == phase == stderr.phase && stdout.stdout && !stderr.stdout
    requires stdout.destination != stderr.destination
    modifies phase, stdout, stderr, stdout.destination, stderr.destination
    ensures phase.Valid() && stdout.Valid() && stderr.Valid()
    ensures phase.lanes == Lanes(AddBytes(phase.Uses(true), EMPTY_LANE, Stream(true, fragments)),
                                 AddBytes(phase.Uses(false), EMPTY_LANE, Stream(false, fragments)))
    ensures old(stdout.destination.refusals) <= stdout.destination.refusals
    ensures old(stderr.destination.refusals) <= stderr.destination.refusals
    ensures phase.writeErr <==> old(phase.writeErr) || stdout.destination.refusals > old(stdout.destination.refusals)
                                || stderr.destination.refusals > old(stderr.destination.refusals)
  {
    for i := 0 to |fragments|
      invariant phase.Valid() && stdout.Valid() && stderr.Valid()
      invariant phase.lanes == Lanes(AddBytes(phase.Uses(true), EMPTY_LANE, Stream(true, fragments[..i])),
                                     AddBytes(phase.Uses(false), EMPTY_LANE, Stream(false, fragments[..i])))
      invariant old(stdout.destination.refusals) <= stdout.destination.refusals
      invariant old(stderr.destination.refusals) <= stderr.destination.refusals
      invariant phase.writeErr <==> old(phase.writeErr) || stdout.destination.refusals > old(stdout.destination.refusals)
                                    || stderr.destination.refusals > old(stderr.destination.refusals)
    {
      assert fragments[..i + 1][..i] == fragments[..i];
      AddBytesAppend(phase.Uses(fragments[i].stdout), EMPTY_LANE, Stream(fragments[i].stdout, fragments[..i]), fragments[i].data);
      if fragments[i].stdout {
        var _ := stdout.Write(fragments[i].data);
      } else {
        var _ := stderr.Write(fragments[i].data);
      }
    }
    assert fragments[..|fragments|] == fragments;
  }

  /** A whole phase: every interleaving of fragments gives the verdict and the forwarded texts of
      the two complete streams, unless a destination refused a write. */
  method RunPhase(candidates: seq<string>, load: bool, expected: nat, fragments: seq<Fragment>,
                  out: Destination, err: Destination) returns (phase: Phase, verdict: Verdict)
    requires out != err
    modifies out, err
    ensures fresh(phase) && phase.load == load && phase.expected == expected && Orders(phase.secrets, candidates)
    ensures old(out.refusals) <= out.refusals && old(err.refusals) <= err.refusals
    ensures verdict == ForwardingFailed <==> out.refusals > old(out.refusals) || err.refusals > old(err.refusals)
    ensures verdict != ForwardingFailed ==>
              exists outText, errText ::
                && out.text == old(out.text) + outText && err.text == old(err.text) + errText
                && Delivers(candidates, load, expected, verdict, Stream(true, fragments), Stream(false, fragments), outText, errText)
  {
    phase := new Phase(candidates, load, expected);
    var stdout := new Log(phase, out, true);
    var stderr := new Log(phase, err, false);
    WriteAll(phase, stdout, stderr, fragments);
    PhaseDelivers(candidates, phase, Stream(true, fragments), Stream(false, fragments));
    verdict := phase.Finish(stdout, stderr);
    assert !phase.writeErr ==>
      Delivers(candidates, load, expected, verdict, Stream(true, fragments), Stream(false, fragments),
               phase.lanes.out.forwarded, phase.lanes.err.forwarded);
  }
}
