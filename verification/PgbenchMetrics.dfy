/** The pgbench summary collector (runners/pgbench/metrics.go). */
module PgbenchMetrics {
  import opened GoText
  import opened Lines
  import opened SummaryLines

  const TPS: string := "tps = "
  const TPS_END: string := " (without initial connection time)"
  const LATENCY: string := "latency average = "
  const LATENCY_NOTE: string := " (including failures)"
  const LATENCY_END: string := " ms"

  /** The transaction rate that a line states: "tps = <number> (without initial connection time)". */
  function TpsOf(number: Parser, row: Row): Option<Option<real>> {
    if row.TooLong? || !(TPS <= TrimSpace(row.line)) then None
    else
      var text := TrimSpace(row.line)[|TPS|..];
      Some(if HasSuffix(text, TPS_END) then SummaryNumber(number, TrimSuffix(text, TPS_END)) else None)
  }

  /** The latency that a line states: "latency average = <number> ms", perhaps with a note after it. */
  function LatencyOf(number: Parser, row: Row): Option<Option<real>> {
    if row.TooLong? || TPS <= TrimSpace(row.line) || !(LATENCY <= TrimSpace(row.line)) then None
    else
      var text := TrimSuffix(TrimSpace(row.line)[|LATENCY|..], LATENCY_NOTE);
      Some(if HasSuffix(text, LATENCY_END) then SummaryNumber(number, TrimSuffix(text, LATENCY_END)) else None)
  }

  function ReadTps(number: Parser): Row -> Option<Option<real>> { row => TpsOf(number, row) }

  function ReadLatency(number: Parser): Row -> Option<Option<real>> { row => LatencyOf(number, row) }

  class Collector {
    const number: Parser
    var line: string
    var discarding: bool
    var invalid: bool
    var tps: real
    var latency: real
    var haveTPS: bool
    var haveLatency: bool
    ghost var rows: seq<Row>

    ghost function Buffer(): Reader
      reads this
    {
      Reader(line, discarding, rows)
    }

    ghost predicate Valid()
      reads this
    {
      var t, l := SlotOf(ReadTps(number), rows), SlotOf(ReadLatency(number), rows);
      && |line| <= MAX_LINE
      && invalid == (t.bad || l.bad)
      && (!invalid ==> haveTPS == t.have && haveLatency == l.have)
      && (!invalid && haveTPS ==> t.value == Some(tps))
      && (!invalid && haveLatency ==> l.value == Some(latency))
    }

    constructor (number: Parser)
      ensures Valid() && Buffer() == START && this.number == number
    {
      this.number := number;
      line, discarding, invalid, tps, latency, haveTPS, haveLatency := "", false, false, 0.0, 0.0, false, false;
      rows := [];
    }

    method Write(data: string) returns (n: nat)
      requires Valid()
      modifies this
      ensures Valid() && n == |data|
      ensures Buffer() == AddBytes(old(Buffer()), data)
    {
      for i := 0 to |data|
        invariant Valid() && Buffer() == AddBytes(old(Buffer()), data[..i])
      {
        assert data[..i + 1][..i] == data[..i];
        WriteByte(data[i]);
      }
      assert data[..|data|] == data;
      n := |data|;
    }

    method WriteByte(b: char)
      requires Valid()
      modifies this
      ensures Valid() && Buffer() == AddByte(old(Buffer()), b)
    {
      if b == '\n' {
        if !discarding { ParseLine(); }
        line := "";
        discarding := false;
      } else if !discarding {
        if |line| == MAX_LINE {
          line := "";
          discarding := true;
          SlotAppend(ReadTps(number), rows, TooLong);
          SlotAppend(ReadLatency(number), rows, TooLong);
          rows := rows + [TooLong];
        } else {
          line := line + [b];
        }
      }
    }

    method ParseLine()
      requires Valid()
      modifies this
      ensures Valid() && rows == old(rows) + [Text(line)]
      ensures line == old(line) && discarding == old(discarding)
    {
      var trimmed := TrimSpace(line);
      if TPS <= trimmed {
        var text := trimmed[|TPS|..];
        TakeTPS(SummaryNumber(number, TrimSuffix(text, TPS_END)), HasSuffix(text, TPS_END));
      } else if LATENCY <= trimmed {
        var text := TrimSuffix(trimmed[|LATENCY|..], LATENCY_NOTE);
        TakeLatency(SummaryNumber(number, TrimSuffix(text, LATENCY_END)), HasSuffix(text, LATENCY_END));
      } else {
        SkipLine();
      }
    }

    ghost method SkipLine()
      requires Valid() && TpsOf(number, Text(line)).None? && LatencyOf(number, Text(line)).None?
      modifies `rows
      ensures Valid() && rows == old(rows) + [Text(line)]
    {
      SlotAppend(ReadTps(number), rows, Text(line));
      SlotAppend(ReadLatency(number), rows, Text(line));
      rows := rows + [Text(line)];
    }

    method TakeTPS(value: Option<real>, suffixOK: bool)
      requires Valid() && TpsOf(number, Text(line)) == Some(if suffixOK then value else None) && LatencyOf(number, Text(line)).None?
      modifies `invalid, `haveTPS, `tps, `rows
      ensures Valid() && rows == old(rows) + [Text(line)]
    {
      SlotAppend(ReadTps(number), rows, Text(line));
      SlotAppend(ReadLatency(number), rows, Text(line));
      rows := rows + [Text(line)];
      if haveTPS { invalid := true; }
      haveTPS := value.Some?;
      if haveTPS { tps := value.value; }
      if !suffixOK || !haveTPS { invalid := true; }
    }

    method TakeLatency(value: Option<real>, suffixOK: bool)
      requires Valid() && LatencyOf(number, Text(line)) == Some(if suffixOK then value else None) && TpsOf(number, Text(line)).None?
      modifies `invalid, `haveLatency, `latency, `rows
      ensures Valid() && rows == old(rows) + [Text(line)]
    {
      SlotAppend(ReadTps(number), rows, Text(line));
      SlotAppend(ReadLatency(number), rows, Text(line));
      rows := rows + [Text(line)];
      if haveLatency { invalid := true; }
      haveLatency := value.Some?;
      if haveLatency { latency := value.value; }
      if !suffixOK || !haveLatency { invalid := true; }
    }

    method EndPartialLine()
      requires Valid()
      modifies this
      ensures Valid() && rows == Drained(old(Buffer()))
    {
      if |line| != 0 && !discarding {
        ParseLine();
        line := "";
      }
    }

    /** The metrics, tps and average latency, once stdout has been drained. */
    method Result() returns (metrics: Option<(real, real)>)
      requires Valid()
      modifies this
      ensures Summarizes(number, Drained(old(Buffer())), metrics)
    {
      EndPartialLine();
      SlotMeaning(ReadTps(number), rows, tps);
      SlotMeaning(ReadLatency(number), rows, latency);
      if invalid || !haveTPS || !haveLatency {
        forall t, l ensures !(Once(ReadTps(number), rows, t) && Once(ReadLatency(number), rows, l)) {
          SlotMeaning(ReadTps(number), rows, t);
          SlotMeaning(ReadLatency(number), rows, l);
        }
        return None;
      }
      return Some((tps, latency));
    }
  }

  /** Metrics are available exactly when each of the two readings occurs once, well formed, and are
      then the values of those two readings. */
  ghost predicate Summarizes(number: Parser, rows: seq<Row>, metrics: Option<(real, real)>) {
    match metrics
    case Some(m) => Once(ReadTps(number), rows, m.0) && Once(ReadLatency(number), rows, m.1)
    case None => forall t, l :: !(Once(ReadTps(number), rows, t) && Once(ReadLatency(number), rows, l))
  }

  /** For every chunking, the result is that of the whole stdout split into lines. */
  method Collect(number: Parser, chunks: seq<string>) returns (metrics: Option<(real, real)>)
    ensures Summarizes(number, Rows(AllLines(Concat(chunks))), metrics)
  {
    var collector := new Collector(number);
    for i := 0 to |chunks|
      invariant collector.Valid() && collector.number == number
      invariant collector.Buffer() == AddBytes(START, Concat(chunks[..i]))
    {
      assert chunks[..i + 1][..i] == chunks[..i];
      AddBytesAppend(START, Concat(chunks[..i]), chunks[i]);
      var _ := collector.Write(chunks[i]);
    }
    assert chunks[..|chunks|] == chunks;
    DrainedIsWholeStream(Concat(chunks));
    metrics := collector.Result();
  }
}
