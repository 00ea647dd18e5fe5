/** The sysbench summary collector (runners/sysbench/metrics.go). */
module SysbenchMetrics {
  import opened GoText
  import opened Lines
  import opened SummaryLines

  const SQL_SECTION: string := "SQL statistics:"
  const LATENCY_SECTION: string := "Latency (ms):"
  const TRANSACTIONS: string := "transactions:"
  const AVERAGE: string := "avg:"

  /** A section header starts at column zero and ends with a colon. */
  predicate IsHeader(row: Row) {
    row.Text? && row.line != "" && row.line[0] != ' ' && row.line[0] != '\t' && HasSuffix(TrimSpace(row.line), ":")
  }

  /** The section that is open after these rows. */
  function SectionAfter(rows: seq<Row>): string {
    if rows == [] then ""
    else
      var last := rows[|rows| - 1];
      if IsHeader(last) then TrimSpace(last.line) else SectionAfter(rows[..|rows| - 1])
  }

  /** A row with the section it stands in. */
  datatype Item = Item(section: string, row: Row)

  function Items(rows: seq<Row>): seq<Item> {
    if rows == [] then []
    else Items(rows[..|rows| - 1]) + [Item(SectionAfter(rows[..|rows| - 1]), rows[|rows| - 1])]
  }

  function HeaderOf(name: string, item: Item): Option<Option<()>> {
    if IsHeader(item.row) && TrimSpace(item.row.line) == name then Some(Some(())) else None
  }

  /** "37035 (1234.50 per sec.)": a count and a rate. */
  function Rate(number: Parser, text: string): Option<real> {
    var fields := Fields(text);
    if |fields| != 4 || !("(" <= fields[1]) || fields[2] != "per" || fields[3] != "sec.)" then None
    else if ParseUint(fields[0], TWO_64).None? then None
    else SummaryNumber(number, fields[1][1..])
  }

  /** The transaction rate that a line of the SQL section states. */
  function TransactionsOf(number: Parser, item: Item): Option<Option<real>> {
    if item.row.TooLong? || IsHeader(item.row) || item.section != SQL_SECTION
       || !(TRANSACTIONS <= TrimSpace(item.row.line)) then None
    else Some(Rate(number, TrimSpace(item.row.line)[|TRANSACTIONS|..]))
  }

  /** The average that a line of the latency section states. */
  function AverageOf(number: Parser, item: Item): Option<Option<real>> {
    if item.row.TooLong? || IsHeader(item.row) || item.section != LATENCY_SECTION
       || !(AVERAGE <= TrimSpace(item.row.line)) then None
    else Some(SummaryNumber(number, TrimSpace(item.row.line)[|AVERAGE|..]))
  }

  function ReadHeader(name: string): Item -> Option<Option<()>> { item => HeaderOf(name, item) }

  function ReadTransactions(number: Parser): Item -> Option<Option<real>> { item => TransactionsOf(number, item) }

  function ReadAverage(number: Parser): Item -> Option<Option<real>> { item => AverageOf(number, item) }

  /** What the flags of a collector stand for: one slot for each required header and line. */
  datatype Slots = Slots(sql: Slot<()>, latency: Slot<()>, transactions: Slot<real>, average: Slot<real>) {
    predicate Bad() { sql.bad || latency.bad || transactions.bad || average.bad }
  }

  function SlotsOf(number: Parser, items: seq<Item>): Slots {
    Slots(SlotOf(ReadHeader(SQL_SECTION), items), SlotOf(ReadHeader(LATENCY_SECTION), items),
          SlotOf(ReadTransactions(number), items), SlotOf(ReadAverage(number), items))
  }

  function FillAll(number: Parser, s: Slots, item: Item): Slots {
    Slots(Fill(s.sql, HeaderOf(SQL_SECTION, item)), Fill(s.latency, HeaderOf(LATENCY_SECTION, item)),
          Fill(s.transactions, TransactionsOf(number, item)), Fill(s.average, AverageOf(number, item)))
  }

  lemma SlotsAppend(number: Parser, items: seq<Item>, item: Item)
    ensures SlotsOf(number, items + [item]) == FillAll(number, SlotsOf(number, items), item)
  {
  }

  lemma HeaderFills(number: Parser, s: Slots, item: Item)
    requires IsHeader(item.row)
    ensures var name := TrimSpace(item.row.line);
            FillAll(number, s, item) ==
              if name == SQL_SECTION then s.(sql := Slot(true, s.sql.bad || s.sql.have, Some(())))
              else if name == LATENCY_SECTION then s.(latency := Slot(true, s.latency.bad || s.latency.have, Some(())))
              else s
  {
  }

  /** A line of the SQL section can only state the transactions. */
  lemma SQLFills(number: Parser, s: Slots, item: Item)
    requires !IsHeader(item.row) && item.section == SQL_SECTION
    ensures FillAll(number, s, item) == s.(transactions := Fill(s.transactions, TransactionsOf(number, item)))
  {
    DistinctSections();
  }

  /** A line of the latency section can only state the average. */
  lemma LatencyFills(number: Parser, s: Slots, item: Item)
    requires !IsHeader(item.row) && item.section == LATENCY_SECTION
    ensures FillAll(number, s, item) == s.(average := Fill(s.average, AverageOf(number, item)))
  {
    DistinctSections();
  }

  lemma TooLongFills(number: Parser, s: Slots, item: Item)
    requires item.row.TooLong?
    ensures FillAll(number, s, item) == s
  {
  }

  lemma RowAppend(rows: seq<Row>, row: Row)
    ensures Items(rows + [row]) == Items(rows) + [Item(SectionAfter(rows), row)]
    ensures SectionAfter(rows + [row]) == if IsHeader(row) then TrimSpace(row.line) else SectionAfter(rows)
  {
  }

  class Collector {
    const number: Parser
    var line: string
    var discarding: bool
    var invalid: bool
    var section: string
    var seenSQL: bool
    var seenLatency: bool
    var tps: real
    var latency: real
    var haveTPS: bool
    var haveLatency: bool
    ghost var rows: seq<Row>
    ghost var slots: Slots

    ghost function Buffer(): Reader
      reads this
    {
      Reader(line, discarding, rows)
    }

    ghost predicate Valid()
      reads this
    {
      && |line| <= MAX_LINE
      && section == SectionAfter(rows)
      && slots == SlotsOf(number, Items(rows))
      && Agrees()
    }

    /** The flags agree with the slots. */
    ghost predicate Agrees()
      reads this
    {
      && seenSQL == slots.sql.have && seenLatency == slots.latency.have
      && (section == SQL_SECTION ==> seenSQL) && (section == LATENCY_SECTION ==> seenLatency)
      && (haveTPS ==> seenSQL) && (haveLatency ==> seenLatency)
      && invalid == slots.Bad()
      && (!invalid ==> haveTPS == slots.transactions.have && haveLatency == slots.average.have)
      && (!invalid && haveTPS ==> slots.transactions.value == Some(tps))
      && (!invalid && haveLatency ==> slots.average.value == Some(latency))
    }

    constructor (number: Parser)
      ensures Valid() && Buffer() == START && this.number == number
    {
      this.number := number;
      line, discarding, invalid, section := "", false, false, "";
      seenSQL, seenLatency, tps, latency, haveTPS, haveLatency := false, false, 0.0, 0.0, false, false;
      rows := [];
      slots := SlotsOf(number, []);
    }

    method Write(data: string) returns (n: nat)
      requires Valid()
      modifies this
      ensures Valid() && n == |data|
      ensures Buffer() == AddBytes(old(Buffer()), data)
    {
      for i := 0 to |data|
        invariant Valid() && Buffer() == AddBytes(old(Buffer()), data[..i])
      {
        assert data[..i + 1][..i] == data[..i];
        WriteByte(data[i]);
      }
      assert data[..|data|] == data;
      n := |data|;
    }

    method WriteByte(b: char)
      requires Valid()
      modifies this
      ensures Valid() && Buffer() == AddByte(old(Buffer()), b)
    {
      if b == '\n' {
        EndLine();
      } else if !discarding {
        if |line| == MAX_LINE { Overflow(); } else { line := line + [b]; }
      }
    }

    method EndLine()
      requires Valid()
      modifies this
      ensures Valid() && Buffer() == AddByte(old(Buffer()), '\n')
    {
      if !discarding { ParseLine(); }
      line, discarding := "", false;
    }

    method Overflow()
      requires Valid()
      modifies this
      ensures Valid() && Buffer() == Reader("", true, old(rows) + [TooLong])
    {
      line, discarding := "", true;
      RecordTooLong();
    }

    ghost method RecordTooLong()
      requires slots == SlotsOf(number, Items(rows)) && section == SectionAfter(rows)
      modifies `rows, `slots
      ensures rows == old(rows) + [TooLong] && section == SectionAfter(rows)
      ensures slots == old(slots) == SlotsOf(number, Items(rows))
    {
      TooLongFills(number, slots, Item(section, TooLong));
      Record(TooLong);
    }

    ghost method Record(row: Row)
      requires slots == SlotsOf(number, Items(rows))
      modifies `rows, `slots
      ensures rows == old(rows) + [row]
      ensures slots == FillAll(number, old(slots), Item(SectionAfter(old(rows)), row)) == SlotsOf(number, Items(rows))
      ensures SectionAfter(rows) == if IsHeader(row) then TrimSpace(row.line) else SectionAfter(old(rows))
    {
      RowAppend(rows, row);
      SlotsAppend(number, Items(rows), Item(SectionAfter(rows), row));
      rows := rows + [row];
      slots := SlotsOf(number, Items(rows));
    }

    method ParseLine()
      requires Valid()
      modifies this
      ensures Valid() && rows == old(rows) + [Text(line)]
      ensures line == old(line) && discarding == old(discarding)
    {
      if |line| > 0 && line[0] != ' ' && line[0] != '\t' && HasSuffix(TrimSpace(line), ":") {
        ParseHeader();
      } else if section == SQL_SECTION {
        ParseTransactions();
      } else if section == LATENCY_SECTION {
        ParseAverage();
      } else {
        Record(Text(line));
      }
    }

    method ParseHeader()
      requires Valid() && IsHeader(Text(line))
      modifies this
      ensures Valid() && rows == old(rows) + [Text(line)]
      ensures line == old(line) && discarding == old(discarding)
    {
      HeaderFills(number, slots, Item(section, Text(line)));
      Record(Text(line));
      OpenSection(TrimSpace(line));
    }

    method ParseTransactions()
      requires Valid() && !IsHeader(Text(line)) && section == SQL_SECTION
      modifies this
      ensures Valid() && rows == old(rows) + [Text(line)]
      ensures line == old(line) && discarding == old(discarding)
    {
      SQLFills(number, slots, Item(section, Text(line)));
      var trimmed := TrimSpace(line);
      if TRANSACTIONS <= trimmed {
        TakeTransactions(trimmed[|TRANSACTIONS|..]);
      } else {
        SkipLine();
      }
    }

    method ParseAverage()
      requires Valid() && !IsHeader(Text(line)) && section == LATENCY_SECTION
      modifies this
      ensures Valid() && rows == old(rows) + [Text(line)]
      ensures line == old(line) && discarding == old(discarding)
    {
      LatencyFills(number, slots, Item(section, Text(line)));
      var trimmed := TrimSpace(line);
      if AVERAGE <= trimmed {
        TakeAverage(SummaryNumber(number, trimmed[|AVERAGE|..]));
      } else {
        SkipLine();
      }
    }

    ghost method SkipLine()
      requires Valid() && !IsHeader(Text(line)) && FillAll(number, slots, Item(section, Text(line))) == slots
      modifies `rows, `slots
      ensures Valid() && rows == old(rows) + [Text(line)]
    {
      Record(Text(line));
    }

    method OpenSection(name: string)
      modifies `section, `invalid, `seenSQL, `seenLatency
      ensures section == name
      ensures seenSQL == (old(seenSQL) || name == SQL_SECTION)
      ensures seenLatency == (old(seenLatency) || name == LATENCY_SECTION)
      ensures invalid == (old(invalid) || (name == SQL_SECTION && old(seenSQL)) || (name == LATENCY_SECTION && old(seenLatency)))
    {
      DistinctSections();
      section := name;
      if name == SQL_SECTION {
        if seenSQL { invalid := true; }
        seenSQL := true;
      } else if name == LATENCY_SECTION {
        if seenLatency { invalid := true; }
        seenLatency := true;
      }
    }

    method TakeTransactions(text: string)
      requires Valid() && !IsHeader(Text(line)) && section == SQL_SECTION
      requires FillAll(number, slots, Item(section, Text(line))) == slots.(transactions := Fill(slots.transactions, Some(Rate(number, text))))
      modifies `invalid, `haveTPS, `tps, `rows, `slots
      ensures Valid() && rows == old(rows) + [Text(line)]
    {
      Record(Text(line));
      ReadRate(text);
    }

    method ReadRate(text: string)
      modifies `invalid, `haveTPS, `tps
      ensures var rate := Rate(number, text);
              && invalid == (old(invalid) || old(haveTPS) || rate.None?)
              && (rate.Some? ==> haveTPS && tps == rate.value)
    {
      if haveTPS { invalid := true; }
      var fields := Fields(text);
      if |fields| != 4 || !("(" <= fields[1]) || fields[2] != "per" || fields[3] != "sec.)" {
        invalid := true;
        return;
      }
      var value := SummaryNumber(number, fields[1][1..]);
      haveTPS := value.Some?;
      if haveTPS { tps := value.value; }
      if ParseUint(fields[0], TWO_64).None? || !haveTPS { invalid := true; }
    }

    method TakeAverage(value: Option<real>)
      requires Valid() && !IsHeader(Text(line)) && section == LATENCY_SECTION
      requires FillAll(number, slots, Item(section, Text(line))) == slots.(average := Fill(slots.average, Some(value)))
      modifies `invalid, `haveLatency, `latency, `rows, `slots
      ensures Valid() && rows == old(rows) + [Text(line)]
    {
      Record(Text(line));
      if haveLatency { invalid := true; }
      haveLatency := value.Some?;
      if haveLatency { latency := value.value; }
      if !haveLatency { invalid := true; }
    }

    method EndPartialLine()
      requires Valid()
      modifies this
      ensures Valid() && rows == Drained(old(Buffer()))
    {
      if |line| != 0 && !discarding {
        ParseLine();
        line := "";
      }
    }

    /** The metrics, tps and average latency, once stdout has been drained. */
    method Result() returns (metrics: Option<(real, real)>)
      requires Valid()
      modifies this
      ensures Summarizes(number, Items(Drained(old(Buffer()))), metrics)
    {
      EndPartialLine();
      ghost var items := Items(rows);
      AllFourExactly(number, items, tps, latency);
      if invalid || !haveTPS || !haveLatency {
        forall t, l ensures !StatesAll(number, items, t, l) { AllFourExactly(number, items, t, l); }
        return None;
      }
      return Some((tps, latency));
    }
  }

  lemma DistinctSections()
    ensures SQL_SECTION != LATENCY_SECTION
  {
  }

  /** Each required header occurs once, and in its section each required line once, well formed. */
  ghost predicate StatesAll(number: Parser, items: seq<Item>, tps: real, latency: real) {
    && Once(ReadHeader(SQL_SECTION), items, ()) && Once(ReadHeader(LATENCY_SECTION), items, ())
    && Once(ReadTransactions(number), items, tps) && Once(ReadAverage(number), items, latency)
  }

  lemma AllFourExactly(number: Parser, items: seq<Item>, tps: real, latency: real)
    ensures var s := SlotsOf(number, items);
            StatesAll(number, items, tps, latency) <==>
              && !s.Bad() && s.sql.have && s.latency.have && s.transactions.have && s.average.have
              && s.transactions.value == Some(tps) && s.average.value == Some(latency)
  {
    SlotMeaning(ReadHeader(SQL_SECTION), items, ());
    SlotMeaning(ReadHeader(LATENCY_SECTION), items, ());
    SlotMeaning(ReadTransactions(number), items, tps);
    SlotMeaning(ReadAverage(number), items, latency);
    var s := SlotsOf(number, items);
    HeaderValue(SQL_SECTION, items);
    HeaderValue(LATENCY_SECTION, items);
  }

  lemma {:induction false} HeaderValue(name: string, items: seq<Item>)
    ensures var s := SlotOf(ReadHeader(name), items); s.have ==> s.value == Some(())
  {
    if items != [] { HeaderValue(name, items[..|items| - 1]); }
  }

  ghost predicate Summarizes(number: Parser, items: seq<Item>, metrics: Option<(real, real)>) {
    match metrics
    case Some(m) => StatesAll(number, items, m.0, m.1)
    case None => forall t, l :: !StatesAll(number, items, t, l)
  }

  /** For every chunking, the result is that of the whole stdout split into lines. */
  method Collect(number: Parser, chunks: seq<string>) returns (metrics: Option<(real, real)>)
    ensures Summarizes(number, Items(Rows(AllLines(Concat(chunks)))), metrics)
  {
    var collector := new Collector(number);
    for i := 0 to |chunks|
      invariant collector.Valid() && collector.number == number
      invariant collector.Buffer() == AddBytes(START, Concat(chunks[..i]))
    {
      assert chunks[..i + 1][..i] == chunks[..i];
      AddBytesAppend(START, Concat(chunks[..i]), chunks[i]);
      var _ := collector.Write(chunks[i]);
    }
    assert chunks[..|chunks|] == chunks;
    DrainedIsWholeStream(Concat(chunks));
    metrics := collector.Result();
  }
}
