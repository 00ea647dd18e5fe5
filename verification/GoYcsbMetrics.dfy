/** The go-ycsb summary collector (runners/go-ycsb/metrics.go). */
module GoYcsbMetrics {
  import opened GoText
  import opened Lines
  import opened SummaryLines

  const FINISHED: string := "Run finished, takes "

  const OPS: string := "OPS"
  const AVERAGE: string := "Avg(us)"

  predicate IsFinish(row: Row) { row.Text? && FINISHED <= TrimSpace(row.line) }

  predicate FinishedAfter(rows: seq<Row>) {
    rows != [] && (IsFinish(rows[|rows| - 1]) || FinishedAfter(rows[..|rows| - 1]))
  }

  /** A row, and whether a finish line came before it. */
  datatype Item = Item(finished: bool, row: Row)

  function Items(rows: seq<Row>): seq<Item> {
    if rows == [] then []
    else Items(rows[..|rows| - 1]) + [Item(FinishedAfter(rows[..|rows| - 1]), rows[|rows| - 1])]
  }

  function FinishOf(item: Item): Option<Option<()>> {
    if IsFinish(item.row) then Some(Some(())) else None
  }

  /** The final TOTAL row: operations per second and average latency in microseconds. */
  function TotalOf(number: Parser, item: Item): Option<Option<(real, real)>> {
    if !item.finished || item.row.TooLong? || IsFinish(item.row) then None
    else
      var line := TrimSpace(item.row.line);
      var n := IndexOf(line, '-');
      if n == |line| || TrimSpace(line[..n]) != "TOTAL" then None
      else Some(TotalFields(number, SplitOn(line[n + 1..], ',')))
  }

  /** A row after the finish line that was too long to read may hide anything. */
  function PoisonOf(item: Item): Option<Option<()>> {
    if item.finished && item.row.TooLong? then Some(None) else None
  }

  /** "key: value": the value, if the key is the one wanted. */
  function FieldOf(number: Parser, key: string, field: string): Option<Option<real>> {
    var n := IndexOf(field, ':');
    if n == |field| || TrimSpace(field[..n]) != key then None else Some(SummaryNumber(number, field[n + 1..]))
  }

  function ReadField(number: Parser, key: string): string -> Option<Option<real>> { field => FieldOf(number, key, field) }

  predicate Keyed(field: string) { IndexOf(field, ':') < |field| }

  /** What the fields of a TOTAL row say: whether all are keyed, and the rate and the average. */
  datatype Fields = Fields(keyed: bool, ops: Slot<real>, average: Slot<real>) {
    predicate Bad() { !keyed || ops.bad || average.bad }
  }

  function FillFields(number: Parser, t: Fields, field: string): Fields {
    Fields(t.keyed && Keyed(field), Fill(t.ops, FieldOf(number, OPS, field)), Fill(t.average, FieldOf(number, AVERAGE, field)))
  }

  function FieldsOf(number: Parser, fields: seq<string>): Fields {
    if fields == [] then Fields(true, Slot(false, false, None), Slot(false, false, None))
    else FillFields(number, FieldsOf(number, fields[..|fields| - 1]), fields[|fields| - 1])
  }

  /** Well formed: every field is keyed, and there is one rate and one average. */
  function TotalFields(number: Parser, fields: seq<string>): Option<(real, real)> {
    var t := FieldsOf(number, fields);
    if !t.Bad() && t.ops.have && t.ops.value.Some? && t.average.have && t.average.value.Some?
    then Some((t.ops.value.value, t.average.value.value)) else None
  }

  lemma {:induction false} FieldsAreSlots(number: Parser, fields: seq<string>)
    ensures var t := FieldsOf(number, fields);
            && t.ops == SlotOf(ReadField(number, OPS), fields)
            && t.average == SlotOf(ReadField(number, AVERAGE), fields)
            && (t.keyed <==> forall i :: 0 <= i < |fields| ==> Keyed(fields[i]))
  {
    if fields != [] { FieldsAreSlots(number, fields[..|fields| - 1]); }
  }

  lemma TotalFieldsMeaning(number: Parser, fields: seq<string>, ops: real, average: real)
    ensures TotalFields(number, fields) == Some((ops, average)) <==>
              && (forall i :: 0 <= i < |fields| ==> Keyed(fields[i]))
              && Once(ReadField(number, OPS), fields, ops) && Once(ReadField(number, AVERAGE), fields, average)
  {
    FieldsAreSlots(number, fields);
    SlotMeaning(ReadField(number, OPS), fields, ops);
    SlotMeaning(ReadField(number, AVERAGE), fields, average);
  }

  function ReadFinish(): Item -> Option<Option<()>> { item => FinishOf(item) }

  function ReadTotal(number: Parser): Item -> Option<Option<(real, real)>> { item => TotalOf(number, item) }

  function ReadPoison(): Item -> Option<Option<()>> { item => PoisonOf(item) }

  datatype Slots = Slots(finish: Slot<()>, total: Slot<(real, real)>, poison: Slot<()>) {
    predicate Bad() { finish.bad || total.bad || poison.have }
  }

  function SlotsOf(number: Parser, items: seq<Item>): Slots {
    Slots(SlotOf(ReadFinish(), items), SlotOf(ReadTotal(number), items), SlotOf(ReadPoison(), items))
  }

  function FillAll(number: Parser, s: Slots, item: Item): Slots {
    Slots(Fill(s.finish, FinishOf(item)), Fill(s.total, TotalOf(number, item)), Fill(s.poison, PoisonOf(item)))
  }

  lemma SlotsAppend(number: Parser, items: seq<Item>, item: Item)
    ensures SlotsOf(number, items + [item]) == FillAll(number, SlotsOf(number, items), item)
  {
  }

  lemma RowAppend(rows: seq<Row>, row: Row)
    ensures Items(rows + [row]) == Items(rows) + [Item(FinishedAfter(rows), row)]
    ensures FinishedAfter(rows + [row]) <==> FinishedAfter(rows) || IsFinish(row)
  {
  }

  lemma FinishFills(number: Parser, s: Slots, item: Item)
    requires IsFinish(item.row)
    ensures FillAll(number, s, item) == s.(finish := Slot(true, s.finish.bad || s.finish.have, Some(())))
  {
  }

  lemma TotalFills(number: Parser, s: Slots, item: Item, total: Option<(real, real)>)
    requires TotalOf(number, item) == Some(total)
    ensures FillAll(number, s, item) == s.(total := Slot(true, s.total.bad || s.total.have || total.None?, total))
  {
  }

  lemma OtherFills(number: Parser, s: Slots, item: Item)
    requires item.row.Text? && !IsFinish(item.row) && TotalOf(number, item).None?
    ensures FillAll(number, s, item) == s
  {
  }

  lemma TooLongFills(number: Parser, s: Slots, item: Item)
    requires item.row.TooLong?
    ensures FillAll(number, s, item) == if item.finished then s.(poison := Slot(true, true, None)) else s
  {
  }

  class Collector {
    const number: Parser
    var line: string
    var discarding: bool
    var invalid: bool
    var finished: bool
    var haveTotal: bool
    var ops: real
    var latency: real
    ghost var rows: seq<Row>
    ghost var slots: Slots

    ghost function Buffer(): Reader
      reads this
    {
      Reader(line, discarding, rows)
    }

    ghost predicate Valid()
      reads this
    {
      && |line| <= MAX_LINE
      && finished == FinishedAfter(rows)
      && slots == SlotsOf(number, Items(rows))
      && AgreesWith(slots)
    }

    /** The flags agree with the slots. */
    ghost predicate AgreesWith(slots: Slots)
      reads this
    {
      && (invalid, finished, haveTotal) == (slots.Bad(), slots.finish.have, slots.total.have)
      && (haveTotal ==> finished)
      && (!invalid && haveTotal ==> slots.total.value == Some((ops, latency)))
    }

    constructor (number: Parser)
      ensures Valid() && Buffer() == START && this.number == number
    {
      this.number := number;
      line, discarding, invalid, finished, haveTotal, ops, latency := "", false, false, false, false, 0.0, 0.0;
      rows := [];
      slots := SlotsOf(number, []);
    }

    method Write(data: string) returns (n: nat)
      requires Valid()
      modifies this
      ensures Valid() && n == |data|
      ensures Buffer() == AddBytes(old(Buffer()), data)
    {
      for i := 0 to |data|
        invariant Valid() && Buffer() == AddBytes(old(Buffer()), data[..i])
      {
        assert data[..i + 1][..i] == data[..i];
        WriteByte(data[i]);
      }
      assert data[..|data|] == data;
      n := |data|;
    }

    method WriteByte(b: char)
      requires Valid()
      modifies this
      ensures Valid() && Buffer() == AddByte(old(Buffer()), b)
    {
      if b == '\n' {
        EndLine();
      } else if !discarding {
        if |line| == MAX_LINE { Overflow(); } else { line := line + [b]; }
      }
    }

    method EndLine()
      requires Valid()
      modifies this
      ensures Valid() && Buffer() == AddByte(old(Buffer()), '\n')
    {
      if !discarding { ParseLine(); }
      line, discarding := "", false;
    }

    method Overflow()
      requires Valid()
      modifies this
      ensures Valid() && Buffer() == Reader("", true, old(rows) + [TooLong])
    {
      line := "";
      discarding := true;
      RecordTooLong();
      // The marker was read: what this line stated of the results is lost.
      if finished { invalid := true; }
    }

    ghost method RecordTooLong()
      requires slots == SlotsOf(number, Items(rows)) && finished == FinishedAfter(rows)
      modifies `rows, `slots
      ensures rows == old(rows) + [TooLong] && finished == FinishedAfter(rows) && slots == SlotsOf(number, Items(rows))
      ensures slots == if finished then old(slots).(poison := Slot(true, true, None)) else old(slots)
    {
      TooLongFills(number, slots, Item(finished, TooLong));
      Record(TooLong);
    }

    ghost method Record(row: Row)
      requires slots == SlotsOf(number, Items(rows))
      modifies `rows, `slots
      ensures rows == old(rows) + [row]
      ensures slots == FillAll(number, old(slots), Item(FinishedAfter(old(rows)), row)) == SlotsOf(number, Items(rows))
      ensures FinishedAfter(rows) <==> FinishedAfter(old(rows)) || IsFinish(row)
    {
      RowAppend(rows, row);
      SlotsAppend(number, Items(rows), Item(FinishedAfter(rows), row));
      rows := rows + [row];
      slots := SlotsOf(number, Items(rows));
    }

    method ParseLine()
      requires Valid()
      modifies this
      ensures Valid() && rows == old(rows) + [Text(line)]
      ensures line == old(line) && discarding == old(discarding)
    {
      var trimmed := TrimSpace(line);
      var n := IndexOf(trimmed, '-');
      if FINISHED <= trimmed {
        ParseFinish();
      } else if !finished || n == |trimmed| || TrimSpace(trimmed[..n]) != "TOTAL" {
        SkipLine();
      } else {
        ghost var before := slots;
        var fields := SplitOn(trimmed[n + 1..], ',');
        ghost var total := TotalFields(number, fields);
        RecordTotal(total);
        ParseTotal(fields, before, total);
      }
    }

    ghost method SkipLine()
      requires Valid() && !IsFinish(Text(line)) && TotalOf(number, Item(finished, Text(line))).None?
      modifies `rows, `slots
      ensures Valid() && rows == old(rows) + [Text(line)]
    {
      OtherFills(number, slots, Item(finished, Text(line)));
      Record(Text(line));
    }

    method ParseFinish()
      requires Valid() && IsFinish(Text(line))
      modifies this
      ensures Valid() && rows == old(rows) + [Text(line)]
      ensures line == old(line) && discarding == old(discarding)
    {
      FinishFills(number, slots, Item(finished, Text(line)));
      Record(Text(line));
      if finished { invalid := true; }
      finished := true;
    }

    ghost method RecordTotal(total: Option<(real, real)>)
      requires Valid() && TotalOf(number, Item(finished, Text(line))) == Some(total)
      modifies `rows, `slots
      ensures rows == old(rows) + [Text(line)] && finished == FinishedAfter(rows)
      ensures slots == old(slots).(total := Slot(true, old(slots.total.bad) || old(slots.total.have) || total.None?, total))
      ensures slots == SlotsOf(number, Items(rows))
    {
      TotalFills(number, slots, Item(finished, Text(line)), total);
      Record(Text(line));
    }

    /** Reads the fields of a TOTAL row; the slots already account for it. */
    method ParseTotal(fields: seq<string>, ghost before: Slots, ghost total: Option<(real, real)>)
      requires total == TotalFields(number, fields)
      requires finished && AgreesWith(before)
      requires slots == before.(total := Slot(true, before.total.bad || before.total.have || total.None?, total))
      modifies `invalid, `haveTotal, `ops, `latency
      ensures AgreesWith(slots)
    {
      if haveTotal {
        invalid := true;
      } else {
        haveTotal := true;
        TakeFields(fields, total);
      }
    }

    method TakeFields(fields: seq<string>, ghost total: Option<(real, real)>)
      requires total == TotalFields(number, fields)
      modifies `invalid, `ops, `latency
      ensures invalid == (old(invalid) || total.None?)
      ensures total.Some? ==> total.value == (ops, latency)
    {
      var haveOPS, haveLatency := false, false;
      ghost var t := Fields(true, Slot(false, false, None), Slot(false, false, None));
      for i := 0 to |fields|
        invariant t == FieldsOf(number, fields[..i])
        invariant haveOPS == t.ops.have && haveLatency == t.average.have
        invariant invalid == (old(invalid) || t.Bad())
        invariant !t.Bad() && haveOPS ==> t.ops.value == Some(ops)
        invariant !t.Bad() && haveLatency ==> t.average.value == Some(latency)
      {
        assert fields[..i + 1][..i] == fields[..i];
        ghost var was := t;
        t := FillFields(number, t, fields[i]);
        haveOPS, haveLatency := TakeField(fields[i], haveOPS, haveLatency, was);
      }
      assert fields[..|fields|] == fields;
      if !haveOPS || !haveLatency { invalid := true; }
    }

    method TakeField(field: string, hadOPS: bool, hadLatency: bool, ghost was: Fields) returns (haveOPS: bool, haveLatency: bool)
      requires hadOPS == was.ops.have && hadLatency == was.average.have && (was.Bad() ==> invalid)
      requires !was.Bad() && hadOPS ==> was.ops.value == Some(ops)
      requires !was.Bad() && hadLatency ==> was.average.value == Some(latency)
      modifies `invalid, `ops, `latency
      ensures var t := FillFields(number, was, field);
              && haveOPS == t.ops.have && haveLatency == t.average.have
              && invalid == (old(invalid) || t.Bad())
              && (!t.Bad() && haveOPS ==> t.ops.value == Some(ops))
              && (!t.Bad() && haveLatency ==> t.average.value == Some(latency))
    {
      var n := IndexOf(field, ':');
      DistinctKeys();
      if n == |field| {
        invalid := true;
        return hadOPS, hadLatency;
      }
      var key := TrimSpace(field[..n]);
      haveOPS, haveLatency := TakeValue(key == OPS, key == AVERAGE, SummaryNumber(number, field[n + 1..]), hadOPS, hadLatency,
                                        was, FillFields(number, was, field));
    }

    /** A keyed value: of the rate, of the average, or of neither. */
    method TakeValue(isOPS: bool, isAverage: bool, value: Option<real>, hadOPS: bool, hadLatency: bool, ghost was: Fields, ghost t: Fields)
      returns (haveOPS: bool, haveLatency: bool)
      requires hadOPS == was.ops.have && hadLatency == was.average.have && (was.Bad() ==> invalid) && !(isOPS && isAverage)
      requires !was.Bad() && hadOPS ==> was.ops.value == Some(ops)
      requires !was.Bad() && hadLatency ==> was.average.value == Some(latency)
      requires t == Fields(was.keyed, Fill(was.ops, if isOPS then Some(value) else None),
                           Fill(was.average, if isAverage then Some(value) else None))
      modifies `invalid, `ops, `latency
      ensures haveOPS == t.ops.have && haveLatency == t.average.have
      ensures invalid == (old(invalid) || t.Bad())
      ensures !t.Bad() && haveOPS ==> t.ops.value == Some(ops)
      ensures !t.Bad() && haveLatency ==> t.average.value == Some(latency)
    {
      haveOPS, haveLatency := hadOPS, hadLatency;
      if isOPS {
        if haveOPS || value.None? { invalid := true; }
        haveOPS := true;
        if value.Some? { ops := value.value; }
      } else if isAverage {
        if haveLatency || value.None? { invalid := true; }
        haveLatency := true;
        if value.Some? { latency := value.value; }
      }
    }

    method EndPartialLine()
      requires Valid()
      modifies this
      ensures Valid() && rows == Drained(old(Buffer()))
    {
      if |line| != 0 && !discarding {
        ParseLine();
        line := "";
      }
    }

    /** The metrics, operations per second and latency in milliseconds, once stdout has been drained. */
    method Result() returns (metrics: Option<(real, real)>)
      requires Valid()
      modifies this
      ensures Summarizes(number, Items(Drained(old(Buffer()))), metrics)
    {
      EndPartialLine();
      ghost var items := Items(rows);
      AllExactly(number, items, ops, latency);
      if invalid || !finished || !haveTotal {
        forall o, l ensures !StatesAll(number, items, o, l) { AllExactly(number, items, o, l); }
        return None;
      }
      return Some((ops, latency / 1000.0));
    }
  }

  lemma DistinctKeys()
    ensures OPS != AVERAGE
  {
  }

  /** One finish line, then no unreadable row, and one well-formed TOTAL row. */
  ghost predicate StatesAll(number: Parser, items: seq<Item>, ops: real, latency: real) {
    && Once(ReadFinish(), items, ()) && !Occurs(ReadPoison(), items)
    && Once(ReadTotal(number), items, (ops, latency))
  }

  lemma AllExactly(number: Parser, items: seq<Item>, ops: real, latency: real)
    ensures var s := SlotsOf(number, items);
            StatesAll(number, items, ops, latency) <==>
              !s.Bad() && s.finish.have && s.total.have && s.total.value == Some((ops, latency))
  {
    SlotMeaning(ReadFinish(), items, ());
    SlotMeaning(ReadTotal(number), items, (ops, latency));
    SlotMeaning(ReadPoison(), items, ());
    FinishValue(items);
  }

  lemma {:induction false} FinishValue(items: seq<Item>)
    ensures var s := SlotOf(ReadFinish(), items); s.have ==> s.value == Some(())
  {
    if items != [] { FinishValue(items[..|items| - 1]); }
  }

  /** go-ycsb reports microseconds; the metric is in milliseconds. */
  ghost predicate Summarizes(number: Parser, items: seq<Item>, metrics: Option<(real, real)>) {
    match metrics
    case Some(m) => exists micros :: StatesAll(number, items, m.0, micros) && m.1 == micros / 1000.0
    case None => forall o, l :: !StatesAll(number, items, o, l)
  }

  /** For every chunking, the result is that of the whole stdout split into lines. */
  method Collect(number: Parser, chunks: seq<string>) returns (metrics: Option<(real, real)>)
    ensures Summarizes(number, Items(Rows(AllLines(Concat(chunks)))), metrics)
  {
    var collector := new Collector(number);
    for i := 0 to |chunks|
      invariant collector.Valid() && collector.number == number
      invariant collector.Buffer() == AddBytes(START, Concat(chunks[..i]))
    {
      assert chunks[..i + 1][..i] == chunks[..i];
      AddBytesAppend(START, Concat(chunks[..i]), chunks[i]);
      var _ := collector.Write(chunks[i]);
    }
    assert chunks[..|chunks|] == chunks;
    DrainedIsWholeStream(Concat(chunks));
    metrics := collector.Result();
  }
}
