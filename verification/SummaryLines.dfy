/** The bounded line buffer that all three metrics collectors use
    (runners/{sysbench,go-ycsb,pgbench}/metrics.go), and readings that must occur exactly once. */
module SummaryLines {
  import opened GoText
  import opened Lines

  const MAX_LINE: nat := 4096

  /** A line as a collector gets to see it. */
  datatype Row = Text(line: string) | TooLong

  function RowOf(line: string): Row { if |line| > MAX_LINE then TooLong else Text(line) }

  function Rows(lines: seq<string>): seq<Row> {
    if lines == [] then [] else Rows(lines[..|lines| - 1]) + [RowOf(lines[|lines| - 1])]
  }

  /** The buffer, and the rows handed on so far. */
  datatype Reader = Reader(line: string, discarding: bool, rows: seq<Row>)

  const START := Reader("", false, [])

  function AddByte(r: Reader, b: char): Reader {
    if b == '\n' then Reader("", false, if r.discarding then r.rows else r.rows + [Text(r.line)])
    else if r.discarding then r
    else if |r.line| == MAX_LINE then Reader("", true, r.rows + [TooLong])
    else r.(line := r.line + [b])
  }

  function AddBytes(r: Reader, data: string): Reader {
    if data == "" then r else AddByte(AddBytes(r, data[..|data| - 1]), data[|data| - 1])
  }

  /** The end of the stream: a partial last line still counts. */
  function Drained(r: Reader): seq<Row> {
    if |r.line| != 0 && !r.discarding then r.rows + [Text(r.line)] else r.rows
  }

  function ReaderOf(seen: string): Reader {
    var open := OpenLine(seen);
    var rows := Rows(CompleteLines(seen));
    if |open| > MAX_LINE then Reader("", true, rows + [TooLong]) else Reader(open, false, rows)
  }

  lemma {:induction false} StreamingIsBatch(seen: string)
    ensures AddBytes(START, seen) == ReaderOf(seen)
  {
    if seen != "" {
      var before, b := seen[..|seen| - 1], seen[|seen| - 1];
      StreamingIsBatch(before);
      assert before + [b] == seen;
      NextByte(before, b);
      RowsAppend(CompleteLines(before), OpenLine(before));
    }
  }

  lemma RowsAppend(lines: seq<string>, line: string)
    ensures Rows(lines + [line]) == Rows(lines) + [RowOf(line)]
  {
  }

  /** Whatever the chunks, draining the buffer at the end yields the lines of the whole stream. */
  lemma DrainedIsWholeStream(seen: string)
    ensures Drained(AddBytes(START, seen)) == Rows(AllLines(seen))
    ensures |AddBytes(START, seen).line| <= MAX_LINE
  {
    StreamingIsBatch(seen);
    RowsAppend(CompleteLines(seen), OpenLine(seen));
  }

  lemma {:induction false} AddBytesAppend(r: Reader, first: string, second: string)
    ensures AddBytes(r, first + second) == AddBytes(AddBytes(r, first), second)
  {
    if second == "" {
      assert first + second == first;
    } else {
      AddBytesAppend(r, first, second[..|second| - 1]);
      assert (first + second)[..|first + second| - 1] == first + second[..|second| - 1];
    }
  }

  function Concat(chunks: seq<string>): string {
    if chunks == [] then "" else Concat(chunks[..|chunks| - 1]) + chunks[|chunks| - 1]
  }

  // ---- readings that must occur exactly once ----

  // A reader says of an item: nothing (None), something malformed (Some(None)), or a value.

  /** The flags a collector keeps for one reading. */
  datatype Slot<V> = Slot(have: bool, bad: bool, value: Option<V>)

  function Fill<V>(s: Slot<V>, r: Option<Option<V>>): Slot<V> {
    match r
    case None => s
    case Some(v) => Slot(true, s.bad || s.have || v.None?, v)
  }

  function SlotOf<T, V>(read: T -> Option<Option<V>>, items: seq<T>): Slot<V> {
    if items == [] then Slot(false, false, None)
    else Fill(SlotOf(read, items[..|items| - 1]), read(items[|items| - 1]))
  }

  /** Exactly one item is a reading, and it is well formed with value x. */
  ghost predicate Once<T, V>(read: T -> Option<Option<V>>, items: seq<T>, x: V) {
    exists i ::
      && 0 <= i < |items| && read(items[i]) == Some(Some(x))
      && forall j :: 0 <= j < |items| && read(items[j]).Some? ==> j == i
  }

  ghost predicate Occurs<T, V>(read: T -> Option<Option<V>>, items: seq<T>) {
    exists i :: 0 <= i < |items| && read(items[i]).Some?
  }

  lemma SlotAppend<T, V>(read: T -> Option<Option<V>>, items: seq<T>, item: T)
    ensures SlotOf(read, items + [item]) == Fill(SlotOf(read, items), read(item))
  {
  }

  lemma OccursAppend<T, V>(read: T -> Option<Option<V>>, items: seq<T>, item: T)
    ensures Occurs(read, items + [item]) <==> Occurs(read, items) || read(item).Some?
  {
    var all := items + [item];
    if Occurs(read, items) {
      var i :| 0 <= i < |items| && read(items[i]).Some?;
      assert read(all[i]).Some?;
    }
    if read(item).Some? { assert read(all[|items|]).Some?; }
  }

  /** The two flags and the last value say exactly whether the reading occurs once, well formed. */
  lemma {:induction false} SlotMeaning<T, V>(read: T -> Option<Option<V>>, items: seq<T>, x: V)
    ensures var s := SlotOf(read, items);
            && (s.have <==> Occurs(read, items))
            && (s.bad ==> s.have)
            && (Once(read, items, x) <==> s.have && !s.bad && s.value == Some(x))
  {
    if items != [] {
      var front, last := items[..|items| - 1], items[|items| - 1];
      SlotMeaning(read, front, x);
      assert items == front + [last];
      OccursAppend(read, front, last);
      OnceAppend(read, front, last, x);
    }
  }

  lemma OnceAppend<T, V>(read: T -> Option<Option<V>>, items: seq<T>, item: T, x: V)
    ensures Once(read, items + [item], x) <==>
            if read(item).None? then Once(read, items, x) else !Occurs(read, items) && read(item) == Some(Some(x))
  {
    var all := items + [item];
    assert all[|items|] == item && forall i :: 0 <= i < |items| ==> all[i] == items[i];
    if Once(read, all, x) {
      var i :| 0 <= i < |all| && read(all[i]) == Some(Some(x)) && forall j :: 0 <= j < |all| && read(all[j]).Some? ==> j == i;
      if i < |items| { assert read(items[i]) == Some(Some(x)); }
      if Occurs(read, items) { var j :| 0 <= j < |items| && read(items[j]).Some?; assert read(all[j]).Some?; }
    }
    if read(item).None? && Once(read, items, x) {
      var i :| 0 <= i < |items| && read(items[i]) == Some(Some(x)) && forall j :: 0 <= j < |items| && read(items[j]).Some? ==> j == i;
      assert read(all[i]) == Some(Some(x));
    }
  }

  // ---- text ----

  /** The parser of decimal fractions; how it reads them is not modelled. */
  type Parser = string -> Option<real>

  function SummaryNumber(number: Parser, text: string): Option<real> {
    var r := number(TrimSpace(text));
    if r.Some? && r.value >= 0.0 then r else None
  }

  function IndexOf(s: string, c: char): (n: nat)
    ensures n <= |s|
  {
    if s == "" || s[0] == c then 0 else 1 + IndexOf(s[1..], c)
  }

  function SplitOn(s: string, c: char): seq<string>
    decreases |s|
  {
    var n := IndexOf(s, c);
    if n == |s| then [s] else [s[..n]] + SplitOn(s[n + 1..], c)
  }

  function WordLength(s: string): (n: nat)
    ensures n <= |s|
  {
    if s == "" || LeadingSpace(s) > 0 then 0 else 1 + WordLength(s[1..])
  }

  /** strings.Fields */
  function Fields(s: string): seq<string>
    decreases |s|
  {
    var t := TrimLeft(s);
    TrimLeftShrinks(s);
    if t == "" then [] else [t[..WordLength(t)]] + Fields(t[WordLength(t)..])
  }

  lemma {:induction false} TrimLeftShrinks(s: string)
    ensures |TrimLeft(s)| <= |s|
    ensures TrimLeft(s) != "" ==> WordLength(TrimLeft(s)) > 0
    decreases |s|
  {
    if LeadingSpace(s) > 0 { TrimLeftShrinks(s[LeadingSpace(s)..]); }
  }
}
