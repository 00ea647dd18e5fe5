/** The PostgreSQL run store (backend/internal/pgstore/store.go): each call is one transaction on the
    table of runs, and agrees with the store in memory. */
module PostgresStore {
  import opened GoText
  import opened RunnerResult
  import opened Sorting
  import opened RunStore
  import opened StorableText

  /** The precision of timestamptz: whole microseconds. */
  function Stamp(now: nat): nat { now - now % 1000 }

  function StoredMetric(m: Metric): Metric { Metric(Storable(m.name), Storable(m.unit), m.value) }

  function StoredResult(r: Result): Result {
    r.(output := Storable(r.output), metrics := seq(|r.metrics|, i requires 0 <= i < |r.metrics| => StoredMetric(r.metrics[i])))
  }

  function AsStored(run: Run): Run {
    run.(result := StoredResult(run.result), error := Storable(run.error))
  }

  function AllStored(runs: Runs): Runs {
    map id | id in runs :: AsStored(runs[id])
  }

  function StoredPage(page: seq<Run>): seq<Run> {
    seq(|page|, i requires 0 <= i < |page| => AsStored(page[i]))
  }

  function StoredReply(reply: Reply): Reply {
    match reply
    case Record(run) => Record(AsStored(run))
    case Page(runs) => Page(StoredPage(runs))
    case _ => reply
  }

  /** The row after the UPDATE of Complete. */
  function CompletedRow(run: Run, now: nat, status: Status, result: Result, message: string): Run {
    run.(status := status, completedAt := Some(Stamp(now)), result := StoredResult(result), error := Storable(message))
  }

  /** The row after the UPDATE of FailRunning, which leaves the result columns alone. */
  function InterruptedRow(run: Run, now: nat, message: string): Run {
    if run.status.Running? then run.(status := Failed, completedAt := Some(Stamp(now)), error := Storable(message)) else run
  }

  ghost predicate TableStep(table: Runs, op: Operation, now: nat, table': Runs, reply: Reply) {
    match op
    case Complete(id, status, result, message) =>
      if !ValidCompletion(status, message) then table' == table && reply == Refused(InvalidCompletion)
      else if id in table && table[id].status.Running? then
        table' == table[id := CompletedRow(table[id], now, status, result, message)] && reply == Ok
      else table' == table && reply == Refused(if id in table then AlreadyCompleted else NotFound)
    case FailRunning(message) =>
      if !ValidCompletion(Failed, message) then table' == table && reply == Refused(InvalidCompletion)
      else
        && table' == (map id | id in table :: InterruptedRow(table[id], now, message))
        && reply.IDs? && IsInterruptedList(table, reply.ids)
    case _ => Act(table, op, Stamp(now), table', reply)
  }

  class Store {
    var table: Runs

    constructor ()
      ensures table == map[]
    {
      table := map[];
    }

    /** INSERT ... ON CONFLICT (id) DO NOTHING */
    method Create(id: string, target: Target, settings: string, now: nat) returns (reply: Reply)
      modifies this
      ensures TableStep(old(table), Operation.Create(id, target, settings), now, table, reply)
    {
      if Blank(id) { return Refused(BlankID); }
      if id in table { return Refused(Exists); }
      var run := Run(id, target, settings, Running, Stamp(now), None, NO_RESULT, "");
      table := table[id := run];
      return Record(run);
    }

    /** UPDATE ... WHERE id = $1 AND status = 'running', then a look at what it found. */
    method Complete(id: string, status: Status, result: Result, message: string, now: nat) returns (reply: Reply)
      modifies this
      ensures TableStep(old(table), Operation.Complete(id, status, result, message), now, table, reply)
    {
      if !ValidCompletion(status, message) { return Refused(InvalidCompletion); }
      var completed := false;
      if id in table && table[id].status.Running? {
        table := table[id := CompletedRow(table[id], now, status, result, message)];
        completed := true;
      }
      if completed { return Ok; }
      if id !in table { return Refused(NotFound); }
      return Refused(AlreadyCompleted);
    }

    /** UPDATE ... WHERE status = 'running' RETURNING id, in whatever order the rows come. */
    method FailRunning(message: string, now: nat) returns (reply: Reply)
      modifies this
      ensures TableStep(old(table), Operation.FailRunning(message), now, table, reply)
    {
      if !ValidCompletion(Failed, message) { return Refused(InvalidCompletion); }
      var hit := set id | id in table && table[id].status.Running?;
      table := map id | id in table :: InterruptedRow(table[id], now, message);
      var ids: seq<string> := [];
      var todo := hit;
      while todo != {}
        invariant todo <= hit && Distinct(ids)
        invariant forall id :: id in ids <==> id in hit && id !in todo
        decreases todo
      {
        var id :| id in todo;
        ids, todo := ids + [id], todo - {id};
      }
      SortKeepsDistinct(ids);
      return IDs(SortBy(AtMost, ids));
    }
  }

  /** What every record of a store in memory satisfies: a running one has no result yet. */
  ghost predicate RunningIsBare(runs: Runs) {
    forall id :: id in runs && runs[id].status.Running? ==> runs[id].result == NO_RESULT
  }

  lemma BarenessIsKept(runs: Runs, op: Operation, now: nat, runs': Runs, reply: Reply)
    requires RunningIsBare(runs) && Act(runs, op, now, runs', reply)
    ensures RunningIsBare(runs')
  {
  }

  lemma EmptyIsStored()
    ensures StoredResult(NO_RESULT) == NO_RESULT && Storable("") == ""
  {
  }

  lemma StoredPageIsPage(runs: Runs, target: Target, limit: int, page: seq<Run>)
    requires IsPage(runs, target, limit, page)
    ensures IsPage(AllStored(runs), target, limit, StoredPage(page))
  {
    var stored, p := AllStored(runs), StoredPage(page);
    EmptyIsStored();
    forall id | id in stored && stored[id].target == target
      ensures Listed(p, id) || (|p| == limit && forall i :: 0 <= i < |p| ==> Before(p[i], stored[id]))
    {
      if Listed(page, id) {
        var i :| 0 <= i < |page| && page[i].id == id;
        assert p[i].id == id;
      } else {
        forall i | 0 <= i < |p| ensures Before(p[i], stored[id]) { assert Before(page[i], runs[id]); }
      }
    }
    forall i, j | 0 <= i < j < |p| ensures Before(p[i], p[j]) { assert Before(page[i], page[j]); }
  }

  lemma PagesAgree(memory: Runs, target: Target, limit: int, p: seq<Run>, q: seq<Run>)
    requires WellFormed(memory) && IsPage(memory, target, limit, p) && IsPage(AllStored(memory), target, limit, q)
    ensures q == StoredPage(p)
  {
    StoredPageIsPage(memory, target, limit, p);
    PageIsUnique(AllStored(memory), target, limit, q, StoredPage(p));
  }

  lemma InterruptionsAgree(memory: Runs, now: nat, message: string, table': Runs, ids: seq<string>, ids': seq<string>)
    requires RunningIsBare(memory) && Stamp(now) == now
    requires IsInterruptedList(memory, ids) && IsInterruptedList(AllStored(memory), ids')
    requires table' == map id | id in AllStored(memory) :: InterruptedRow(AllStored(memory)[id], now, message)
    ensures table' == AllStored(Interrupted(memory, now, message)) && ids' == ids
  {
    EmptyIsStored();
    assert IsInterruptedList(AllStored(memory), ids);
    InterruptedListIsUnique(AllStored(memory), ids, ids');
  }

  lemma CompletionsAgree(memory: Runs, op: Operation, now: nat, memory': Runs, reply: Reply, table': Runs, reply': Reply)
    requires op.Complete? && Stamp(now) == now
    requires Act(memory, op, now, memory', reply) && TableStep(AllStored(memory), op, now, table', reply')
    ensures table' == AllStored(memory') && reply' == reply
  {
  }

  lemma CreationsAgree(memory: Runs, op: Operation, now: nat, memory': Runs, reply: Reply, table': Runs, reply': Reply)
    requires op.Create? && Stamp(now) == now
    requires Act(memory, op, now, memory', reply) && TableStep(AllStored(memory), op, now, table', reply')
    ensures table' == AllStored(memory') && reply' == StoredReply(reply)
  {
    EmptyIsStored();
  }

  lemma NothingExpiredIsPlain(runs: Runs, op: Operation, now: nat, runs': Runs, reply: Reply)
    requires Live(runs, now) == runs && LazyStep(runs, op, now, runs', reply)
    ensures Act(runs, op, now, runs', reply)
  {
  }

  /** A call of the database store reads the clock in whole microseconds only. */
  lemma OnlyMicrosecondsCount(table: Runs, op: Operation, now: nat, table': Runs, reply: Reply)
    requires TableStep(table, op, now, table', reply)
    ensures TableStep(table, op, Stamp(now), table', reply)
  {
    assert Stamp(Stamp(now)) == Stamp(now);
  }

  lemma StoresAgreeAt(memory: Runs, op: Operation, now: nat, memory': Runs, reply: Reply, table: Runs, table': Runs, reply': Reply)
    requires WellFormed(memory) && RunningIsBare(memory) && table == AllStored(memory) && Stamp(now) == now
    requires Act(memory, op, now, memory', reply) && TableStep(table, op, now, table', reply')
    ensures table' == AllStored(memory') && reply' == StoredReply(reply)
  {
    match op
    case ListByTarget(target, limit) =>
      if 1 <= limit <= MAX_RUN_LIST_LIMIT { PagesAgree(memory, target, limit, reply.runs, reply'.runs); }
    case FailRunning(message) =>
      if ValidCompletion(Failed, message) { InterruptionsAgree(memory, now, message, table', reply.ids, reply'.ids); }
    case Complete(_, _, _, _) => CompletionsAgree(memory, op, now, memory', reply, table', reply');
    case Create(_, _, _) => CreationsAgree(memory, op, now, memory', reply, table', reply');
    case Get(_) =>
  }

  /** While no record has expired, the two stores answer every call alike and hold the same records, up to
      the repair of text that PostgreSQL could not hold, if the clock of the store in memory is truncated to
      microseconds; in particular each record is completed once, by the same call. */
  lemma StoresAgree(memory: Runs, op: Operation, now: nat, memory': Runs, reply: Reply, table: Runs, table': Runs, reply': Reply)
    requires Mirrors(table, memory) && Live(memory, Stamp(now)) == memory
    requires LazyStep(memory, op, Stamp(now), memory', reply) && TableStep(table, op, now, table', reply')
    ensures Mirrors(table', memory') && reply' == StoredReply(reply)
  {
    AnswersAgree(memory, op, now, memory', reply, table, table', reply');
    MemoryStaysGood(memory, op, Stamp(now), memory', reply);
  }

  lemma AnswersAgree(memory: Runs, op: Operation, now: nat, memory': Runs, reply: Reply, table: Runs, table': Runs, reply': Reply)
    requires Mirrors(table, memory) && Live(memory, Stamp(now)) == memory
    requires LazyStep(memory, op, Stamp(now), memory', reply) && TableStep(table, op, now, table', reply')
    ensures table' == AllStored(memory') && reply' == StoredReply(reply)
  {
    NothingExpiredIsPlain(memory, op, Stamp(now), memory', reply);
    OnlyMicrosecondsCount(table, op, now, table', reply');
    StoresAgreeAt(memory, op, Stamp(now), memory', reply, table, table', reply');
  }

  lemma MemoryStaysGood(memory: Runs, op: Operation, now: nat, memory': Runs, reply: Reply)
    requires WellFormed(memory) && RunningIsBare(memory) && LazyStep(memory, op, now, memory', reply) && Live(memory, now) == memory
    ensures WellFormed(memory') && RunningIsBare(memory')
  {
    NothingExpiredIsPlain(memory, op, now, memory', reply);
    BarenessIsKept(memory, op, now, memory', reply);
    StepKeepsWellFormed(memory, op, now, memory', reply);
  }

  /** The table holds what the memory holds, as it can be stored. */
  ghost predicate Mirrors(table: Runs, memory: Runs) {
    table == AllStored(memory) && WellFormed(memory) && RunningIsBare(memory)
  }

  /** A run of the database store from empty. */
  ghost predicate TableRun(tables: seq<Runs>, calls: seq<Call>) {
    && |tables| == |calls| + 1 && tables[0] == map[]
    && forall i {:trigger calls[i]} :: 0 <= i < |calls| ==> TableStep(tables[i], calls[i].op, calls[i].now, tables[i + 1], calls[i].reply)
  }

  /** The same calls, with the clock of the first truncated to microseconds, and before anything expires. */
  ghost predicate Alike(memory: seq<Runs>, calls: seq<Call>, calls': seq<Call>) {
    && |calls| == |calls'| == |memory| - 1
    && (forall i :: 0 <= i < |calls| ==> calls[i].op == calls'[i].op && calls[i].now == Stamp(calls'[i].now))
    && forall i :: 0 <= i < |calls| ==> Live(memory[i], calls[i].now) == memory[i]
  }

  lemma NextCallAgrees(memory: seq<Runs>, calls: seq<Call>, tables: seq<Runs>, calls': seq<Call>, n: nat)
    requires LazyRun(memory, calls) && TableRun(tables, calls') && Alike(memory, calls, calls') && n < |calls|
    requires Mirrors(tables[n], memory[n])
    ensures Mirrors(tables[n + 1], memory[n + 1]) && calls'[n].reply == StoredReply(calls[n].reply)
  {
    StoresAgree(memory[n], calls[n].op, calls'[n].now, memory[n + 1], calls[n].reply, tables[n], tables[n + 1], calls'[n].reply);
  }

  lemma NextTableMirrors(memory: seq<Runs>, calls: seq<Call>, tables: seq<Runs>, calls': seq<Call>, n: nat)
    requires LazyRun(memory, calls) && TableRun(tables, calls') && Alike(memory, calls, calls') && n < |calls|
    requires Mirrors(tables[n], memory[n])
    ensures Mirrors(tables[n + 1], memory[n + 1])
  {
    NextCallAgrees(memory, calls, tables, calls', n);
  }

  lemma EmptyMirrors()
    ensures Mirrors(map[], map[])
  {
  }

  lemma {:induction false} TablesMirror(memory: seq<Runs>, calls: seq<Call>, tables: seq<Runs>, calls': seq<Call>, n: nat)
    requires LazyRun(memory, calls) && TableRun(tables, calls') && Alike(memory, calls, calls') && n <= |calls|
    ensures Mirrors(tables[n], memory[n])
    decreases n
  {
    if n == 0 {
      EmptyMirrors();
    } else {
      TablesMirror(memory, calls, tables, calls', n - 1);
      NextTableMirrors(memory, calls, tables, calls', n - 1);
    }
  }

  /** Over any sequence of calls at any times, until something expires, the database store answers as the store
      in memory does with the clock truncated to microseconds. */
  lemma HistoriesAgree(memory: seq<Runs>, calls: seq<Call>, tables: seq<Runs>, calls': seq<Call>, i: nat)
    requires LazyRun(memory, calls) && TableRun(tables, calls') && Alike(memory, calls, calls') && i < |calls|
    ensures calls'[i].reply == StoredReply(calls[i].reply)
  {
    TablesMirror(memory, calls, tables, calls', i);
    NextCallAgrees(memory, calls, tables, calls', i);
  }

  // ---- what the precision of the clock changes ----

  function AtStamp(run: Run): Run { run.(createdAt := Stamp(run.createdAt)) }

  function Stamped(runs: Runs): Runs { map id | id in runs :: AtStamp(runs[id]) }

  function StampedPage(page: seq<Run>): seq<Run> {
    seq(|page|, i requires 0 <= i < |page| => AtStamp(page[i]))
  }

  /** The records that the target's history lists before this one. */
  function Ahead(runs: Runs, target: Target, id: string): set<string>
    requires id in runs
  {
    set other | other in runs && runs[other].target == target && Before(runs[other], runs[id])
  }

  /** Two runs of one microsecond whose IDs are ordered against their times. */
  predicate Swaps(a: Run, b: Run) {
    a.createdAt > b.createdAt && Stamp(a.createdAt) == Stamp(b.createdAt) && !AtMost(a.id, b.id)
  }

  /** None of the target's first records has such a run behind it. */
  ghost predicate KeepsOrder(runs: Runs, target: Target, limit: int) {
    forall a, b :: a in runs && b in runs && runs[a].target == target && runs[b].target == target && |Ahead(runs, target, a)| < limit ==>
      !Swaps(runs[a], runs[b])
  }

  lemma OrderLostExactly(a: Run, b: Run)
    requires Before(a, b)
    ensures Before(AtStamp(a), AtStamp(b)) <==> !Swaps(a, b)
  {
  }

  lemma ListedIsFirst(runs: Runs, target: Target, limit: int, p: seq<Run>, i: nat)
    requires WellFormed(runs) && IsPage(runs, target, limit, p) && i < |p|
    ensures |Ahead(runs, target, p[i].id)| < limit
  {
    var earlier := p[..i];
    MembersCount(earlier);
    forall id | id in Ahead(runs, target, p[i].id) ensures id in Members(earlier) {
      BeforeIsStrict(p[i], runs[id]);
      var j :| 0 <= j < |p| && p[j].id == id;
      BeforeIsStrict(p[i], p[j]);
      assert earlier[j].id == id;
    }
    SubsetCount(Ahead(runs, target, p[i].id), Members(earlier));
  }

  lemma FirstIsListed(runs: Runs, target: Target, limit: int, p: seq<Run>, id: string)
    requires WellFormed(runs) && IsPage(runs, target, limit, p)
    requires id in runs && runs[id].target == target && |Ahead(runs, target, id)| < limit
    ensures Listed(p, id)
  {
    if !Listed(p, id) {
      MembersCount(p);
      forall other | other in Members(p) ensures other in Ahead(runs, target, id) {
        var j :| 0 <= j < |p| && p[j].id == other;
        assert Before(p[j], runs[id]);
      }
      SubsetCount(Members(p), Ahead(runs, target, id));
    }
  }

  lemma KeptBehind(runs: Runs, target: Target, limit: int, p: seq<Run>, i: nat, id: string)
    requires WellFormed(runs) && IsPage(runs, target, limit, p) && KeepsOrder(runs, target, limit)
    requires i < |p| && id in runs && runs[id].target == target && Before(p[i], runs[id])
    ensures Before(AtStamp(p[i]), AtStamp(runs[id]))
  {
    ListedIsFirst(runs, target, limit, p, i);
    assert !Swaps(runs[p[i].id], runs[id]);
    OrderLostExactly(p[i], runs[id]);
  }

  lemma KeptPageIsPage(runs: Runs, target: Target, limit: int, p: seq<Run>)
    requires WellFormed(runs) && IsPage(runs, target, limit, p) && KeepsOrder(runs, target, limit)
    ensures IsPage(Stamped(runs), target, limit, StampedPage(p))
  {
    var stamped, q := Stamped(runs), StampedPage(p);
    forall i, j | 0 <= i < j < |q| ensures Before(q[i], q[j]) {
      assert Before(p[i], p[j]);
      KeptBehind(runs, target, limit, p, i, p[j].id);
    }
    forall id | id in stamped && stamped[id].target == target
      ensures Listed(q, id) || (|q| == limit && forall i :: 0 <= i < |q| ==> Before(q[i], stamped[id]))
    {
      if Listed(p, id) {
        var i :| 0 <= i < |p| && p[i].id == id;
        assert q[i].id == id;
      } else {
        forall i | 0 <= i < |q| ensures Before(q[i], stamped[id]) { KeptBehind(runs, target, limit, p, i, id); }
      }
    }
  }

  lemma ListedStaysBehind(runs: Runs, target: Target, limit: int, p: seq<Run>, i: nat, id: string)
    requires WellFormed(runs) && IsPage(runs, target, limit, p) && IsPage(Stamped(runs), target, limit, StampedPage(p))
    requires i < |p| && id in runs && runs[id].target == target && Before(p[i], runs[id])
    ensures Before(AtStamp(p[i]), AtStamp(runs[id]))
  {
    var stamped, q := Stamped(runs), StampedPage(p);
    if Listed(p, id) {
      var j :| 0 <= j < |p| && p[j].id == id;
      if j < i {
        assert Before(p[j], p[i]);
        BeforeIsStrict(p[j], p[i]);
      }
      assert Before(q[i], q[j]);
    } else {
      assert forall j :: 0 <= j < |q| ==> q[j].id == p[j].id;
      assert id in stamped && Before(q[i], stamped[id]);
    }
  }

  /** Both precisions show the same history page if and only if no run among the first, as many as the page
      holds, is followed by one of its microsecond whose ID is smaller. */
  lemma PrecisionShowsExactly(runs: Runs, target: Target, limit: int, p: seq<Run>, q: seq<Run>)
    requires WellFormed(runs) && IsPage(runs, target, limit, p) && IsPage(Stamped(runs), target, limit, q)
    ensures q == StampedPage(p) <==> KeepsOrder(runs, target, limit)
  {
    if KeepsOrder(runs, target, limit) {
      KeptPageIsPage(runs, target, limit, p);
      PageIsUnique(Stamped(runs), target, limit, q, StampedPage(p));
    }
    if q == StampedPage(p) {
      forall a, b | a in runs && b in runs && runs[a].target == target && runs[b].target == target && |Ahead(runs, target, a)| < limit
        ensures !Swaps(runs[a], runs[b])
      {
        SamePageKeepsOrder(runs, target, limit, p, a, b);
      }
    }
  }

  lemma SamePageKeepsOrder(runs: Runs, target: Target, limit: int, p: seq<Run>, a: string, b: string)
    requires WellFormed(runs) && IsPage(runs, target, limit, p) && IsPage(Stamped(runs), target, limit, StampedPage(p))
    requires a in runs && b in runs && runs[a].target == target && runs[b].target == target && |Ahead(runs, target, a)| < limit
    ensures !Swaps(runs[a], runs[b])
  {
    FirstIsListed(runs, target, limit, p, a);
    var i :| 0 <= i < |p| && p[i].id == a;
    if Swaps(runs[a], runs[b]) {
      AtMostIsTotal(a, b);
      assert Before(p[i], runs[b]);
      ListedStaysBehind(runs, target, limit, p, i, b);
    }
  }

  lemma TwoRecordPage(a: Run, b: Run)
    requires Before(a, b) && a.target == b.target
    ensures IsPage(map[a.id := a, b.id := b], a.target, 2, [Blanked(a), Blanked(b)])
  {
    var page := [Blanked(a), Blanked(b)];
    assert page[0].id == a.id && page[1].id == b.id;
  }

  /** Two runs of one microsecond that the stores list in different orders. */
  lemma PrecisionShows() returns (runs: Runs, target: Target, p: seq<Run>, q: seq<Run>)
    ensures WellFormed(runs) && IsPage(runs, target, 2, p) && IsPage(Stamped(runs), target, 2, q)
    ensures |p| == |q| == 2 && p[0].id == q[1].id && p[1].id == q[0].id && p[0].id != p[1].id
  {
    target := Target("c", "n", "i");
    var a := Run("a", target, "", Running, 1, None, NO_RESULT, "");
    var b := Run("b", target, "", Running, 2, None, NO_RESULT, "");
    runs := map["b" := b, "a" := a];
    p, q := [Blanked(b), Blanked(a)], [Blanked(AtStamp(a)), Blanked(AtStamp(b))];
    TwoRecordPage(b, a);
    TwoRecordPage(AtStamp(a), AtStamp(b));
    assert Stamped(runs) == map["a" := AtStamp(a), "b" := AtStamp(b)];
  }

  /** Text that is valid UTF-8 without NUL comes back as it was written. */
  lemma CleanRecordIsUnchanged(run: Run)
    requires Clean(run.result.output) && Clean(run.error)
    requires forall m :: m in run.result.metrics ==> Clean(m.name) && Clean(m.unit)
    ensures AsStored(run) == run
  {
    CleanIsKept(run.result.output);
    CleanIsKept(run.error);
    forall i | 0 <= i < |run.result.metrics| ensures StoredMetric(run.result.metrics[i]) == run.result.metrics[i] {
      var m := run.result.metrics[i];
      assert m in run.result.metrics;
      CleanIsKept(m.name);
      CleanIsKept(m.unit);
    }
  }
}
