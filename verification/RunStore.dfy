/** The run stores (backend/internal/api/store.go).

    Act says what one call does to a store that holds no expired records; the class
    MemoryRunStore is the store that prunes lazily. */
module RunStore {
  import opened GoText
  import opened RunnerResult
  import opened Sorting

  const HOUR: nat := 3_600_000_000_000
  const MAX_RUN_LIST_LIMIT: int := 100

  datatype Target = Target(cluster: string, namespace: string, instance: string)

  datatype Status = Running | Succeeded | Failed | Other(text: string)


  /** A record.  The effective settings (snapshot, resources, affinity) are one opaque text. */
  datatype Run = Run(id: string, target: Target, settings: string, status: Status, createdAt: nat, completedAt: Option<nat>,
                     result: Result, error: string)

  datatype Error = BlankID | Exists | NotFound | AlreadyCompleted | InvalidCompletion | LimitOutOfRange

  datatype Operation =
    | Create(id: string, target: Target, settings: string)
    | Get(id: string)
    | Complete(id: string, status: Status, result: Result, message: string)
    | ListByTarget(target: Target, limit: int)
    | FailRunning(message: string)

  datatype Reply = Record(run: Run) | Page(runs: seq<Run>) | IDs(ids: seq<string>) | Ok | Refused(error: Error)

  type Runs = map<string, Run>

  predicate ValidCompletion(status: Status, message: string) {
    (status.Succeeded? && message == "") || (status.Failed? && !Blank(message))
  }

  predicate IsExpired(run: Run, now: nat) {
    run.completedAt.Some? && now - run.completedAt.value >= HOUR
  }

  /** The records that a caller may still see. */
  function Live(runs: Runs, now: nat): Runs {
    map id | id in runs && !IsExpired(runs[id], now) :: runs[id]
  }

  function Completed(run: Run, now: nat, status: Status, result: Result, message: string): Run {
    run.(status := status, completedAt := Some(now), result := result, error := message)
  }

  function Interrupted(runs: Runs, now: nat, message: string): Runs {
    map id | id in runs :: if runs[id].status.Running? then Completed(runs[id], now, Failed, NO_RESULT, message) else runs[id]
  }

  // ---- history pages ----

  function Blanked(run: Run): Run { run.(result := run.result.(output := "")) }

  /** Newest first, ties by ID (SortRunsNewestFirst). */
  predicate NewestFirst(a: Run, b: Run) {
    a.createdAt > b.createdAt || (a.createdAt == b.createdAt && AtMost(a.id, b.id))
  }

  predicate Before(a: Run, b: Run) { NewestFirst(a, b) && a.id != b.id }

  /** The page holds exactly the first records of the target: in strict order, without output, and before
      every record that was left out; and nothing is left out of a page that is not full. */
  ghost predicate IsPage(runs: Runs, target: Target, limit: int, page: seq<Run>) {
    && (forall i :: 0 <= i < |page| ==> page[i].id in runs && runs[page[i].id].target == target && page[i] == Blanked(runs[page[i].id]))
    && (forall i, j :: 0 <= i < j < |page| ==> Before(page[i], page[j]))
    && |page| <= limit
    && forall id :: id in runs && runs[id].target == target ==>
         Listed(page, id) || (|page| == limit && forall i :: 0 <= i < |page| ==> Before(page[i], runs[id]))
  }

  predicate Listed(page: seq<Run>, id: string) {
    exists i :: 0 <= i < |page| && page[i].id == id
  }

  /** Every record lies under its own ID, and has a completion time exactly when it is terminal. */
  ghost predicate WellFormed(runs: Runs) {
    forall id :: id in runs ==> runs[id].id == id && (runs[id].completedAt.None? <==> runs[id].status.Running?)
  }

  /** All running records, in order. */
  ghost predicate IsInterruptedList(runs: Runs, ids: seq<string>) {
    && SortedBy(AtMost, ids) && Distinct(ids)
    && forall id :: id in ids <==> id in runs && runs[id].status.Running?
  }

  // ---- the simple store ----

  /** One call on a store whose records are all visible. */
  ghost predicate Act(runs: Runs, op: Operation, now: nat, runs': Runs, reply: Reply) {
    match op
    case Create(id, target, settings) =>
      var run := Run(id, target, settings, Running, now, None, NO_RESULT, "");
      if Blank(id) then runs' == runs && reply == Refused(BlankID)
      else if id in runs then runs' == runs && reply == Refused(Exists)
      else runs' == runs[id := run] && reply == Record(run)
    case Get(id) => runs' == runs && reply == if id in runs then Record(runs[id]) else Refused(NotFound)
    case Complete(id, status, result, message) =>
      if !ValidCompletion(status, message) then runs' == runs && reply == Refused(InvalidCompletion)
      else if id !in runs then runs' == runs && reply == Refused(NotFound)
      else if !runs[id].status.Running? then runs' == runs && reply == Refused(AlreadyCompleted)
      else runs' == runs[id := Completed(runs[id], now, status, result, message)] && reply == Ok
    case ListByTarget(target, limit) =>
      if limit < 1 || limit > MAX_RUN_LIST_LIMIT then runs' == runs && reply == Refused(LimitOutOfRange)
      else runs' == runs && reply.Page? && IsPage(runs, target, limit, reply.runs)
    case FailRunning(message) =>
      if !ValidCompletion(Failed, message) then runs' == runs && reply == Refused(InvalidCompletion)
      else runs' == Interrupted(runs, now, message) && reply.IDs? && IsInterruptedList(runs, reply.ids)
  }

  /** The store that drops each record exactly one hour after its completion. */
  ghost predicate EagerStep(runs: Runs, op: Operation, now: nat, runs': Runs, reply: Reply) {
    Act(Live(runs, now), op, now, runs', reply)
  }

  /** MemoryRunStore: only Create prunes; Get and ListByTarget skip; Complete and FailRunning do not look. */
  ghost predicate LazyStep(runs: Runs, op: Operation, now: nat, runs': Runs, reply: Reply) {
    match op
    case Create(id, _, _) =>
      if Blank(id) then runs' == runs && reply == Refused(BlankID) else Act(Live(runs, now), op, now, runs', reply)
    case Get(_) => runs' == runs && Act(Live(runs, now), op, now, Live(runs, now), reply)
    case ListByTarget(_, _) => runs' == runs && Act(Live(runs, now), op, now, Live(runs, now), reply)
    case Complete(_, _, _, _) => Act(runs, op, now, runs', reply)
    case FailRunning(_) => Act(runs, op, now, runs', reply)
  }

  // ---- the page is unique ----

  lemma BeforeIsStrict(a: Run, b: Run)
    ensures !(Before(a, b) && Before(b, a))
  {
    AtMostIsTotal(a.id, b.id);
  }

  function Members(page: seq<Run>): set<string> { set i | 0 <= i < |page| :: page[i].id }

  lemma {:induction false} MembersCount(page: seq<Run>)
    requires forall i, j :: 0 <= i < j < |page| ==> page[i].id != page[j].id
    ensures |Members(page)| == |page|
  {
    if page != [] {
      var front := page[..|page| - 1];
      MembersCount(front);
      assert Members(page) == Members(front) + {page[|page| - 1].id};
      assert page[|page| - 1].id !in Members(front);
    }
  }

  /** A record on the first page only would be before and after one on the second page only. */
  lemma PagesHoldTheSame(runs: Runs, target: Target, limit: int, p: seq<Run>, q: seq<Run>, id: string)
    requires WellFormed(runs) && IsPage(runs, target, limit, p) && IsPage(runs, target, limit, q)
    requires id in Members(p)
    ensures id in Members(q)
  {
    if id !in Members(q) {
      var i :| 0 <= i < |p| && p[i].id == id;
      assert |q| == limit;
      MembersCount(p);
      MembersCount(q);
      var other := Stranger(Members(q), Members(p), id);
      var j :| 0 <= j < |q| && q[j].id == other;
      assert Before(p[i], runs[other]);
      assert Before(q[j], runs[id]);
      BeforeIsStrict(p[i], q[j]);
    }
  }

  lemma Stranger<T>(a: set<T>, b: set<T>, x: T) returns (y: T)
    requires |a| >= |b| && x in b && x !in a
    ensures y in a && y !in b
  {
    if a <= b { SubsetCount(a, b - {x}); }
    y :| y in a && y !in b;
  }

  /** However the map is iterated, there is one page. */
  lemma PageIsUnique(runs: Runs, target: Target, limit: int, p: seq<Run>, q: seq<Run>)
    requires WellFormed(runs) && IsPage(runs, target, limit, p) && IsPage(runs, target, limit, q)
    ensures p == q
  {
    forall run ensures run in p <==> run in q {
      if run in p { assert run.id in Members(p); PagesHoldTheSame(runs, target, limit, p, q, run.id); SameRecord(runs, target, limit, p, q, run); }
      if run in q { assert run.id in Members(q); PagesHoldTheSame(runs, target, limit, q, p, run.id); SameRecord(runs, target, limit, q, p, run); }
    }
    forall a, b | a in p && b in p && NewestFirst(a, b) && NewestFirst(b, a) ensures a == b {
      AtMostIsTotal(a.id, b.id);
    }
    assert Distinct(p) && Distinct(q);
    SortedListingIsUnique(NewestFirst, p, q);
  }

  lemma SameRecord(runs: Runs, target: Target, limit: int, p: seq<Run>, q: seq<Run>, run: Run)
    requires IsPage(runs, target, limit, p) && IsPage(runs, target, limit, q) && run in p && run.id in Members(q)
    ensures run in q
  {
  }

  lemma InterruptedListIsUnique(runs: Runs, p: seq<string>, q: seq<string>)
    requires IsInterruptedList(runs, p) && IsInterruptedList(runs, q)
    ensures p == q
  {
    forall a, b | AtMost(a, b) && AtMost(b, a) ensures a == b { AtMostIsTotal(a, b); }
    SortedListingIsUnique(AtMost, p, q);
  }

  // ---- lazy expiry is not observable ----

  lemma LiveLater(a: Runs, b: Runs, t: nat, now: nat)
    requires t <= now && Live(a, t) == Live(b, t)
    ensures Live(a, now) == Live(b, now)
  {
    forall id ensures id in Live(a, now) <==> id in Live(b, now) {
      assert id in Live(a, now) ==> id in Live(a, t);
      assert id in Live(b, now) ==> id in Live(b, t);
      assert id in Live(a, t) ==> Live(a, t)[id] == a[id] && Live(b, t)[id] == b[id];
    }
    forall id | id in Live(a, now) ensures Live(a, now)[id] == Live(b, now)[id] {
      assert id in Live(a, t) && Live(a, t)[id] == Live(b, t)[id];
    }
  }

  /** The two may differ only in how they refuse to complete a record that has expired. */
  ghost predicate Indistinguishable(op: Operation, lazy: Reply, eager: Reply) {
    lazy == eager || (op.Complete? && lazy == Refused(AlreadyCompleted) && eager == Refused(NotFound))
  }

  lemma StepKeepsWellFormed(runs: Runs, op: Operation, now: nat, runs': Runs, reply: Reply)
    requires WellFormed(runs)
    requires LazyStep(runs, op, now, runs', reply) || EagerStep(runs, op, now, runs', reply)
    ensures WellFormed(runs')
  {
  }

  lemma LazyRefinesEager(lazy: Runs, eager: Runs, op: Operation, now: nat, lazy': Runs, reply: Reply, eager': Runs, reply': Reply)
    requires WellFormed(lazy) && WellFormed(eager) && Live(lazy, now) == Live(eager, now)
    requires LazyStep(lazy, op, now, lazy', reply) && EagerStep(eager, op, now, eager', reply')
    ensures Indistinguishable(op, reply, reply')
    ensures Live(lazy', now) == Live(eager', now)
  {
    var live := Live(lazy, now);
    assert Live(live, now) == live;
    match op
    case Create(id, target, settings) =>
    case Get(id) =>
    case Complete(id, status, result, message) =>
      CompletionRefines(lazy, live, op, now, lazy', reply, eager', reply');
    case ListByTarget(target, limit) =>
      if 1 <= limit <= MAX_RUN_LIST_LIMIT { PageIsUnique(live, target, limit, reply.runs, reply'.runs); }
    case FailRunning(message) =>
      if ValidCompletion(Failed, message) { InterruptionRefines(lazy, live, now, message, reply.ids, reply'.ids); }
  }

  lemma CompletionRefines(lazy: Runs, live: Runs, op: Operation, now: nat, lazy': Runs, reply: Reply, eager': Runs, reply': Reply)
    requires op.Complete? && WellFormed(lazy) && live == Live(lazy, now) && live == Live(live, now)
    requires Act(lazy, op, now, lazy', reply) && Act(live, op, now, eager', reply')
    ensures Indistinguishable(op, reply, reply') && Live(lazy', now) == Live(eager', now)
  {
    if op.id in lazy { CompletedIsLive(lazy, now, op.id, op.status, op.result, op.message); }
    if op.id in live { CompletedIsLive(live, now, op.id, op.status, op.result, op.message); }
  }

  lemma InterruptionRefines(lazy: Runs, live: Runs, now: nat, message: string, ids: seq<string>, ids': seq<string>)
    requires WellFormed(lazy) && live == Live(lazy, now) && live == Live(live, now)
    requires IsInterruptedList(lazy, ids) && IsInterruptedList(live, ids')
    ensures ids == ids'
    ensures Live(Interrupted(lazy, now, message), now) == Live(Interrupted(live, now, message), now)
  {
    assert IsInterruptedList(live, ids);
    InterruptedListIsUnique(live, ids, ids');
    InterruptedIsLive(lazy, now, message);
    InterruptedIsLive(live, now, message);
  }

  lemma CompletedIsLive(runs: Runs, now: nat, id: string, status: Status, result: Result, message: string)
    requires id in runs
    ensures var run := Completed(runs[id], now, status, result, message);
            Live(runs[id := run], now) == Live(runs, now)[id := run]
  {
  }

  lemma InterruptedIsLive(runs: Runs, now: nat, message: string)
    requires WellFormed(runs)
    ensures Live(Interrupted(runs, now, message), now) == Interrupted(Live(runs, now), now, message)
  {
  }

  datatype Call = Call(op: Operation, now: nat, reply: Reply)

  /** A run of a store from empty: the states between its calls. */
  ghost predicate LazyRun(states: seq<Runs>, calls: seq<Call>) {
    && |states| == |calls| + 1 && states[0] == map[]
    && forall i {:trigger calls[i]} :: 0 <= i < |calls| ==> LazyStep(states[i], calls[i].op, calls[i].now, states[i + 1], calls[i].reply)
  }

  ghost predicate EagerRun(states: seq<Runs>, calls: seq<Call>) {
    && |states| == |calls| + 1 && states[0] == map[]
    && forall i {:trigger calls[i]} :: 0 <= i < |calls| ==> EagerStep(states[i], calls[i].op, calls[i].now, states[i + 1], calls[i].reply)
  }

  ghost predicate SameCalls(a: seq<Call>, b: seq<Call>) {
    && |a| == |b|
    && (forall i :: 0 <= i < |a| ==> a[i].op == b[i].op && a[i].now == b[i].now)
    && forall i, j :: 0 <= i < j < |a| ==> a[i].now <= a[j].now
  }

  /** What ties the two stores together after the first n calls. */
  ghost predicate Tied(lazy: Runs, eager: Runs, calls: seq<Call>, n: nat) {
    && n <= |calls| && WellFormed(lazy) && WellFormed(eager)
    && if n == 0 then lazy == eager else Live(lazy, calls[n - 1].now) == Live(eager, calls[n - 1].now)
  }

  lemma NextCallIsInvisible(lazy: seq<Runs>, calls: seq<Call>, eager: seq<Runs>, calls': seq<Call>, n: nat)
    requires LazyRun(lazy, calls) && EagerRun(eager, calls') && SameCalls(calls, calls') && n < |calls|
    requires Tied(lazy[n], eager[n], calls, n)
    ensures Tied(lazy[n + 1], eager[n + 1], calls, n + 1)
    ensures Indistinguishable(calls[n].op, calls[n].reply, calls'[n].reply)
  {
    var op, now, reply, reply' := calls[n].op, calls[n].now, calls[n].reply, calls'[n].reply;
    if n > 0 { LiveLater(lazy[n], eager[n], calls[n - 1].now, now); }
    StepKeepsWellFormed(lazy[n], op, now, lazy[n + 1], reply);
    StepKeepsWellFormed(eager[n], op, now, eager[n + 1], reply');
    LazyRefinesEager(lazy[n], eager[n], op, now, lazy[n + 1], reply, eager[n + 1], reply');
  }

  lemma {:induction false} StoresStayTied(lazy: seq<Runs>, calls: seq<Call>, eager: seq<Runs>, calls': seq<Call>, n: nat)
    requires LazyRun(lazy, calls) && EagerRun(eager, calls') && SameCalls(calls, calls') && n <= |calls|
    ensures Tied(lazy[n], eager[n], calls, n)
    decreases n
  {
    if n == 0 {
      assert Tied(map[], map[], calls, 0);
    } else {
      StoresStayTied(lazy, calls, eager, calls', n - 1);
      NextCallIsInvisible(lazy, calls, eager, calls', n - 1);
    }
  }

  /** With a clock that does not run backwards, no sequence of calls tells the lazy store from the eager one. */
  lemma LazyExpiryIsInvisible(lazy: seq<Runs>, calls: seq<Call>, eager: seq<Runs>, calls': seq<Call>, i: nat)
    requires LazyRun(lazy, calls) && EagerRun(eager, calls') && SameCalls(calls, calls') && i < |calls|
    ensures Indistinguishable(calls[i].op, calls[i].reply, calls'[i].reply)
  {
    StoresStayTied(lazy, calls, eager, calls', i);
    NextCallIsInvisible(lazy, calls, eager, calls', i);
  }

  /** The same record, and when it had ended, unchanged. */
  predicate Continues(was: Run, now: Run) {
    && now.id == was.id && now.target == was.target && now.settings == was.settings && now.createdAt == was.createdAt
    && (was.status.Running? || now == was)
  }

  /** The call creates a record when this one had expired. */
  predicate Drops(runs: Runs, call: Call, id: string) {
    call.op.Create? && !Blank(call.op.id) && id in runs && IsExpired(runs[id], call.now)
  }

  lemma StepContinues(runs: Runs, call: Call, runs': Runs, id: string)
    requires WellFormed(runs) && LazyStep(runs, call.op, call.now, runs', call.reply) && id in runs
    ensures id in runs' && Continues(runs[id], runs'[id]) <==> !Drops(runs, call, id)
  {
  }

  lemma {:induction false} RunIsWellFormed(states: seq<Runs>, calls: seq<Call>, n: nat)
    requires LazyRun(states, calls) && n < |states|
    ensures WellFormed(states[n])
  {
    if n > 0 {
      RunIsWellFormed(states, calls, n - 1);
      StepKeepsWellFormed(states[n - 1], calls[n - 1].op, calls[n - 1].now, states[n], calls[n - 1].reply);
    }
  }

  ghost predicate DroppedAt(states: seq<Runs>, calls: seq<Call>, k: int, id: string) {
    0 <= k < |calls| && k < |states| && Drops(states[k], calls[k], id) && !states[k][id].status.Running?
  }

  ghost predicate Kept(states: seq<Runs>, i: nat, j: nat, id: string) {
    i <= j < |states| && id in states[i] && id in states[j] && Continues(states[i][id], states[j][id])
  }

  lemma NextCallKeeps(states: seq<Runs>, calls: seq<Call>, i: nat, j: nat, id: string)
    requires LazyRun(states, calls) && j < |calls| && Kept(states, i, j, id)
    ensures Kept(states, i, j + 1, id) || DroppedAt(states, calls, j, id)
  {
    RunIsWellFormed(states, calls, j);
    StepContinues(states[j], calls[j], states[j + 1], id);
  }

  /** Through any calls a record stays what it was, ends at most once and then does not change, unless it had
      expired when another record was created: an hour after it ended, and never while it runs. */
  lemma {:induction false} RecordsEndOnce(states: seq<Runs>, calls: seq<Call>, i: nat, j: nat, id: string)
    requires LazyRun(states, calls) && i <= j < |states| && id in states[i]
    ensures Kept(states, i, j, id) || exists k :: i <= k < j && DroppedAt(states, calls, k, id)
    decreases j
  {
    if i < j {
      RecordsEndOnce(states, calls, i, j - 1, id);
      if Kept(states, i, j - 1, id) { NextCallKeeps(states, calls, i, j - 1, id); }
    }
  }

  // ---- the store in memory ----

  class MemoryRunStore {
    var runs: Runs

    constructor ()
      ensures runs == map[]
    {
      runs := map[];
    }

    method Create(id: string, target: Target, settings: string, now: nat) returns (reply: Reply)
      modifies this
      ensures LazyStep(old(runs), Operation.Create(id, target, settings), now, runs, reply)
    {
      if Blank(id) { return Refused(BlankID); }
      PruneExpired(now);
      if id in runs { return Refused(Exists); }
      var run := Run(id, target, settings, Running, now, None, NO_RESULT, "");
      runs := runs[id := run];
      return Record(run);
    }

    method PruneExpired(now: nat)
      modifies this
      ensures runs == Live(old(runs), now)
    {
      var todo := runs.Keys;
      while todo != {}
        invariant todo <= runs.Keys <= old(runs).Keys
        invariant forall id :: id in runs ==> runs[id] == old(runs)[id]
        invariant forall id :: id in old(runs) && id !in todo ==> (id in runs <==> !IsExpired(old(runs)[id], now))
        decreases todo
      {
        var id :| id in todo;
        if IsExpired(runs[id], now) { runs := runs - {id}; }
        todo := todo - {id};
      }
    }

    method Get(id: string, now: nat) returns (reply: Reply)
      ensures LazyStep(runs, Operation.Get(id), now, runs, reply)
    {
      if id !in runs || IsExpired(runs[id], now) { return Refused(NotFound); }
      return Record(runs[id]);
    }

    method Complete(id: string, status: Status, result: Result, message: string, now: nat) returns (reply: Reply)
      modifies this
      ensures LazyStep(old(runs), Operation.Complete(id, status, result, message), now, runs, reply)
    {
      if !ValidCompletion(status, message) { return Refused(InvalidCompletion); }
      if id !in runs { return Refused(NotFound); }
      var run := runs[id];
      if !run.status.Running? { return Refused(AlreadyCompleted); }
      runs := runs[id := Completed(run, now, status, result, message)];
      return Ok;
    }

    method ListByTarget(target: Target, limit: int, now: nat) returns (reply: Reply)
      requires WellFormed(runs)
      ensures LazyStep(runs, Operation.ListByTarget(target, limit), now, runs, reply)
    {
      if limit < 1 || limit > MAX_RUN_LIST_LIMIT { return Refused(LimitOutOfRange); }
      var found := Collect(target, now);
      var sorted := SortBy(NewestFirst, found);
      var page := if |sorted| > limit then sorted[..limit] else sorted;
      SortedPrefixIsPage(Live(runs, now), target, limit, found);
      return Page(page);
    }

    /** The visible records of a target, in whatever order the map yields them. */
    method Collect(target: Target, now: nat) returns (found: seq<Run>)
      requires WellFormed(runs)
      ensures Collected(Live(runs, now), target, found)
    {
      found := [];
      var todo := runs.Keys;
      while todo != {}
        invariant todo <= runs.Keys
        invariant DistinctIDs(found)
        invariant forall i :: 0 <= i < |found| ==> Match(Live(runs, now), target, found[i]) && found[i].id !in todo
        invariant forall id :: id in Live(runs, now) && runs[id].target == target && id !in todo ==> Listed(found, id)
        decreases todo
      {
        var id :| id in todo;
        todo := todo - {id};
        if runs[id].target == target && !IsExpired(runs[id], now) {
          ghost var before := found;
          found := found + [Blanked(runs[id])];
          assert found[|before|].id == id;
          forall other | Listed(before, other) ensures Listed(found, other) {
            var i :| 0 <= i < |before| && before[i].id == other;
            assert found[i].id == other;
          }
        }
      }
    }

    method FailRunning(message: string, now: nat) returns (reply: Reply)
      modifies this
      ensures LazyStep(old(runs), Operation.FailRunning(message), now, runs, reply)
    {
      if !ValidCompletion(Failed, message) { return Refused(InvalidCompletion); }
      var ids: seq<string> := [];
      var todo := runs.Keys;
      while todo != {}
        invariant todo <= runs.Keys == old(runs).Keys
        invariant Distinct(ids)
        invariant forall id :: id in ids <==> id in old(runs) && id !in todo && old(runs)[id].status.Running?
        invariant forall id :: id in todo ==> runs[id] == old(runs)[id]
        invariant forall id :: id in runs && id !in todo ==> runs[id] == Interrupted(old(runs), now, message)[id]
        decreases todo
      {
        var id :| id in todo;
        if runs[id].status.Running? {
          runs := runs[id := Completed(runs[id], now, Failed, NO_RESULT, message)];
          ids := ids + [id];
        }
        todo := todo - {id};
      }
      SortKeepsDistinct(ids);
      assert runs == Interrupted(old(runs), now, message);
      return IDs(SortBy(AtMost, ids));
    }
  }

  predicate Match(runs: Runs, target: Target, run: Run) {
    run.id in runs && runs[run.id].target == target && run == Blanked(runs[run.id])
  }

  predicate DistinctIDs(page: seq<Run>) {
    forall i, j :: 0 <= i < j < |page| ==> page[i].id != page[j].id
  }

  /** Exactly the records of the target, without output. */
  ghost predicate Collected(runs: Runs, target: Target, found: seq<Run>) {
    && DistinctIDs(found)
    && (forall i :: 0 <= i < |found| ==> Match(runs, target, found[i]))
    && forall id :: id in runs && runs[id].target == target ==> Listed(found, id)
  }

  lemma NewestFirstIsTotal()
    ensures TotalPreorder(NewestFirst)
  {
    forall a, b ensures NewestFirst(a, b) || NewestFirst(b, a) { AtMostIsTotal(a.id, b.id); }
    forall a, b, c | NewestFirst(a, b) && NewestFirst(b, c) ensures NewestFirst(a, c) {
      if AtMost(a.id, b.id) && AtMost(b.id, c.id) { AtMostIsTransitive(a.id, b.id, c.id); }
    }
  }

  /** Sorting what was collected keeps it a strict listing. */
  lemma SortedIsCollected(runs: Runs, target: Target, found: seq<Run>)
    requires Collected(runs, target, found)
    ensures Collected(runs, target, SortBy(NewestFirst, found)) && SortedBy(NewestFirst, SortBy(NewestFirst, found))
  {
    var sorted := SortBy(NewestFirst, found);
    NewestFirstIsTotal();
    SortByCorrect(NewestFirst, found);
    DistinctOccurOnce(found);
    OccurOnceDistinct(sorted);
    SameMultisetSameMembers(sorted, found);
    forall i | 0 <= i < |sorted| ensures Match(runs, target, sorted[i]) {
      assert sorted[i] in found;
    }
    forall id | id in runs && runs[id].target == target ensures Listed(sorted, id) {
      assert Listed(found, id);
      var i :| 0 <= i < |found| && found[i].id == id;
      assert found[i] in sorted;
    }
  }

  lemma SortedPrefixIsPage(runs: Runs, target: Target, limit: int, found: seq<Run>)
    requires WellFormed(runs) && limit >= 1 && Collected(runs, target, found)
    ensures var sorted := SortBy(NewestFirst, found);
            IsPage(runs, target, limit, if |sorted| > limit then sorted[..limit] else sorted)
  {
    SortedIsCollected(runs, target, found);
    var sorted := SortBy(NewestFirst, found);
    PrefixIsPage(runs, target, limit, sorted, if |sorted| > limit then limit else |sorted|);
    assert sorted[..|sorted|] == sorted;
  }

  lemma PrefixIsPage(runs: Runs, target: Target, limit: int, sorted: seq<Run>, size: nat)
    requires WellFormed(runs) && Collected(runs, target, sorted) && SortedBy(NewestFirst, sorted)
    requires size <= |sorted| && size <= limit && (size == limit || size == |sorted|)
    ensures IsPage(runs, target, limit, sorted[..size])
  {
    var page := sorted[..size];
    forall i, j | 0 <= i < j < |page| ensures Before(page[i], page[j]) {
      assert NewestFirst(sorted[i], sorted[j]);
    }
    forall id | id in runs && runs[id].target == target
      ensures Listed(page, id) || (|page| == limit && forall i :: 0 <= i < |page| ==> Before(page[i], runs[id]))
    {
      ListedOrLater(runs, target, sorted, size, id);
    }
    forall i | 0 <= i < |page|
      ensures page[i].id in runs && runs[page[i].id].target == target && page[i] == Blanked(runs[page[i].id])
    {
      assert Match(runs, target, sorted[i]);
    }
  }

  lemma ListedOrLater(runs: Runs, target: Target, sorted: seq<Run>, size: nat, id: string)
    requires WellFormed(runs) && Collected(runs, target, sorted) && SortedBy(NewestFirst, sorted)
    requires size <= |sorted| && id in runs && runs[id].target == target
    ensures Listed(sorted[..size], id) || (size < |sorted| && forall i :: 0 <= i < size ==> Before(sorted[..size][i], runs[id]))
  {
  }
}
