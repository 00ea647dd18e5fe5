/** Discovery of instances across namespaces (backend/internal/everest/instances.go):
    listNamespaceInstances as a step relation over its loop and its goroutines, and the loops before and
    after it. */
module Discovery {
  import opened GoText
  import opened Sorting

  const CONCURRENCY: nat := 4

  /** What the discovery service lists for one namespace. */
  datatype Instance = Instance(name: string, provider: string)

  type Listing = seq<Instance>

  type Failure = string

  datatype Reply = Listed(items: Listing) | Failed(error: Failure)

  datatype Task = Fetching | Releasing | Leaving

  datatype Loop = Selecting | Checking(gotSlot: bool) | Ended

  datatype Outcome = Results(listings: seq<Listing>) | Error(error: Failure) | ContextError

  datatype State = State(
    next: nat,
    loop: Loop,
    cancelled: bool,
    callerCancelled: bool,
    slots: nat,                      // slots taken from the channel
    leaked: nat,                     // slots that the loop kept when it broke off
    tasks: map<nat, Task>,           // by index of the namespace; those that left are gone
    results: seq<Option<Listing>>,
    firstErr: Option<Failure>,
    outcome: Option<Outcome>,
    /** What was answered for each namespace, and the failures in the order they were recorded. */
    answers: map<string, Reply>,
    failures: seq<Failure>)

  datatype Step =
    | TakeSlot
    | SeeDone
    | Check
    | Answer(i: nat, reply: Reply)
    | ReturnSlot(i: nat)
    | Leave(i: nat)
    | CallerCancels
    | Return

  function Start(n: nat): State {
    State(0, if n == 0 then Ended else Selecting, false, false, 0, 0, map[], seq(n, _ => None), None, None, map[], [])
  }

  predicate Enabled(names: seq<string>, s: State, step: Step) {
    s.outcome.None? &&
    match step
    case TakeSlot => s.loop.Selecting? && s.slots < CONCURRENCY
    case SeeDone => s.loop.Selecting? && s.cancelled
    case Check => s.loop.Checking? && s.next < |names|
    case Answer(i, _) => i in s.tasks && s.tasks[i].Fetching? && i < |s.results| == |names|
    case ReturnSlot(i) => i in s.tasks && s.tasks[i].Releasing?
    case Leave(i) => i in s.tasks && s.tasks[i].Leaving?
    case CallerCancels => true
    case Return => s.loop.Ended? && s.tasks == map[]
  }

  function Listings(results: seq<Option<Listing>>): (listings: seq<Listing>)
    ensures |listings| == |results|
  {
    // A nil entry of the slice is an empty listing.
    seq(|results|, i requires 0 <= i < |results| => if results[i].Some? then results[i].value else [])
  }

  function Apply(names: seq<string>, s: State, step: Step): State
    requires Enabled(names, s, step)
  {
    match step
    case TakeSlot => s.(loop := Checking(true), slots := s.slots + 1)
    case SeeDone => s.(loop := Checking(false))
    case Check =>
      if s.cancelled then s.(loop := Ended, leaked := s.leaked + if s.loop.gotSlot then 1 else 0)
      else s.(tasks := s.tasks[s.next := Fetching], next := s.next + 1, loop := if s.next + 1 == |names| then Ended else Selecting)
    case Answer(i, reply) =>
      var t := s.(tasks := s.tasks[i := Releasing], answers := s.answers[names[i] := reply]);
      if reply.Listed? then t.(results := s.results[i := Some(reply.items)])
      else t.(firstErr := if s.firstErr.None? then Some(reply.error) else s.firstErr, cancelled := true,
              failures := s.failures + [reply.error])
    case ReturnSlot(i) => s.(tasks := s.tasks[i := Leaving], slots := if s.slots > 0 then s.slots - 1 else 0)
    case Leave(i) => s.(tasks := s.tasks - {i})
    case CallerCancels => s.(cancelled := true, callerCancelled := true)
    case Return =>
      s.(outcome := Some(if s.firstErr.Some? then Error(s.firstErr.value)
                         else if s.cancelled then ContextError
                         else Results(Listings(s.results))))
  }

  ghost predicate History(names: seq<string>, steps: seq<Step>, states: seq<State>) {
    && |states| == |steps| + 1 && states[0] == Start(|names|)
    && forall i {:trigger steps[i]} :: 0 <= i < |steps| ==>
         Enabled(names, states[i], steps[i]) && states[i + 1] == Apply(names, states[i], steps[i])
  }

  // ---- four requests at a time ----

  function Holding(tasks: map<nat, Task>): set<nat> { set i | i in tasks && !tasks[i].Leaving? }

  function InFlight(s: State): set<nat> { set i | i in s.tasks && s.tasks[i].Fetching? }

  function Held(loop: Loop): nat { if loop.Checking? && loop.gotSlot then 1 else 0 }

  /** The channel holds one token for each task that has not given its back, and those of the loop. */
  ghost predicate Counted(s: State) {
    s.slots == |Holding(s.tasks)| + Held(s.loop) + s.leaked && s.slots <= CONCURRENCY
  }

  lemma HoldingUpdate(tasks: map<nat, Task>, i: nat, to: Task)
    ensures var was := i in tasks && !tasks[i].Leaving?;
            |Holding(tasks[i := to])| == |Holding(tasks)| + (if to.Leaving? then 0 else 1) - if was then 1 else 0
  {
    var before, after := Holding(tasks), Holding(tasks[i := to]);
    if to.Leaving? {
      assert after == before - {i};
    } else {
      assert after == before + {i};
    }
  }

  lemma StepKeepsCounted(names: seq<string>, s: State, step: Step)
    requires Counted(s) && Launched(names, s) && Enabled(names, s, step)
    ensures Counted(Apply(names, s, step))
  {
    match step
    case Check => if !s.cancelled { HoldingUpdate(s.tasks, s.next, Fetching); }
    case Answer(i, _) => HoldingUpdate(s.tasks, i, Releasing);
    case ReturnSlot(i) => HoldingUpdate(s.tasks, i, Leaving);
    case Leave(i) => assert Holding(s.tasks - {i}) == Holding(s.tasks);
    case _ =>
  }

  // ---- what each task leaves behind ----

  /** Tasks are those of the namespaces that the loop has passed; without a slot the loop has seen the end. */
  ghost predicate Launched(names: seq<string>, s: State) {
    && s.next <= |names| && |s.results| == |names|
    && (forall i :: i in s.tasks ==> i < s.next)
    && (s.loop.Checking? && !s.loop.gotSlot ==> s.cancelled)
    && (s.loop.Ended? ==> s.next == |names| || s.cancelled)
    && (!s.loop.Ended? ==> s.next < |names|)
  }

  /** Each finished task has stored what was answered for its own namespace. */
  ghost predicate Answered(names: seq<string>, s: State)
    requires Launched(names, s)
  {
    forall i :: 0 <= i < s.next && !(i in s.tasks && s.tasks[i].Fetching?) ==>
      names[i] in s.answers && (s.answers[names[i]].Listed? ==> s.results[i] == Some(s.answers[names[i]].items))
  }

  /** The recorded error is that of the first failure; only the caller and a failure cancel. */
  ghost predicate FirstFailure(s: State) {
    && (s.firstErr.None? <==> s.failures == [])
    && (s.failures != [] ==> s.firstErr == Some(s.failures[0]))
    && (s.cancelled <==> s.callerCancelled || s.failures != [])
    && (forall name :: name in s.answers && s.answers[name].Failed? ==> s.failures != [])
  }

  /** The result, once there is one. */
  ghost predicate Right(names: seq<string>, s: State) {
    match s.outcome
    case None => true
    case Some(Results(listings)) =>
      |listings| == |names| && s.failures == []
      && forall i :: 0 <= i < |names| ==> names[i] in s.answers && s.answers[names[i]] == Listed(listings[i])
    case Some(Error(error)) => s.failures != [] && error == s.failures[0]
    case Some(ContextError) => s.failures == [] && s.callerCancelled
  }

  ghost predicate Inv(names: seq<string>, s: State) {
    Counted(s) && Launched(names, s) && Answered(names, s) && FirstFailure(s) && Right(names, s)
  }

  lemma StepKeepsLaunched(names: seq<string>, s: State, step: Step)
    requires Launched(names, s) && Enabled(names, s, step)
    ensures Launched(names, Apply(names, s, step))
  {
  }

  lemma StepKeepsAnswered(names: seq<string>, s: State, step: Step)
    requires Distinct(names) && Launched(names, s) && Answered(names, s) && Enabled(names, s, step)
    ensures Launched(names, Apply(names, s, step)) && Answered(names, Apply(names, s, step))
  {
    StepKeepsLaunched(names, s, step);
    var t := Apply(names, s, step);
    forall i | 0 <= i < t.next && !(i in t.tasks && t.tasks[i].Fetching?)
      ensures names[i] in t.answers && (t.answers[names[i]].Listed? ==> t.results[i] == Some(t.answers[names[i]].items))
    {
      if step.Answer? && i != step.i {
        assert names[i] != names[step.i];
      }
    }
  }

  lemma StepKeepsFirstFailure(names: seq<string>, s: State, step: Step)
    requires FirstFailure(s) && Enabled(names, s, step)
    ensures FirstFailure(Apply(names, s, step))
  {
  }

  lemma ReturnIsRight(names: seq<string>, s: State)
    requires Launched(names, s) && Answered(names, s) && FirstFailure(s) && Enabled(names, s, Return)
    ensures Right(names, Apply(names, s, Return))
  {
  }

  lemma StepKeepsInv(names: seq<string>, s: State, step: Step)
    requires Distinct(names) && Inv(names, s) && Enabled(names, s, step)
    ensures Inv(names, Apply(names, s, step))
  {
    StepKeepsCounted(names, s, step);
    StepKeepsAnswered(names, s, step);
    StepKeepsFirstFailure(names, s, step);
    if step.Return? { ReturnIsRight(names, s); } else { assert Apply(names, s, step).outcome.None?; }
  }

  lemma {:induction false} EveryStateIsGood(names: seq<string>, steps: seq<Step>, states: seq<State>, i: nat)
    requires Distinct(names) && History(names, steps, states) && i < |states|
    ensures Inv(names, states[i])
    decreases i
  {
    if i > 0 {
      EveryStateIsGood(names, steps, states, i - 1);
      StepKeepsInv(names, states[i - 1], steps[i - 1]);
    } else {
      assert Holding(map[]) == {};
    }
  }

  /** At most four requests are in flight, whatever the interleaving. */
  lemma FourInFlight(names: seq<string>, steps: seq<Step>, states: seq<State>, i: nat)
    requires Distinct(names) && History(names, steps, states) && i < |states|
    ensures |InFlight(states[i])| <= CONCURRENCY
  {
    EveryStateIsGood(names, steps, states, i);
    var s := states[i];
    SubsetCount(InFlight(s), Holding(s.tasks));
  }

  /** Success means that every namespace was listed and each result is its own namespace's; a failure that
      is reported is the first one recorded. */
  lemma OutcomeIsRight(names: seq<string>, steps: seq<Step>, states: seq<State>, i: nat)
    requires Distinct(names) && History(names, steps, states) && i < |states| && states[i].outcome.Some?
    ensures Right(names, states[i])
  {
    EveryStateIsGood(names, steps, states, i);
  }

  // ---- before: the namespaces ----

  /** The first occurrences, in order. */
  ghost predicate FirstOccurrences(names: seq<string>, unique: seq<string>, at: seq<nat>) {
    && |at| == |unique|
    && (forall j :: 0 <= j < |at| ==> at[j] < |names| && names[at[j]] == unique[j] && unique[j] !in names[..at[j]])
    && (forall j, k :: 0 <= j < k < |at| ==> at[j] < at[k])
  }

  method UniqueNamespaces(names: seq<string>) returns (unique: seq<string>, ghost at: seq<nat>)
    ensures Distinct(unique) && FirstOccurrences(names, unique, at)
    ensures forall name :: name in unique <==> name in names && !Blank(name)
  {
    unique, at := [], [];
    var seen: set<string> := {};
    for i := 0 to |names|
      invariant Distinct(unique) && FirstOccurrences(names, unique, at)
      invariant forall j :: 0 <= j < |at| ==> at[j] < i
      invariant forall name :: name in seen <==> name in unique
      invariant forall name :: name in unique <==> name in names[..i] && !Blank(name)
    {
      assert names[..i + 1] == names[..i] + [names[i]];
      if Blank(names[i]) || names[i] in seen { continue; }
      seen := seen + {names[i]};
      unique, at := unique + [names[i]], at + [i];
    }
    assert names[..|names|] == names;
  }

  // ---- after: one sorted list ----

  datatype Summary = Summary(namespace: string, name: string, provider: string)

  predicate Usable(instance: Instance) { !Blank(instance.name) && !Blank(instance.provider) }

  predicate InOrder(a: Summary, b: Summary) {
    (a.namespace != b.namespace && AtMost(a.namespace, b.namespace)) || (a.namespace == b.namespace && AtMost(a.name, b.name))
  }

  /** The provider of the first usable instance of this name. */
  function ProviderOf(items: Listing, name: string): Option<string> {
    if items == [] then None
    else
      var last := items[|items| - 1];
      var earlier := ProviderOf(items[..|items| - 1], name);
      if earlier.None? && Usable(last) && last.name == name then Some(last.provider) else earlier
  }

  /** One entry for each usable name of the namespace. */
  ghost predicate Summarizes(entries: seq<Summary>, namespace: string, items: Listing) {
    && Distinct(entries)
    && forall e :: e in entries <==> e.namespace == namespace && ProviderOf(items, e.name) == Some(e.provider)
  }

  method Summarize(namespace: string, items: Listing) returns (entries: seq<Summary>)
    ensures Summarizes(entries, namespace, items)
  {
    entries := [];
    var seen: set<string> := {};
    for n := 0 to |items|
      invariant Summarizes(entries, namespace, items[..n])
      invariant forall name :: name in seen <==> ProviderOf(items[..n], name).Some?
    {
      assert items[..n + 1][..n] == items[..n];
      var item := items[n];
      if !Usable(item) || item.name in seen { continue; }
      seen := seen + {item.name};
      entries := entries + [Summary(namespace, item.name, item.provider)];
    }
    assert items[..|items|] == items;
  }

  /** The entry is that of an instance in one of the first n namespaces. */
  ghost predicate Belongs(e: Summary, names: seq<string>, listings: seq<Listing>, n: nat)
    requires n <= |names| == |listings|
  {
    exists i :: 0 <= i < n && e.namespace == names[i] && ProviderOf(listings[i], e.name) == Some(e.provider)
  }

  ghost predicate Merged(merged: seq<Summary>, names: seq<string>, listings: seq<Listing>, n: nat)
    requires n <= |names| == |listings|
  {
    Distinct(merged) && forall e :: e in merged <==> Belongs(e, names, listings, n)
  }

  /** The merge loop and the final sort: exactly one entry for each usable name of each namespace, in order. */
  method MergeInstances(names: seq<string>, listings: seq<Listing>) returns (merged: seq<Summary>)
    requires Distinct(names) && |names| == |listings|
    ensures Merged(merged, names, listings, |names|) && SortedBy(InOrder, merged)
  {
    var all: seq<Summary> := [];
    for n := 0 to |names|
      invariant Merged(all, names, listings, n)
    {
      var entries := Summarize(names[n], listings[n]);
      MergeOneMore(all, entries, names, listings, n);
      all := all + entries;
    }
    merged := SortBy(InOrder, all);
    SortKeepsMembers(all);
  }

  lemma MergeOneMore(all: seq<Summary>, entries: seq<Summary>, names: seq<string>, listings: seq<Listing>, n: nat)
    requires n < |names| == |listings| && Distinct(names)
    requires Merged(all, names, listings, n) && Summarizes(entries, names[n], listings[n])
    ensures Merged(all + entries, names, listings, n + 1)
  {
    forall e ensures e in all + entries <==> Belongs(e, names, listings, n + 1) {
      assert Belongs(e, names, listings, n) ==> Belongs(e, names, listings, n + 1);
    }
    forall e | e in all ensures e !in entries {
      var i :| 0 <= i < n && e.namespace == names[i];
      assert names[i] != names[n];
    }
    AppendDistinct(all, entries);
  }

  lemma AppendDistinct<T>(a: seq<T>, b: seq<T>)
    requires Distinct(a) && Distinct(b) && forall x :: x in a ==> x !in b
    ensures Distinct(a + b)
  {
    forall i, j | 0 <= i < j < |a + b| ensures (a + b)[i] != (a + b)[j] {
      if i < |a| <= j { assert a[i] in a && b[j - |a|] in b; }
    }
  }

  lemma SortKeepsMembers(all: seq<Summary>)
    requires Distinct(all)
    ensures var merged := SortBy(InOrder, all);
            SortedBy(InOrder, merged) && Distinct(merged) && forall e :: e in merged <==> e in all
  {
    InOrderSorts();
    SortByCorrect(InOrder, all);
    DistinctOccurOnce(all);
    OccurOnceDistinct(SortBy(InOrder, all));
    SameMultisetSameMembers(SortBy(InOrder, all), all);
  }

  lemma InOrderSorts()
    ensures TotalPreorder(InOrder)
  {
    AtMostSorts();
    forall a: string, b: string | AtMost(a, b) && AtMost(b, a) ensures a == b { AtMostIsTotal(a, b); }
    forall a: Summary, b: Summary ensures InOrder(a, b) || InOrder(b, a) {
      AtMostIsTotal(a.namespace, b.namespace);
      AtMostIsTotal(a.name, b.name);
    }
    forall a: Summary, b: Summary, c: Summary | InOrder(a, b) && InOrder(b, c) ensures InOrder(a, c) {
      if AtMost(a.namespace, b.namespace) && AtMost(b.namespace, c.namespace) { AtMostIsTransitive(a.namespace, b.namespace, c.namespace); }
      if AtMost(a.name, b.name) && AtMost(b.name, c.name) { AtMostIsTransitive(a.name, b.name, c.name); }
    }
  }
}
