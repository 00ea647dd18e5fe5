/** Removing what earlier processes left behind
    (backend/internal/coordinator/recovery.go, retryOrphanCleanup in backend/storage.go). */
module OrphanCleanup {
  import opened GoText
  import opened Cluster
  import opened Coordinator

  datatype CleanupError = ListFailed(kind: Kind) | DeleteFailed(key: Key)

  /** No object of this kind is left from an earlier process of the installation. */
  ghost predicate NoOrphans(api: API, kind: Kind, w: World) {
    forall k :: k in w.objects && k.kind == kind ==> !Orphan(api.installation, api.process, w.objects[k].labels)
  }

  /** Requests sent in this period removed orphans only. */
  ghost predicate RemovesOrphans(api: API, v: World, w: World) {
    && Moves(api.installation, api.process, v, w)
    && forall i :: |v.removed| <= i < |w.removed| ==> Orphan(api.installation, api.process, w.removed[i].labels)
  }

  lemma RemovalsCompose(api: API, u: World, v: World, w: World)
    requires RemovesOrphans(api, u, v) && RemovesOrphans(api, v, w)
    ensures RemovesOrphans(api, u, w) && Lasting(v, w)
  {
  }

  /** This item is an orphan, and the API knows it by this name and UID. */
  ghost predicate Target(api: API, kind: Kind, item: (string, Object), w: World) {
    && item.1.uid > 0 && Orphan(api.installation, api.process, item.1.labels)
    && Known(w, Key(kind, item.0), item.1.uid, item.1.labels)
  }

  ghost predicate Targets(api: API, kind: Kind, items: seq<(string, Object)>, w: World) {
    forall i :: 0 <= i < |items| ==> Target(api, kind, items[i], w)
  }

  lemma TargetsLast(api: API, kind: Kind, items: seq<(string, Object)>, v: World, w: World)
    requires Targets(api, kind, items, v) && Lasting(v, w)
    ensures Targets(api, kind, items, w)
  {
  }

  /** The list holds every orphan of the kind. */
  ghost predicate Complete(api: API, kind: Kind, items: seq<(string, Object)>, w: World) {
    forall k :: k in w.objects && k.kind == kind && Orphan(api.installation, api.process, w.objects[k].labels) ==>
      (k.name, w.objects[k]) in items
  }

  method ListTargets(api: API, ctx: Context, kind: Kind) returns (items: Option<seq<(string, Object)>>)
    requires api.Valid()
    modifies api
    ensures api.Valid() && RemovesOrphans(api, old(api.Now()), api.Now())
    ensures items.Some? ==> Targets(api, kind, items.value, api.Now()) && Complete(api, kind, items.value, api.Now())
    ensures items.None? ==> Happened(OrphansUnlisted(kind), old(api.Now()), api.Now())
  {
    ghost var start := api.Now();
    items := api.ListOrphans(kind, ctx);
    JustHappened(api.events[|start.events|], start, api.Now(), |start.events|);
  }

  /** One delete request; a Secret goes through the same checks as in a run, a Job does not. */
  method DeleteTarget(api: API, ctx: Context, kind: Kind, item: (string, Object)) returns (ok: bool)
    requires api.Valid() && Target(api, kind, item, api.Now())
    modifies api
    ensures api.Valid() && RemovesOrphans(api, old(api.Now()), api.Now())
    ensures ok ==> Removed(api.Now(), item.1.uid)
    ensures !ok ==> Undeleted(old(api.Now()), api.Now(), ctx, kind, DeleteFailed(Key(kind, item.0)))
  {
    ghost var start := api.Now();
    match kind
    case Job =>
      var reply := api.DeleteObject(Key(Job, item.0), item.1.uid, false, ctx, item.1.labels);
      ok := !reply.Rejected?;
      if !ok { JustHappened(DeleteRefused(Job), start, api.Now(), |start.events| + 1); }
    case Secret =>
      ok := DeleteCredentialSecret(api, ctx, Ref(item.0, item.1.uid), item.1.labels, NO_REF);
  }

  /** The object could not be deleted: the request was refused, or for a Secret not even sent, because the
      context had ended or the name is blank. */
  ghost predicate Undeleted(v: World, w: World, ctx: Context, kind: Kind, e: CleanupError) {
    && e.DeleteFailed? && e.key.kind == kind
    && (Happened(DeleteRefused(kind), v, w) || (kind.Secret? && (Over(ctx, w) || Blank(e.key.name))))
  }

  predicate Over(ctx: Context, w: World) { (ctx.cancellable && w.cancelled) || w.now >= ctx.deadline }

  /** Every listed object was either removed or reported, or the list itself failed. */
  ghost predicate Accounted(v: World, w: World, ctx: Context, kind: Kind, listed: Option<seq<(string, Object)>>,
                            count: nat, errors: seq<CleanupError>) {
    if listed.None? then count == 0 && errors == [ListFailed(kind)] && Happened(OrphansUnlisted(kind), v, w)
    else count + |errors| == |listed.value| && forall i :: 0 <= i < |errors| ==> Undeleted(v, w, ctx, kind, errors[i])
  }

  lemma AccountStands(u: World, v: World, w: World, x: World, ctx: Context, kind: Kind, listed: Option<seq<(string, Object)>>,
                      count: nat, errors: seq<CleanupError>)
    requires Accounted(v, w, ctx, kind, listed, count, errors) && Before(u, v) && Before(v, w) && Before(w, x)
    ensures Accounted(u, x, ctx, kind, listed, count, errors)
  {
  }

  /** Lists and deletes the orphans of one kind; a missing object counts as removed. */
  method CleanupKind(api: API, ctx: Context, kind: Kind)
    returns (count: nat, errors: seq<CleanupError>, ghost listed: Option<seq<(string, Object)>>)
    requires api.Valid()
    modifies api
    ensures api.Valid() && RemovesOrphans(api, old(api.Now()), api.Now())
    ensures Accounted(old(api.Now()), api.Now(), ctx, kind, listed, count, errors)
    ensures errors == [] ==> NoOrphans(api, kind, api.Now())
  {
    ghost var start := api.Now();
    var reply := ListTargets(api, ctx, kind);
    listed := reply;
    if reply.None? { return 0, [ListFailed(kind)], None; }
    var items := reply.value;
    ghost var seen := api.Now();
    count, errors := DeleteTargets(api, ctx, kind, items);
    RemovalsCompose(api, start, seen, api.Now());
    AccountStands(start, seen, api.Now(), api.Now(), ctx, kind, listed, count, errors);
    if errors == [] { AllGone(api, kind, items, seen, api.Now()); }
  }

  method DeleteTargets(api: API, ctx: Context, kind: Kind, items: seq<(string, Object)>) returns (count: nat, errors: seq<CleanupError>)
    requires api.Valid() && Targets(api, kind, items, api.Now())
    modifies api
    ensures api.Valid() && RemovesOrphans(api, old(api.Now()), api.Now())
    ensures Accounted(old(api.Now()), api.Now(), ctx, kind, Some(items), count, errors)
    ensures errors == [] ==> AllRemoved(items, api.Now())
  {
    ghost var start := api.Now();
    count, errors := 0, [];
    RemovesNothing(api);
    for n := 0 to |items|
      invariant api.Valid() && RemovesOrphans(api, start, api.Now())
      invariant Targets(api, kind, items, api.Now())
      invariant Accounted(start, api.Now(), ctx, kind, Some(items[..n]), count, errors)
      invariant errors == [] ==> AllRemoved(items[..n], api.Now())
    {
      var ok := DeleteNext(api, ctx, kind, items, n, count, errors, start);
      if ok {
        count := count + 1;
      } else {
        errors := errors + [DeleteFailed(Key(kind, items[n].0))];
      }
    }
    assert items[..|items|] == items;
  }

  /** The next object of the list; start is when the deletions began. */
  method DeleteNext(api: API, ctx: Context, kind: Kind, items: seq<(string, Object)>, n: nat,
                    ghost count: nat, ghost errors: seq<CleanupError>, ghost start: World) returns (ok: bool)
    requires api.Valid() && RemovesOrphans(api, start, api.Now()) && n < |items| && Targets(api, kind, items, api.Now())
    requires Accounted(start, api.Now(), ctx, kind, Some(items[..n]), count, errors)
    requires errors == [] ==> AllRemoved(items[..n], api.Now())
    modifies api
    ensures api.Valid() && RemovesOrphans(api, start, api.Now()) && Targets(api, kind, items, api.Now())
    ensures Accounted(start, api.Now(), ctx, kind, Some(items[..n + 1]), if ok then count + 1 else count,
                      if ok then errors else errors + [DeleteFailed(Key(kind, items[n].0))])
    ensures ok && errors == [] ==> AllRemoved(items[..n + 1], api.Now())
  {
    ghost var before := api.Now();
    assert Target(api, kind, items[n], before);
    ok := DeleteTarget(api, ctx, kind, items[n]);
    RemovalsCompose(api, start, before, api.Now());
    TargetsLast(api, kind, items, before, api.Now());
    AccountStands(start, start, before, api.Now(), ctx, kind, Some(items[..n]), count, errors);
    OneMoreAccounted(start, before, api.Now(), ctx, kind, items, n, count, errors, ok);
    if ok && errors == [] { OneMoreRemoved(items, n, before, api.Now()); }
  }

  lemma OneMoreAccounted(v: World, m: World, w: World, ctx: Context, kind: Kind, items: seq<(string, Object)>, n: nat,
                         count: nat, errors: seq<CleanupError>, ok: bool)
    requires n < |items| && Accounted(v, w, ctx, kind, Some(items[..n]), count, errors) && Before(v, m) && Before(m, w)
    requires !ok ==> Undeleted(m, w, ctx, kind, DeleteFailed(Key(kind, items[n].0)))
    ensures Accounted(v, w, ctx, kind, Some(items[..n + 1]), if ok then count + 1 else count,
                      if ok then errors else errors + [DeleteFailed(Key(kind, items[n].0))])
  {
  }

  ghost predicate AllRemoved(items: seq<(string, Object)>, w: World) {
    forall i :: 0 <= i < |items| ==> Removed(w, items[i].1.uid)
  }

  lemma OneMoreRemoved(items: seq<(string, Object)>, n: nat, v: World, w: World)
    requires n < |items| && AllRemoved(items[..n], v) && Lasting(v, w) && Removed(w, items[n].1.uid)
    ensures AllRemoved(items[..n + 1], w)
  {
  }

  lemma RemovesNothing(api: API)
    requires api.Valid()
    ensures RemovesOrphans(api, api.Now(), api.Now())
  {
  }

  /** When all that a complete list held is gone, nothing is left: orphans are never added. */
  lemma AllGone(api: API, kind: Kind, items: seq<(string, Object)>, v: World, w: World)
    requires Moves(api.installation, api.process, v, w) && Complete(api, kind, items, v)
    requires AllRemoved(items, w)
    ensures NoOrphans(api, kind, w)
  {
  }

  lemma NoOrphansLasts(api: API, kind: Kind, v: World, w: World)
    requires Moves(api.installation, api.process, v, w) && NoOrphans(api, kind, v)
    ensures NoOrphans(api, kind, w)
  {
  }

  ghost predicate Clean(api: API, w: World) {
    NoOrphans(api, Job, w) && NoOrphans(api, Secret, w)
  }

  /** CleanupOrphanedResources: whatever fails, only orphans are removed; without an error none is left. */
  method CleanupOrphanedResources(api: API, ctx: Context)
    returns (jobs: nat, secrets: nat, errors: seq<CleanupError>,
             ghost jobList: Option<seq<(string, Object)>>, ghost secretList: Option<seq<(string, Object)>>)
    requires api.Valid()
    modifies api
    ensures api.Valid() && RemovesOrphans(api, old(api.Now()), api.Now())
    ensures exists j, s ::
              && errors == j + s && Accounted(old(api.Now()), api.Now(), ctx, Job, jobList, jobs, j)
              && Accounted(old(api.Now()), api.Now(), ctx, Secret, secretList, secrets, s)
    ensures errors == [] ==> Clean(api, api.Now())
  {
    ghost var start := api.Now();
    var jobErrors, secretErrors;
    jobs, jobErrors, jobList := CleanupKind(api, ctx, Job);
    ghost var middle := api.Now();
    secrets, secretErrors, secretList := CleanupKind(api, ctx, Secret);
    RemovalsCompose(api, start, middle, api.Now());
    AccountStands(start, start, middle, api.Now(), ctx, Job, jobList, jobs, jobErrors);
    AccountStands(start, middle, api.Now(), api.Now(), ctx, Secret, secretList, secrets, secretErrors);
    if jobErrors == [] { NoOrphansLasts(api, Job, middle, api.Now()); }
    errors := jobErrors + secretErrors;
  }

  // ---- retrying in the background ----

  const RECOVERY_TIMEOUT: nat := 30 * SECOND

  function Min(a: nat, b: nat): nat { if a <= b then a else b }

  function Doubled(delay: nat, times: nat): nat { if times == 0 then delay else 2 * Doubled(delay, times - 1) }

  ghost predicate Backoff(delays: seq<nat>, delay: nat, maxDelay: nat) {
    forall n :: 0 <= n < |delays| ==> delays[n] == Min(Doubled(delay, n), maxDelay)
  }

  lemma OneMoreDelay(delays: seq<nat>, delay: nat, maxDelay: nat)
    requires Backoff(delays, delay, maxDelay)
    ensures Backoff(delays + [Min(Doubled(delay, |delays|), maxDelay)], delay, maxDelay)
    ensures Min(2 * Min(Doubled(delay, |delays|), maxDelay), maxDelay) == Min(Doubled(delay, |delays| + 1), maxDelay)
  {
  }

  /** One wait and, unless the context ended meanwhile, one cleanup. */
  method Attempt(api: API, ctx: Context, wait: nat) returns (cleaned: bool)
    requires api.Valid() && wait > 0
    modifies api
    ensures api.Valid() && RemovesOrphans(api, old(api.Now()), api.Now())
    ensures cleaned ==> Clean(api, api.Now())
    ensures !cleaned && !api.Expired(ctx) ==> old(api.now) < api.now < ctx.deadline
  {
    ghost var start := api.Now();
    api.Sleep(wait, ctx);
    if api.Expired(ctx) { return false; }
    ghost var middle := api.Now();
    var _, _, errors, _, _ := CleanupOrphanedResources(api, Context(ctx.cancellable, Min(ctx.deadline, api.now + RECOVERY_TIMEOUT)));
    RemovalsCompose(api, start, middle, api.Now());
    cleaned := errors == [];
  }

  /** retryOrphanCleanup: doubling delays up to a cap, until cleanup succeeds or the context ends. */
  method RetryOrphanCleanup(api: API, ctx: Context, delay: nat, maxDelay: nat) returns (cleaned: bool, ghost delays: seq<nat>)
    requires api.Valid() && 0 < delay <= maxDelay
    modifies api
    ensures api.Valid() && RemovesOrphans(api, old(api.Now()), api.Now())
    ensures cleaned ==> Clean(api, api.Now())
    ensures !cleaned ==> api.Expired(ctx)
    ensures delays != [] && Backoff(delays, delay, maxDelay)
  {
    ghost var start := api.Now();
    RemovesNothing(api);
    var wait := delay;
    delays := [];
    while true
      invariant api.Valid() && RemovesOrphans(api, start, api.Now())
      invariant wait == Min(Doubled(delay, |delays|), maxDelay) && wait > 0
      invariant Backoff(delays, delay, maxDelay)
      decreases ctx.deadline - api.now
    {
      OneMoreDelay(delays, delay, maxDelay);
      delays := delays + [wait];
      ghost var before := api.Now();
      cleaned := Attempt(api, ctx, wait);
      RemovalsCompose(api, start, before, api.Now());
      if cleaned || api.Expired(ctx) { return; }
      wait := Min(2 * wait, maxDelay);
    }
  }

  // ---- over many processes ----

  /** One process of the installation: the cluster when it started and when it ended or crashed. */
  datatype Life = Life(process: string, begin: World, end: World)

  predicate Ours(installation: string, l: Labels) {
    l.managedBy == MANAGED_BY && l.installation == installation
  }

  /** While no process lives, nobody creates objects of the installation. */
  ghost predicate Quiet(installation: string, v: World, w: World) {
    && v.next <= w.next
    && (forall k :: k in w.objects ==> w.objects[k].uid < w.next && SameOrNew(v.objects, v.next, k, w.objects[k]))
    && (forall k :: k in w.objects && w.objects[k].uid >= v.next ==> !Ours(installation, w.objects[k].labels))
  }

  ghost predicate Generations(installation: string, lives: seq<Life>) {
    && (forall i :: 0 <= i < |lives| ==> Moves(installation, lives[i].process, lives[i].begin, lives[i].end))
    && (forall i :: 0 < i < |lives| ==> Quiet(installation, lives[i - 1].end, lives[i].begin))
  }

  /** Every object of the installation was made by one of these processes. */
  ghost predicate MadeBy(installation: string, w: World, makers: set<string>) {
    forall k :: k in w.objects && Ours(installation, w.objects[k].labels) ==> w.objects[k].labels.process in makers
  }

  function Makers(lives: seq<Life>): set<string> {
    set i | 0 <= i < |lives| :: lives[i].process
  }

  lemma LifeAddsOwn(installation: string, process: string, v: World, w: World, makers: set<string>)
    requires Moves(installation, process, v, w) && MadeBy(installation, v, makers)
    ensures MadeBy(installation, w, makers + {process})
  {
  }

  /** A cleanup without error is final: after it, through any number of crashes and restarts, every object
      of the installation was made by the process that cleaned up or by a later one.  As process
      identifiers are fresh, nothing of an earlier process ever comes back. */
  lemma {:induction false} CleanedForGood(api: API, clean: World, lives: seq<Life>)
    requires lives != [] && Generations(api.installation, lives)
    requires lives[0].process == api.process && Clean(api, clean)
    requires Moves(api.installation, api.process, clean, lives[0].end)
    ensures MadeBy(api.installation, lives[|lives| - 1].end, Makers(lives))
    decreases |lives|
  {
    var last := lives[|lives| - 1];
    if |lives| == 1 {
      assert MadeBy(api.installation, clean, {api.process}) by {
        forall k | k in clean.objects && Ours(api.installation, clean.objects[k].labels)
          ensures clean.objects[k].labels.process == api.process
        {
          assert k.kind == Job || k.kind == Secret;
        }
      }
      LifeAddsOwn(api.installation, api.process, clean, last.end, {api.process});
      assert Makers(lives) == {api.process} + {api.process};
    } else {
      var earlier := lives[..|lives| - 1];
      CleanedForGood(api, clean, earlier);
      var previous := earlier[|earlier| - 1];
      assert Quiet(api.installation, lives[|lives| - 2].end, lives[|lives| - 1].begin);
      assert MadeBy(api.installation, last.begin, Makers(earlier));
      LifeAddsOwn(api.installation, last.process, last.begin, last.end, Makers(earlier));
      assert Makers(lives) == Makers(earlier) + {last.process};
    }
  }
}
