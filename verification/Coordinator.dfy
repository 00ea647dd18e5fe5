/** One benchmark execution on Kubernetes, with its cleanup
    (backend/internal/coordinator/{runs,jobs,secrets}.go). */
module Coordinator {
  import opened GoText
  import opened RunnerResult
  import opened Scheduling
  import opened Cluster

  const SECOND: nat := 1_000_000_000
  const CLEANUP_TIMEOUT: nat := 10 * SECOND
  const FAILURE_LOG_TIMEOUT: nat := 10 * SECOND
  const POLL_INTERVAL: nat := SECOND
  const MAX_LOG_BYTES: nat := 0x10_0000

  /** JobRef, SecretRef: a name and the UID recorded at creation; both empty when there is no resource. */
  datatype Ref = Ref(name: string, uid: nat)

  const NO_REF := Ref("", 0)

  /** timedOut: the error wraps context.DeadlineExceeded. */
  datatype WaitError =
    | WaitExpired(timedOut: bool)
    | GetJobFailed(timedOut: bool)
    | UIDMismatch
    | JobFailed
    | NotScheduled(error: SchedulingError)

  datatype RunError =
    | InvalidInput
    | ContextEnded(timedOut: bool)
    | NoRandomName
    | CreateSecretFailed(timedOut: bool)
    | CreateJobFailed(timedOut: bool)
    | WaitFailed(wait: WaitError)
    | PodNotFound(timedOut: bool)
    | PodUnschedulable
    | LogsUnavailable(timedOut: bool)
    | JobCleanupFailed(timedOut: bool)
    | SecretCleanupFailed(timedOut: bool)

  /** What a run was asked to do, as far as its errors depend on it: whether its input is valid, the context
      of its execution, and the scheduling grace period. */
  datatype Terms = Terms(prepared: bool, ctx: Context, grace: nat)

  predicate CleanupProblem(e: RunError) { e.JobCleanupFailed? || e.SecretCleanupFailed? }

  /** Does this error say that the Pod could not be placed? */
  predicate OfScheduling(e: RunError) { e.PodUnschedulable? || (e.WaitFailed? && e.wait.NotScheduled?) }

  /** Does this error wrap context.DeadlineExceeded? */
  predicate DeadlineExceeded(e: RunError) {
    match e
    case InvalidInput | NoRandomName | PodUnschedulable => false
    case WaitFailed(wait) => (wait.WaitExpired? || wait.GetJobFailed?) && wait.timedOut
    case _ => e.timedOut
  }

  // ---- the cluster seen as one value ----

  /** If an object with this UID exists, it has this key and these labels. */
  ghost predicate Known(w: World, key: Key, uid: nat, labels: Labels) {
    Bound(w.objects, w.next, key, uid) && Tagged(w.objects, w.next, uid, labels)
  }

  /** No object has this UID, now or ever after. */
  ghost predicate Removed(w: World, uid: nat) {
    Gone(w.objects, w.next, uid)
  }

  /** The event is one of those between two moments. */
  ghost predicate Happened(e: Event, v: World, w: World) {
    v.events <= w.events && e in w.events[|v.events|..]
  }

  lemma JustHappened(e: Event, v: World, w: World, i: nat)
    requires v.events <= w.events && |v.events| <= i < |w.events| && w.events[i] == e
    ensures Happened(e, v, w)
  {
  }

  // ---- what one execution writes ----

  /** A write that concerns exactly these two resources, by name and UID. */
  predicate Concerns(e: Event, secret: Ref, job: Ref) {
    match e
    case CreatedSecret(name, uid) => secret == Ref(name, uid)
    case CreatedJob(name, uid) => job == Ref(name, uid)
    case DeleteSent(key, uid, _) => Ref(key.name, uid) == if key.kind.Secret? then secret else job
    case SecretDeleteAcknowledged(name, uid) => secret == Ref(name, uid)
    case _ => false
  }

  /** Between two moments every write of ours concerned these two resources, and requests of ours removed
      no object with another UID. */
  ghost predicate Writes(api: API, v: World, w: World, secret: Ref, job: Ref) {
    && Moves(api.installation, api.process, v, w)
    && (forall i :: |v.events| <= i < |w.events| && IsWrite(w.events[i]) ==> Concerns(w.events[i], secret, job))
    && (forall i :: |v.removed| <= i < |w.removed| ==> w.removed[i].uid == secret.uid || w.removed[i].uid == job.uid)
  }

  /** What survives from one moment to a later one. */
  ghost predicate Lasting(v: World, w: World) {
    && (forall key, uid, labels :: Known(v, key, uid, labels) ==> Known(w, key, uid, labels))
    && (forall uid :: Removed(v, uid) ==> Removed(w, uid))
  }

  lemma KnowledgeLasts(api: API, v: World, w: World)
    requires Moves(api.installation, api.process, v, w)
    ensures Lasting(v, w)
  {
  }

  lemma WritesCompose(api: API, u: World, v: World, w: World, secret: Ref, job: Ref)
    requires Writes(api, u, v, secret, job) && Writes(api, v, w, secret, job)
    ensures Writes(api, u, w, secret, job)
    ensures Lasting(v, w)
    ensures forall e :: Happened(e, u, v) || Happened(e, v, w) ==> Happened(e, u, w)
  {
  }

  lemma ReadsAreWrites(api: API, v: World, w: World, secret: Ref, job: Ref)
    requires Reads(api.installation, api.process, v, w)
    ensures Writes(api, v, w, secret, job)
  {
  }

  lemma ReadsCompose(api: API, u: World, v: World, w: World)
    requires Reads(api.installation, api.process, u, v) && Reads(api.installation, api.process, v, w)
    ensures Reads(api.installation, api.process, u, w)
    ensures Lasting(v, w)
    ensures forall e :: Happened(e, u, v) || Happened(e, v, w) ==> Happened(e, u, w)
  {
  }

  lemma ReadsReflexive(api: API)
    requires api.Valid()
    ensures api.ReadFrom(api.Now())
  {
  }

  // ---- deletion ----

  method DeleteCredentialSecret(api: API, ctx: Context, secret: Ref, ghost labels: Labels, ghost job: Ref) returns (ok: bool)
    requires api.Valid() && Known(api.Now(), Key(Secret, secret.name), secret.uid, labels)
    modifies api
    ensures api.Valid() && Writes(api, old(api.Now()), api.Now(), secret, job)
    ensures ok ==> Removed(api.Now(), secret.uid)
    ensures ok ==> Happened(SecretDeleteAcknowledged(secret.name, secret.uid), old(api.Now()), api.Now())
    ensures !ok ==> Blank(secret.name) || secret.uid == 0 || old(api.Expired(ctx)) || Happened(DeleteRefused(Secret), old(api.Now()), api.Now())
    ensures !Blank(secret.name) && secret.uid > 0 && !old(api.Expired(ctx)) ==>
              Happened(DeleteSent(Key(Secret, secret.name), secret.uid, old(api.now)), old(api.Now()), api.Now())
    ensures forall i :: |old(api.removed)| <= i < |api.removed| ==> api.removed[i].labels == labels
  {
    if Blank(secret.name) || secret.uid == 0 || api.Expired(ctx) {
      ReadsReflexive(api);
      return false;
    }
    ok := SendSecretDelete(api, ctx, secret, labels, job);
  }

  method SendSecretDelete(api: API, ctx: Context, secret: Ref, ghost labels: Labels, ghost job: Ref) returns (ok: bool)
    requires api.Valid() && secret.uid > 0 && Known(api.Now(), Key(Secret, secret.name), secret.uid, labels)
    modifies api
    ensures api.Valid() && Writes(api, old(api.Now()), api.Now(), secret, job)
    ensures ok ==> Removed(api.Now(), secret.uid)
    ensures Happened(DeleteSent(Key(Secret, secret.name), secret.uid, old(api.now)), old(api.Now()), api.Now())
    ensures Happened(if ok then SecretDeleteAcknowledged(secret.name, secret.uid) else DeleteRefused(Secret), old(api.Now()), api.Now())
    ensures forall i :: |old(api.removed)| <= i < |api.removed| ==> api.removed[i].labels == labels
  {
    ghost var start := api.Now();
    var reply := api.DeleteObject(Key(Secret, secret.name), secret.uid, false, ctx, labels);
    ok := !reply.Rejected?;
    DeleteIsWrite(api, start, api.Now(), Key(Secret, secret.name), secret, secret, job, reply);
    JustHappened(api.events[|start.events| + 1], start, api.Now(), |start.events| + 1);
  }

  /** One delete request, as a write of this run. */
  lemma DeleteIsWrite(api: API, v: World, w: World, key: Key, ref: Ref, secret: Ref, job: Ref, reply: DeleteReply)
    requires Moves(api.installation, api.process, v, w)
    requires key.name == ref.name && ref == if key.kind.Secret? then secret else job
    requires w.events == v.events + [DeleteSent(key, ref.uid, v.now)] + DeleteReplied(key, ref.uid, reply)
    requires w.removed == v.removed || exists o :: w.removed == v.removed + [o] && o.uid == ref.uid
    ensures Writes(api, v, w, secret, job) && Happened(DeleteSent(key, ref.uid, v.now), v, w)
  {
    JustHappened(DeleteSent(key, ref.uid, v.now), v, w, |v.events|);
    forall i | |v.events| <= i < |w.events| && IsWrite(w.events[i]) ensures Concerns(w.events[i], secret, job) {
      assert w.events[i] == DeleteSent(key, ref.uid, v.now) || w.events[i] in DeleteReplied(key, ref.uid, reply);
    }
  }

  /** The Job's deletion was refused, or could not be confirmed. */
  ghost predicate Unconfirmed(v: World, w: World, job: Ref) {
    || Happened(DeleteRefused(Job), v, w)
    || Happened(JobReadFailed(job.name), v, w)
    || SawOtherJob(v, w, job)
  }

  /** A Job of this name but with another UID was seen. */
  ghost predicate SawOtherJob(v: World, w: World, job: Ref) {
    exists o :: Happened(JobObserved(job.name, o), v, w) && o.uid != job.uid
  }

  lemma UnconfirmedSpreads(u: World, v: World, w: World, x: World, job: Ref)
    requires u.events <= v.events <= w.events <= x.events && Unconfirmed(v, w, job)
    ensures Unconfirmed(u, x, job)
  {
  }

  method DeleteBenchmarkJob(api: API, ctx: Context, job: Ref, ghost labels: Labels, ghost secret: Ref) returns (ok: bool)
    requires api.Valid() && Known(api.Now(), Key(Job, job.name), job.uid, labels)
    modifies api
    ensures api.Valid() && Writes(api, old(api.Now()), api.Now(), secret, job)
    ensures ok ==> Removed(api.Now(), job.uid)
    ensures !ok ==> Blank(job.name) || job.uid == 0 || api.Expired(ctx) || Unconfirmed(old(api.Now()), api.Now(), job)
    ensures api.now <= old(api.now) || api.now <= ctx.deadline
    ensures old(api.now) <= api.now
    ensures !Blank(job.name) && job.uid > 0 && !old(api.Expired(ctx)) ==>
              Happened(DeleteSent(Key(Job, job.name), job.uid, old(api.now)), old(api.Now()), api.Now())
  {
    ReadsReflexive(api);
    if Blank(job.name) || job.uid == 0 { return false; }
    if api.Expired(ctx) { return false; }
    ghost var start := api.Now();
    var reply := SendJobDelete(api, ctx, job, labels, secret);
    ghost var middle := api.Now();
    if reply.Missing? { return true; }
    if reply.Rejected? { return false; }
    ok := AwaitJobAbsence(api, ctx, job, labels);
    if !ok && !api.Expired(ctx) { UnconfirmedSpreads(start, middle, api.Now(), api.Now(), job); }
    ReadsAreWrites(api, middle, api.Now(), secret, job);
    WritesCompose(api, start, middle, api.Now(), secret, job);
  }

  method SendJobDelete(api: API, ctx: Context, job: Ref, ghost labels: Labels, ghost secret: Ref) returns (reply: DeleteReply)
    requires api.Valid() && job.uid > 0 && Known(api.Now(), Key(Job, job.name), job.uid, labels)
    modifies api
    ensures api.Valid() && Writes(api, old(api.Now()), api.Now(), secret, job)
    ensures Known(api.Now(), Key(Job, job.name), job.uid, labels)
    ensures reply.Missing? ==> Removed(api.Now(), job.uid)
    ensures reply.Rejected? ==> Unconfirmed(old(api.Now()), api.Now(), job)
    ensures old(api.now) <= api.now && (api.now <= old(api.now) || api.now <= ctx.deadline)
    ensures Happened(DeleteSent(Key(Job, job.name), job.uid, old(api.now)), old(api.Now()), api.Now())
  {
    ghost var start := api.Now();
    reply := api.DeleteObject(Key(Job, job.name), job.uid, true, ctx, labels);
    KnowledgeLasts(api, start, api.Now());
    DeleteIsWrite(api, start, api.Now(), Key(Job, job.name), job, secret, job, reply);
    if reply.Rejected? { JustHappened(DeleteRefused(Job), start, api.Now(), |start.events| + 1); }
  }

  /** An accepted delete may leave the Job in place for a while: it is gone once a GET finds none. */
  method AwaitJobAbsence(api: API, ctx: Context, job: Ref, ghost labels: Labels) returns (ok: bool)
    requires api.Valid() && Known(api.Now(), Key(Job, job.name), job.uid, labels)
    modifies api
    ensures api.Valid() && api.ReadFrom(old(api.Now()))
    ensures ok ==> Removed(api.Now(), job.uid)
    ensures !ok ==> api.Expired(ctx) || Unconfirmed(old(api.Now()), api.Now(), job)
    ensures api.now <= old(api.now) || api.now <= ctx.deadline
  {
    ghost var start := api.Now();
    ReadsReflexive(api);
    var rounds := 0;
    while true
      invariant api.Valid() && Known(api.Now(), Key(Job, job.name), job.uid, labels) && api.ReadFrom(start)
      invariant api.now <= old(api.now) || api.now <= ctx.deadline
      invariant rounds > 0 ==> api.now < ctx.deadline
      decreases rounds == 0, ctx.deadline - api.now
    {
      ghost var before := api.Now();
      var reply := api.GetJob(job.name, ctx, job.uid);
      ghost var middle := api.Now();
      ReadsCompose(api, start, before, middle);
      if reply.Absent? { return true; }
      JustHappened(api.events[|before.events|], start, middle, |before.events|);
      if reply.GetFailed? { return false; }
      if reply.job.uid != job.uid { return false; }
      api.Sleep(POLL_INTERVAL, ctx);
      ReadsCompose(api, start, middle, api.Now());
      if api.Expired(ctx) { return false; }
      rounds := rounds + 1;
    }
  }

  predicate Deletable(ref: Ref) { !Blank(ref.name) && ref.uid > 0 }

  /** What must have gone wrong for a cleanup to report this. */
  ghost predicate CleanupCause(v: World, w: World, job: Ref, e: RunError) {
    match e
    case JobCleanupFailed(_) => w.now >= v.now + CLEANUP_TIMEOUT / 2 || Unconfirmed(v, w, job)
    case SecretCleanupFailed(_) => Happened(DeleteRefused(Secret), v, w)
    case _ => false
  }

  ghost predicate CleanupBacked(v: World, w: World, job: Ref, errors: seq<RunError>) {
    forall i :: 0 <= i < |errors| ==> CleanupCause(v, w, job, errors[i])
  }

  lemma CleanupStands(u: World, v: World, w: World, job: Ref, errors: seq<RunError>)
    requires Before(u, v) && Before(v, w) && CleanupBacked(u, v, job, errors)
    ensures CleanupBacked(u, w, job, errors)
  {
    forall i | 0 <= i < |errors| ensures CleanupCause(u, w, job, errors[i]) {
      CleanupCauseStands(u, u, v, w, job, errors[i]);
    }
  }

  lemma CleanupCauseStands(u: World, v: World, w: World, x: World, job: Ref, e: RunError)
    requires CleanupCause(v, w, job, e) && Before(u, v) && Before(v, w) && Before(w, x)
    ensures CleanupCause(u, x, job, e)
  {
  }

  /** The Job's part of the cleanup: half of the time when there is a Secret to delete afterwards. */
  method CleanupJob(api: API, ctx: Context, secret: Ref, job: Ref, ghost labels: Labels) returns (errors: seq<RunError>)
    requires api.Valid() && ctx == Context(false, api.now + CLEANUP_TIMEOUT)
    requires job != NO_REF ==> Known(api.Now(), Key(Job, job.name), job.uid, labels)
    modifies api
    ensures api.Valid() && Writes(api, old(api.Now()), api.Now(), secret, job)
    ensures forall e :: e in errors ==> e.JobCleanupFailed?
    ensures errors == [] && job.name != "" ==> Removed(api.Now(), job.uid)
    ensures job == NO_REF || Deletable(job) ==> CleanupBacked(old(api.Now()), api.Now(), job, errors)
    ensures Deletable(job) ==>
              Happened(DeleteSent(Key(Job, job.name), job.uid, old(api.now)), old(api.Now()), api.Now())
    ensures secret.name != "" ==> api.now <= old(api.now) + CLEANUP_TIMEOUT / 2
  {
    ReadsReflexive(api);
    if job.name == "" {
      BlankIsEmpty();
      return [];
    }
    var jobCtx := if secret.name != "" then Context(false, api.now + (ctx.deadline - api.now) / 2) else ctx;
    var ok := DeleteBenchmarkJob(api, jobCtx, job, labels, secret);
    if ok { return []; }
    var late: bool := *;
    return [JobCleanupFailed(late)];
  }

  /** The Secret's part, after errors of the Job's; v is the beginning of the cleanup. */
  method CleanupSecret(api: API, ctx: Context, secret: Ref, ghost job: Ref, before: seq<RunError>, ghost labels: Labels, ghost v: World)
    returns (errors: seq<RunError>)
    requires api.Valid() && Known(api.Now(), Key(Secret, secret.name), secret.uid, labels)
    requires secret.name != "" && Writes(api, v, api.Now(), secret, job) && !api.Expired(ctx)
    modifies api
    ensures api.Valid() && Writes(api, old(api.Now()), api.Now(), secret, job)
    ensures errors == before || exists late :: errors == before + [SecretCleanupFailed(late)]
    ensures Deletable(secret) && CleanupBacked(v, old(api.Now()), job, before) ==> CleanupBacked(v, api.Now(), job, errors)
    ensures errors == before ==>
              && Removed(api.Now(), secret.uid)
              && Happened(SecretDeleteAcknowledged(secret.name, secret.uid), old(api.Now()), api.Now())
    ensures Deletable(secret) ==>
              Happened(DeleteSent(Key(Secret, secret.name), secret.uid, old(api.now)), old(api.Now()), api.Now())
  {
    ghost var middle := api.Now();
    var ok := DeleteCredentialSecret(api, ctx, secret, labels, job);
    if CleanupBacked(v, middle, job, before) { CleanupStands(v, middle, api.Now(), job, before); }
    if ok { return before; }
    var late: bool := *;
    errors := before + [SecretCleanupFailed(late)];
    assert Deletable(secret) ==> CleanupCause(v, api.Now(), job, SecretCleanupFailed(late));
  }

  /** cleanupBenchmarkResources: the Job first, with half of the time; then the Secret, in any case. */
  method CleanupBenchmarkResources(api: API, secret: Ref, job: Ref, ghost labels: Labels) returns (errors: seq<RunError>)
    requires api.Valid() && Known(api.Now(), Key(Secret, secret.name), secret.uid, labels)
    requires job != NO_REF ==> Known(api.Now(), Key(Job, job.name), job.uid, labels)
    modifies api
    ensures api.Valid() && Writes(api, old(api.Now()), api.Now(), secret, job)
    ensures forall e :: e in errors ==> CleanupProblem(e)
    ensures Deletable(secret) && (job == NO_REF || Deletable(job)) ==> CleanupBacked(old(api.Now()), api.Now(), job, errors)
    ensures errors == [] ==>
              && (secret.name != "" ==>
                    Removed(api.Now(), secret.uid)
                    && Happened(SecretDeleteAcknowledged(secret.name, secret.uid), old(api.Now()), api.Now()))
              && (job.name != "" ==> Removed(api.Now(), job.uid))
    ensures Deletable(secret) ==> SecretDeleteInTime(old(api.Now()), api.Now(), secret, old(api.now))
    ensures Deletable(job) ==>
              Happened(DeleteSent(Key(Job, job.name), job.uid, old(api.now)), old(api.Now()), api.Now())
  {
    ghost var start := api.Now();
    var ctx := Context(false, api.now + CLEANUP_TIMEOUT);
    errors := CleanupJob(api, ctx, secret, job, labels);
    if secret.name == "" {
      BlankIsEmpty();
      return;
    }
    ghost var middle := api.Now();
    KnowledgeLasts(api, start, middle);
    errors := CleanupSecret(api, ctx, secret, job, errors, labels, start);
    WritesCompose(api, start, middle, api.Now(), secret, job);
  }

  /** A request to delete the Secret was sent with at least half of the cleanup time left. */
  ghost predicate SecretDeleteInTime(v: World, w: World, secret: Ref, start: nat) {
    exists at: nat :: Happened(DeleteSent(Key(Secret, secret.name), secret.uid, at), v, w) && start <= at <= start + CLEANUP_TIMEOUT / 2
  }

  /** A request to delete the Secret was sent: with a Job, at most half of the cleanup time after the
      request to delete that. */
  ghost predicate SecretDeleteSent(v: World, w: World, secret: Ref, job: Ref) {
    exists start: nat ::
      && SecretDeleteInTime(v, w, secret, start)
      && (job.uid > 0 ==> Happened(DeleteSent(Key(Job, job.name), job.uid, start), v, w))
  }

  lemma SentSpreads(u: World, v: World, w: World, secret: Ref, job: Ref)
    requires u.events <= v.events <= w.events && SecretDeleteSent(v, w, secret, job)
    ensures SecretDeleteSent(u, w, secret, job)
  {
    var start: nat :| SecretDeleteInTime(v, w, secret, start) && (job.uid > 0 ==> Happened(DeleteSent(Key(Job, job.name), job.uid, start), v, w));
    assert SecretDeleteInTime(u, w, secret, start);
  }

  // ---- creation ----

  function RunLabels(api: API, runID: string): Labels {
    Labels(MANAGED_BY, api.installation, api.process, if runID != "" then Some(runID) else None)
  }

  const SECRET_PREFIX: string := "plugin-bench-credentials-"
  const JOB_PREFIX: string := "plugin-bench-runner-"

  lemma PrefixedIsNotBlank(prefix: string, suffix: string)
    requires prefix != "" && 'a' <= prefix[0] <= 'z'
    ensures !Blank(prefix + suffix)
  {
    NotBlank(prefix + suffix);
  }

  function Creation(kind: Kind, ref: Ref): Event {
    if kind.Job? then CreatedJob(ref.name, ref.uid) else CreatedSecret(ref.name, ref.uid)
  }

  /** What must have gone wrong for the creation to end with this. */
  ghost predicate CreationCause(v: World, w: World, terms: Terms, e: RunError) {
    match e
    case InvalidInput => !terms.prepared
    case ContextEnded(timedOut) => Ended(terms.ctx, timedOut, w.now, w.cancelled)
    case NoRandomName => Happened(NoRandomness, v, w)
    case CreateSecretFailed(_) => Happened(CreateRefused(Secret), v, w)
    case CreateJobFailed(_) => Happened(CreateRefused(Job), v, w)
    case _ => false
  }

  lemma CreationCauseStands(u: World, v: World, w: World, x: World, terms: Terms, e: RunError)
    requires CreationCause(v, w, terms, e) && Before(u, v) && Before(v, w) && Before(w, x)
    ensures CreationCause(u, x, terms, e)
  {
  }

  /** Creates the credential Secret or the Job under a random name. */
  method CreateNamed(api: API, terms: Terms, kind: Kind, labels: Labels) returns (ref: Ref, error: Option<RunError>)
    requires api.Valid() && labels.process == api.process
    modifies api
    ensures api.Valid() && api.MovedFrom(old(api.Now())) && api.removed == old(api.removed)
    ensures error.Some? ==>
              ref == NO_REF && api.ReadFrom(old(api.Now())) && CreationCause(old(api.Now()), api.Now(), terms, error.value)
    ensures error.None? ==>
              && Deletable(ref) && ref.name != ""
              && Known(api.Now(), Key(kind, ref.name), ref.uid, labels)
              && api.events == old(api.events) + [Creation(kind, ref)]
  {
    ghost var start := api.Now();
    ReadsReflexive(api);
    if api.Expired(terms.ctx) {
      var late := api.Reason(terms.ctx);
      return NO_REF, Some(ContextEnded(late));
    }
    var suffix := api.Random();
    if suffix.None? {
      JustHappened(NoRandomness, start, api.Now(), |start.events|);
      return NO_REF, Some(NoRandomName);
    }
    ref, error := CreateAs(api, terms, kind, labels, suffix.value);
  }

  /** The same once the random part of the name is drawn. */
  method CreateAs(api: API, terms: Terms, kind: Kind, labels: Labels, suffix: string) returns (ref: Ref, error: Option<RunError>)
    requires api.Valid() && labels.process == api.process
    modifies api
    ensures api.Valid() && api.MovedFrom(old(api.Now())) && api.removed == old(api.removed)
    ensures error.Some? ==>
              ref == NO_REF && api.ReadFrom(old(api.Now())) && CreationCause(old(api.Now()), api.Now(), terms, error.value)
    ensures error.None? ==>
              && Deletable(ref) && ref.name != ""
              && Known(api.Now(), Key(kind, ref.name), ref.uid, labels)
              && api.events == old(api.events) + [Creation(kind, ref)]
  {
    ghost var start := api.Now();
    var prefix := if kind.Job? then JOB_PREFIX else SECRET_PREFIX;
    var name := prefix + suffix;
    PrefixedIsNotBlank(prefix, suffix);
    var uid := api.CreateObject(Key(kind, name), labels, terms.ctx);
    if uid == 0 {
      JustHappened(CreateRefused(kind), start, api.Now(), |start.events|);
      var late: bool := *;
      return NO_REF, Some(if kind.Job? then CreateJobFailed(late) else CreateSecretFailed(late));
    }
    return Ref(name, uid), None;
  }

  lemma OneCreation(api: API, v: World, w: World, kind: Kind, ref: Ref, secret: Ref, job: Ref)
    requires Moves(api.installation, api.process, v, w) && w.removed == v.removed
    requires w.events == v.events + [Creation(kind, ref)] && ref == if kind.Job? then job else secret
    ensures Writes(api, v, w, secret, job) && Happened(Creation(kind, ref), v, w)
  {
  }

  /** The Secret, then the Job that uses it; without a Job the Secret is removed again. */
  method CreateBenchmarkResources(api: API, terms: Terms, runID: string) returns (job: Ref, errors: seq<RunError>, secret: Ref)
    requires api.Valid()
    modifies api
    ensures api.Valid() && Writes(api, old(api.Now()), api.Now(), secret, job)
    ensures Recorded(old(api.Now()), api.Now(), secret, job)
    ensures errors == [] ==> Created(api.Now(), secret, job, RunLabels(api, runID))
    ensures Backed(old(api.Now()), api.Now(), job, terms, errors)
    ensures errors != [] ==> job == NO_REF && (secret.uid > 0 ==> SecretDeleteSent(old(api.Now()), api.Now(), secret, job))
    ensures errors != [] && (forall e :: e in errors ==> !CleanupProblem(e)) && secret.uid > 0 ==>
              Removed(api.Now(), secret.uid)
  {
    ReadsReflexive(api);
    job, secret := NO_REF, NO_REF;
    if !terms.prepared { return job, [InvalidInput], secret; }
    if api.Expired(terms.ctx) {
      var late := api.Reason(terms.ctx);
      return job, [ContextEnded(late)], secret;
    }
    var labels := RunLabels(api, runID);
    ghost var start := api.Now();
    var failed;
    secret, failed := CreateNamed(api, terms, Secret, labels);
    if failed.Some? { return job, [failed.value], secret; }
    job, errors := CreateWithSecret(api, terms, secret, labels, start);
  }

  /** The rest of the creation once the Secret was made, since v. */
  method CreateWithSecret(api: API, terms: Terms, secret: Ref, labels: Labels, ghost v: World) returns (job: Ref, errors: seq<RunError>)
    requires api.Valid() && labels.process == api.process
    requires Deletable(secret) && secret.name != "" && Known(api.Now(), Key(Secret, secret.name), secret.uid, labels)
    requires api.MovedFrom(v) && api.removed == v.removed && api.events == v.events + [Creation(Secret, secret)]
    modifies api
    ensures api.Valid() && Writes(api, v, api.Now(), secret, job)
    ensures Recorded(v, api.Now(), secret, job)
    ensures errors == [] ==> Created(api.Now(), secret, job, labels)
    ensures Backed(v, api.Now(), job, terms, errors)
    ensures errors != [] ==> job == NO_REF && SecretDeleteSent(v, api.Now(), secret, job)
    ensures errors != [] && (forall e :: e in errors ==> !CleanupProblem(e)) ==> Removed(api.Now(), secret.uid)
  {
    ghost var middle := api.Now();
    job, errors := CreateJobFor(api, terms, secret, labels);
    OneCreation(api, v, middle, Secret, secret, secret, job);
    WritesCompose(api, v, middle, api.Now(), secret, job);
    BackedWithin(v, middle, api.Now(), api.Now(), job, terms, errors);
    if errors != [] { SentSpreads(v, middle, api.Now(), secret, job); }
    if job.uid > 0 { SecretFirst(v, middle, api.Now(), secret, job); }
  }

  lemma SecretFirst(v: World, m: World, w: World, secret: Ref, job: Ref)
    requires m.events == v.events + [Creation(Secret, secret)] && Happened(Creation(Job, job), m, w)
    ensures InOrder(Creation(Secret, secret), Creation(Job, job), v, w)
  {
    var j :| |m.events| <= j < |w.events| && w.events[j] == Creation(Job, job);
    assert w.events[|v.events|] == m.events[|v.events|];
    assert At(w, |v.events|, Creation(Secret, secret)) && At(w, j, Creation(Job, job));
  }

  /** The Job, or else the removal of the Secret made for it. */
  method CreateJobFor(api: API, terms: Terms, secret: Ref, labels: Labels) returns (job: Ref, errors: seq<RunError>)
    requires api.Valid() && labels.process == api.process
    requires Deletable(secret) && secret.name != ""
    requires Known(api.Now(), Key(Secret, secret.name), secret.uid, labels)
    modifies api
    ensures api.Valid() && Writes(api, old(api.Now()), api.Now(), secret, job)
    ensures job.uid > 0 ==> Happened(CreatedJob(job.name, job.uid), old(api.Now()), api.Now())
    ensures errors == [] ==> Created(api.Now(), secret, job, labels)
    ensures Backed(old(api.Now()), api.Now(), job, terms, errors)
    ensures errors != [] ==> job == NO_REF && SecretDeleteSent(old(api.Now()), api.Now(), secret, job)
    ensures errors != [] && (forall e :: e in errors ==> !CleanupProblem(e)) ==> Removed(api.Now(), secret.uid)
  {
    ghost var start := api.Now();
    var failed;
    job, failed := CreateNamed(api, terms, Job, labels);
    ghost var middle := api.Now();
    KnowledgeLasts(api, start, middle);
    if failed.None? {
      OneCreation(api, start, middle, Job, job, secret, job);
      return job, [];
    }
    ReadsAreWrites(api, start, middle, secret, job);
    ghost var cleanup;
    errors, cleanup := RollBack(api, secret, labels, failed.value);
    WritesCompose(api, start, middle, api.Now(), secret, job);
    SentSpreads(start, middle, api.Now(), secret, job);
    CleanupAdds(start, middle, api.Now(), job, terms, [failed.value], cleanup);
  }

  /** Removes the Secret of a run that got no Job. */
  method RollBack(api: API, secret: Ref, ghost labels: Labels, failure: RunError) returns (errors: seq<RunError>, ghost cleanup: seq<RunError>)
    requires api.Valid()
    requires Deletable(secret) && secret.name != ""
    requires Known(api.Now(), Key(Secret, secret.name), secret.uid, labels)
    modifies api
    ensures api.Valid() && Writes(api, old(api.Now()), api.Now(), secret, NO_REF)
    ensures errors == [failure] + cleanup && CleanupBacked(old(api.Now()), api.Now(), NO_REF, cleanup)
    ensures SecretDeleteSent(old(api.Now()), api.Now(), secret, NO_REF)
    ensures (forall e :: e in errors ==> !CleanupProblem(e)) ==> Removed(api.Now(), secret.uid)
  {
    var problems := CleanupBenchmarkResources(api, secret, NO_REF, labels);
    cleanup := problems;
    errors := [failure] + problems;
    ProblemsShow([failure], problems);
  }

  lemma ProblemsShow(before: seq<RunError>, cleanup: seq<RunError>)
    requires forall e :: e in cleanup ==> CleanupProblem(e)
    ensures (forall e :: e in before + cleanup ==> !CleanupProblem(e)) ==> cleanup == []
  {
    if cleanup != [] { assert cleanup[0] in before + cleanup; }
  }

  /** Both resources were created, with these labels. */
  ghost predicate Created(w: World, secret: Ref, job: Ref, labels: Labels) {
    && Deletable(job) && job.name != "" && Known(w, Key(Job, job.name), job.uid, labels)
    && Deletable(secret) && secret.name != "" && Known(w, Key(Secret, secret.name), secret.uid, labels)
  }

  ghost predicate At(w: World, i: int, e: Event) { 0 <= i < |w.events| && w.events[i] == e }

  /** Both events happened between two moments, the first before the second. */
  ghost predicate InOrder(first: Event, second: Event, v: World, w: World) {
    v.events <= w.events && exists i, j :: |v.events| <= i < j && At(w, i, first) && At(w, j, second)
  }

  /** The UIDs of an execution's resources are those that its creations reported, the Secret first. */
  ghost predicate Recorded(v: World, w: World, secret: Ref, job: Ref) {
    && (secret.uid > 0 ==> Happened(CreatedSecret(secret.name, secret.uid), v, w))
    && (job.uid > 0 ==> InOrder(CreatedSecret(secret.name, secret.uid), CreatedJob(job.name, job.uid), v, w))
  }

  // ---- waiting and reading ----

  datatype JobState = Unfinished | Complete | Failed

  /** The first true condition that ends a Job. */
  function JobStateOf(conditions: seq<JobCondition>): JobState {
    if conditions == [] then Unfinished
    else if conditions[0].status == "True" && conditions[0].kind == "Complete" then Complete
    else if conditions[0].status == "True" && conditions[0].kind == "Failed" then Failed
    else JobStateOf(conditions[1..])
  }

  predicate OwnedBy(pod: Pod, job: Ref) {
    pod.controller == Some(Owner("batch/v1", "Job", job.name, job.uid))
  }

  function OwnedPods(pods: seq<Pod>, job: Ref): seq<Pod> {
    if pods == [] then []
    else if OwnedBy(pods[|pods| - 1], job) then OwnedPods(pods[..|pods| - 1], job) + [pods[|pods| - 1]]
    else OwnedPods(pods[..|pods| - 1], job)
  }

  /** The one Pod in a list that the Job controls: None inside when there is none, None outside when
      there are several. */
  method SoleOwnedPod(pods: seq<Pod>, job: Ref) returns (pod: Option<Option<Pod>>)
    ensures pod.Some? ==> OwnedPods(pods, job) == if pod.value.Some? then [pod.value.value] else []
    ensures pod.None? ==> |OwnedPods(pods, job)| > 1
  {
    var found: Option<Pod> := None;
    for i := 0 to |pods|
      invariant OwnedPods(pods[..i], job) == if found.Some? then [found.value] else []
    {
      assert pods[..i + 1][..i] == pods[..i];
      if OwnedBy(pods[i], job) {
        OwnedPrefix(pods, i + 1, job);
        if found.Some? { return None; }
        found := Some(pods[i]);
      }
    }
    assert pods[..|pods|] == pods;
    return Some(found);
  }

  lemma {:induction false} OwnedPrefix(pods: seq<Pod>, n: nat, job: Ref)
    requires n <= |pods|
    ensures |OwnedPods(pods[..n], job)| <= |OwnedPods(pods, job)|
    decreases |pods| - n
  {
    if n == |pods| {
      assert pods[..n] == pods;
    } else {
      assert pods[..n + 1][..n] == pods[..n];
      OwnedPrefix(pods, n + 1, job);
    }
  }

  /** A list of the Job's Pods was seen at this time in which it controls exactly these. */
  ghost predicate SawPodsAt(v: World, w: World, job: Ref, owned: seq<Pod>, at: nat) {
    exists pods :: Happened(PodsListed(job.name, pods, at), v, w) && OwnedPods(pods, job) == owned
  }

  ghost predicate SawPods(v: World, w: World, job: Ref, owned: seq<Pod>) {
    exists at: nat :: SawPodsAt(v, w, job, owned, at)
  }

  lemma PodsSpread(u: World, v: World, w: World, x: World, job: Ref, owned: seq<Pod>)
    requires u.events <= v.events <= w.events <= x.events && SawPods(v, w, job, owned)
    ensures SawPods(u, x, job, owned)
  {
    var at: nat :| SawPodsAt(v, w, job, owned, at);
    assert SawPodsAt(u, x, job, owned, at);
  }

  /** A lookup could not tell the Job's Pod: the listing failed, or held several. */
  ghost predicate LookupRefused(v: World, w: World, job: Ref) {
    || Blank(job.name) || job.uid == 0
    || Happened(PodsListFailed(job.name), v, w)
    || exists pods, at: nat :: Happened(PodsListed(job.name, pods, at), v, w) && |OwnedPods(pods, job)| > 1
  }

  /** How often the Job was looked at. */
  function Looks(events: seq<Event>): nat {
    if events == [] then 0
    else Looks(events[..|events| - 1]) + if events[|events| - 1].JobObserved? then 1 else 0
  }

  lemma OneMoreEvent(events: seq<Event>, e: Event)
    ensures Looks(events + [e]) == Looks(events) + if e.JobObserved? then 1 else 0
  {
    assert (events + [e])[..|events|] == events;
  }

  method LookupJobPod(api: API, ctx: Context, job: Ref) returns (pod: Option<Option<Pod>>)
    requires api.Valid()
    modifies api
    ensures api.Valid() && api.ReadFrom(old(api.Now())) && Looks(api.events) == Looks(old(api.events))
    ensures pod.Some? ==> SawPodsAt(old(api.Now()), api.Now(), job, if pod.value.Some? then [pod.value.value] else [], api.now)
    ensures pod.None? ==> api.Expired(ctx) || LookupRefused(old(api.Now()), api.Now(), job)
  {
    ReadsReflexive(api);
    ghost var start := api.Now();
    if Blank(job.name) || job.uid == 0 { return None; }
    if api.Expired(ctx) { return None; }
    var reply := api.ListPods(job.name, ctx);
    OneMoreEvent(start.events, api.events[|start.events|]);
    JustHappened(api.events[|start.events|], start, api.Now(), |start.events|);
    if api.Expired(ctx) { return None; }
    if reply.None? { return None; }
    pod := SoleOwnedPod(reply.value, job);
  }

  /** The Job with the recorded UID was seen in this state. */
  ghost predicate SawJob(v: World, w: World, job: Ref, state: JobState) {
    exists o :: Happened(JobObserved(job.name, o), v, w) && o.uid == job.uid && JobStateOf(o.conditions) == state
  }

  /** What must have happened for a wait to end with this; RightlyGivenUp says it of scheduling. */
  ghost predicate Stopped(v: World, w: World, job: Ref, ctx: Context, e: WaitError) {
    match e
    case WaitExpired(timedOut) => Ended(ctx, timedOut, w.now, w.cancelled)
    case GetJobFailed(_) => Happened(JobReadFailed(job.name), v, w) || Happened(JobAbsent(job.name), v, w)
    case UIDMismatch => SawOtherJob(v, w, job)
    case JobFailed => SawJob(v, w, job, Failed)
    case NotScheduled(_) => true
  }

  lemma StopStands(u: World, v: World, w: World, x: World, job: Ref, ctx: Context, e: WaitError)
    requires Stopped(v, w, job, ctx, e) && Before(u, v) && Before(v, w) && Before(w, x)
    ensures Stopped(u, x, job, ctx, e)
  {
  }

  /** One look at the Job: done, failed, or None to keep waiting. */
  method CheckJob(api: API, ctx: Context, job: Ref) returns (verdict: Option<Option<WaitError>>)
    requires api.Valid() && Bound(api.objects, api.nextUID, Key(Job, job.name), job.uid)
    modifies api
    ensures api.Valid() && api.ReadFrom(old(api.Now()))
    ensures verdict == Some(None) ==> SawJob(old(api.Now()), api.Now(), job, Complete)
    ensures verdict.Some? && verdict.value.Some? ==>
              !verdict.value.value.NotScheduled? && Stopped(old(api.Now()), api.Now(), job, ctx, verdict.value.value)
    ensures Looks(api.events) <= Looks(old(api.events)) + 1 && (verdict.None? ==> Looks(api.events) == Looks(old(api.events)) + 1)
  {
    ghost var start := api.Now();
    var reply := api.GetJob(job.name, ctx, job.uid);
    OneMoreEvent(start.events, api.events[|start.events|]);
    JustHappened(api.events[|start.events|], start, api.Now(), |start.events|);
    if !reply.Found? {
      var error := WhyNoJob(api, ctx);
      return Some(Some(error));
    }
    if reply.job.uid != job.uid { return Some(Some(UIDMismatch)); }
    match JobStateOf(reply.job.conditions)
    case Complete => return Some(None);
    case Failed => return Some(Some(JobFailed));
    case Unfinished => return None;
  }

  method WhyNoJob(api: API, ctx: Context) returns (error: WaitError)
    ensures if api.Expired(ctx) then error.WaitExpired? && Ended(ctx, error.timedOut, api.now, api.cancelled) else error.GetJobFailed?
  {
    if api.Expired(ctx) {
      var late := api.Reason(ctx);
      return WaitExpired(late);
    }
    var late: bool := *;
    return GetJobFailed(late);
  }

  /** One scheduling observation, as the cluster showed it. */
  ghost predicate RoundSeen(v: World, w: World, job: Ref, o: Observation) {
    && v.events <= w.events && v.now <= w.now
    && match o
       case Saw(pod, at) => v.now <= at <= w.now && SawPodsAt(v, w, job, if pod.Some? then [pod.value] else [], at)
       case LookupFailed => LookupRefused(v, w, job)
  }

  /** The observations of a wait, each from a lookup of its own, in order. */
  ghost predicate Watched(v: World, w: World, job: Ref, rounds: seq<Observation>)
    decreases |rounds|
  {
    && v.events <= w.events && v.now <= w.now
    && (rounds == [] ||
        var before, last := rounds[..|rounds| - 1], rounds[|rounds| - 1];
        exists u: World :: Watched(v, u, job, before) && RoundSeen(u, w, job, last))
  }

  lemma {:induction false} WatchedWithin(u: World, v: World, w: World, x: World, job: Ref, rounds: seq<Observation>)
    requires Watched(v, w, job, rounds)
    requires u.events <= v.events && u.now <= v.now && w.events <= x.events && w.now <= x.now
    ensures Watched(u, x, job, rounds)
    decreases |rounds|
  {
    if rounds != [] {
      var m: World :| Watched(v, m, job, rounds[..|rounds| - 1]) && RoundSeen(m, w, job, rounds[|rounds| - 1]);
      WatchedWithin(u, v, m, m, job, rounds[..|rounds| - 1]);
      RoundWithin(m, m, w, x, job, rounds[|rounds| - 1]);
    }
  }

  lemma RoundWithin(u: World, v: World, w: World, x: World, job: Ref, o: Observation)
    requires RoundSeen(v, w, job, o)
    requires u.events <= v.events && u.now <= v.now && w.events <= x.events && w.now <= x.now
    ensures RoundSeen(u, x, job, o)
  {
  }

  lemma OneMoreWatched(v: World, u: World, w: World, job: Ref, before: seq<Observation>, after: seq<Observation>)
    requires Watched(v, u, job, before) && before <= after && |after| == |before| + 1
    requires RoundSeen(u, w, job, after[|before|])
    ensures Watched(v, w, job, after)
  {
    assert after[..|after| - 1] == before;
    assert v.events <= u.events && v.now <= u.now;
  }

  /** The failure names the Pod of the observation and why it cannot be placed. */
  predicate Names(o: Observation, e: SchedulingError, grace: nat) {
    && o.Saw? && o.pod.Some? && UnschedulableCondition(o.pod).Some?
    && e == SchedulingError(o.pod.value.name, UnschedulableCondition(o.pod).value.message, grace)
  }

  /** One scheduling observation: it ends the wait exactly when it makes the Pod overdue. */
  method CheckScheduling(api: API, ctx: Context, job: Ref, grace: nat, tracker: SchedulingTracker) returns (verdict: Option<WaitError>)
    requires api.Valid() && tracker.Valid() && Past(tracker.seen, api.now) && grace > 0
    modifies api, tracker
    ensures api.Valid() && api.ReadFrom(old(api.Now())) && Looks(api.events) == Looks(old(api.events))
    ensures tracker.Valid() && Past(tracker.seen, api.now) && old(tracker.seen) <= tracker.seen
    ensures ContextCut(verdict) ==> tracker.seen == old(tracker.seen) && Ended(ctx, verdict.value.timedOut, api.now, api.cancelled)
    ensures !ContextCut(verdict) ==>
              && |tracker.seen| == |old(tracker.seen)| + 1
              && RoundSeen(old(api.Now()), api.Now(), job, tracker.seen[|tracker.seen| - 1])
              && (verdict.None? <==> !Overdue(tracker.seen, grace))
    ensures verdict.Some? ==>
              ContextCut(verdict) || (verdict.value.NotScheduled? && Names(tracker.seen[|tracker.seen| - 1], verdict.value.error, grace))
  {
    var pod := LookupJobPod(api, ctx, job);
    if api.Expired(ctx) {
      var late := api.Reason(ctx);
      return Some(WaitExpired(late));
    }
    if pod.None? {
      tracker.Reset();
      return None;
    }
    var problem := tracker.Observe(pod.value, api.now, grace);
    if problem.Some? { return Some(NotScheduled(problem.value)); }
    return None;
  }

  predicate ContextCut(verdict: Option<WaitError>) { verdict.Some? && verdict.value.WaitExpired? }

  ghost predicate Past(seen: seq<Observation>, now: nat) {
    forall i :: 0 <= i < |seen| && seen[i].Saw? ==> seen[i].at <= now
  }

  /** None of the first n rounds made the Pod overdue. */
  ghost predicate NotOverdueBefore(rounds: seq<Observation>, n: int, grace: nat) {
    forall m: nat :: m < n ==> !OverdueAt(rounds, m, grace)
  }

  lemma OneMoreRound(before: seq<Observation>, after: seq<Observation>, grace: nat)
    requires NotOverdueBefore(before, |before|, grace) && before <= after && |after| <= |before| + 1
    ensures NotOverdueBefore(after, |before|, grace)
    ensures |after| == |before| + 1 && !Overdue(after, grace) ==> NotOverdueBefore(after, |after|, grace)
  {
    forall m: nat | m < |before| ensures !OverdueAt(after, m, grace) {
      EarlierRounds(before, after, m, grace);
    }
    if |after| == |before| + 1 && !Overdue(after, grace) { LastRound(after, grace); }
  }

  lemma EarlierRounds(before: seq<Observation>, after: seq<Observation>, m: nat, grace: nat)
    requires before <= after && m < |before|
    ensures OverdueAt(after, m, grace) == OverdueAt(before, m, grace)
  {
    assert after[..m + 1] == before[..m + 1];
  }

  lemma LastRound(rounds: seq<Observation>, grace: nat)
    requires rounds != []
    ensures OverdueAt(rounds, |rounds| - 1, grace) == Overdue(rounds, grace)
  {
    assert rounds[..|rounds|] == rounds;
  }

  predicate GaveUp(verdict: Option<Option<WaitError>>) {
    verdict.Some? && verdict.value.Some? && verdict.value.value.NotScheduled?
  }

  /** Scheduling failed rightly: these observations were made, and the last of them is the first that makes
      the Pod overdue, which the failure names. */
  ghost predicate RightlyGivenUp(v: World, w: World, job: Ref, grace: nat, e: SchedulingError, rounds: seq<Observation>) {
    && grace > 0 && rounds != [] && Watched(v, w, job, rounds)
    && Overdue(rounds, grace) && NotOverdueBefore(rounds, |rounds| - 1, grace)
    && Names(rounds[|rounds| - 1], e, grace)
  }

  /** What the observations so far come to when the wait goes on or ends like this. */
  ghost predicate Justified(v: World, w: World, job: Ref, grace: nat, verdict: Option<Option<WaitError>>, rounds: seq<Observation>) {
    if GaveUp(verdict) then RightlyGivenUp(v, w, job, grace, verdict.value.value.error, rounds)
    else Watched(v, w, job, rounds) && NotOverdueBefore(rounds, |rounds|, grace)
  }

  /** One round of the wait: the Job, then its Pod; None to keep waiting.  Before is the beginning of the wait. */
  method WaitRound(api: API, ctx: Context, job: Ref, grace: nat, tracker: SchedulingTracker, ghost before: World)
    returns (verdict: Option<Option<WaitError>>)
    requires api.Valid() && Bound(api.objects, api.nextUID, Key(Job, job.name), job.uid)
    requires tracker.Valid() && Past(tracker.seen, api.now)
    requires Justified(before, api.Now(), job, grace, None, tracker.seen)
    modifies api, tracker
    ensures api.Valid() && api.ReadFrom(old(api.Now())) && tracker.Valid() && Past(tracker.seen, api.now)
    ensures verdict == Some(None) ==> SawJob(old(api.Now()), api.Now(), job, Complete)
    ensures verdict.Some? && verdict.value.Some? ==> Stopped(old(api.Now()), api.Now(), job, ctx, verdict.value.value)
    ensures Justified(before, api.Now(), job, grace, verdict, tracker.seen)
    ensures Looks(api.events) <= Looks(old(api.events)) + 1 && |tracker.seen| >= |old(tracker.seen)|
    ensures verdict.None? ==> Looks(api.events) == Looks(old(api.events)) + 1
    ensures verdict.None? && grace > 0 ==> |tracker.seen| == |old(tracker.seen)| + 1
  {
    ghost var start := api.Now();
    verdict := CheckJob(api, ctx, job);
    ghost var middle := api.Now();
    WatchedWithin(before, before, start, middle, job, tracker.seen);
    if verdict.Some? || grace == 0 { return; }
    var problem := SchedulingRound(api, ctx, job, grace, tracker, before);
    ReadsCompose(api, start, middle, api.Now());
    if problem.Some? {
      StopStands(start, middle, api.Now(), api.Now(), job, ctx, problem.value);
      verdict := Some(problem);
    }
  }

  /** The second half of a round, for a Job that has not ended. */
  method SchedulingRound(api: API, ctx: Context, job: Ref, grace: nat, tracker: SchedulingTracker, ghost before: World)
    returns (problem: Option<WaitError>)
    requires api.Valid() && tracker.Valid() && Past(tracker.seen, api.now) && grace > 0
    requires Justified(before, api.Now(), job, grace, None, tracker.seen)
    modifies api, tracker
    ensures api.Valid() && api.ReadFrom(old(api.Now())) && tracker.Valid() && Past(tracker.seen, api.now)
    ensures problem.Some? ==> Stopped(old(api.Now()), api.Now(), job, ctx, problem.value)
    ensures Justified(before, api.Now(), job, grace, if problem.Some? then Some(problem) else None, tracker.seen)
    ensures Looks(api.events) == Looks(old(api.events)) && |tracker.seen| >= |old(tracker.seen)|
    ensures problem.None? ==> |tracker.seen| == |old(tracker.seen)| + 1
  {
    ghost var start := api.Now();
    ghost var earlier := tracker.seen;
    problem := CheckScheduling(api, ctx, job, grace, tracker);
    RoundJustifies(before, start, api.Now(), job, grace, earlier, tracker.seen, problem);
  }

  /** What a scheduling observation makes of what was seen before it. */
  lemma RoundJustifies(v: World, m: World, w: World, job: Ref, grace: nat, earlier: seq<Observation>, seen: seq<Observation>,
                       problem: Option<WaitError>)
    requires Justified(v, m, job, grace, None, earlier) && grace > 0
    requires earlier <= seen && m.events <= w.events && m.now <= w.now
    requires ContextCut(problem) ==> seen == earlier
    requires !ContextCut(problem) ==>
               |seen| == |earlier| + 1 && RoundSeen(m, w, job, seen[|earlier|]) && (problem.None? <==> !Overdue(seen, grace))
    requires problem.Some? && !problem.value.WaitExpired? ==>
               problem.value.NotScheduled? && Names(seen[|seen| - 1], problem.value.error, grace)
    ensures Justified(v, w, job, grace, if problem.Some? then Some(problem) else None, seen)
  {
    OneMoreRound(earlier, seen, grace);
    if ContextCut(problem) {
      WatchedWithin(v, v, m, w, job, earlier);
    } else {
      OneMoreWatched(v, m, w, job, earlier, seen);
    }
  }

  lemma JobStaysBound(api: API, v: World, w: World, job: Ref)
    requires Reads(api.installation, api.process, v, w) && Bound(v.objects, v.next, Key(Job, job.name), job.uid)
    ensures Bound(w.objects, w.next, Key(Job, job.name), job.uid)
  {
  }

  /** One round and, unless it ends the wait, the pause before the next; start is the beginning of the wait. */
  method WaitTick(api: API, ctx: Context, job: Ref, grace: nat, tracker: SchedulingTracker, ghost start: World)
    returns (verdict: Option<Option<WaitError>>)
    requires api.Valid() && api.ReadFrom(start) && Bound(start.objects, start.next, Key(Job, job.name), job.uid)
    requires tracker.Valid() && Past(tracker.seen, api.now)
    requires Justified(start, api.Now(), job, grace, None, tracker.seen)
    modifies api, tracker
    ensures api.Valid() && api.ReadFrom(start) && tracker.Valid() && Past(tracker.seen, api.now)
    ensures Justified(start, api.Now(), job, grace, verdict, tracker.seen)
    ensures verdict == Some(None) ==> SawJob(start, api.Now(), job, Complete)
    ensures verdict.Some? && verdict.value.Some? ==> Stopped(start, api.Now(), job, ctx, verdict.value.value)
    ensures Looks(api.events) <= Looks(old(api.events)) + 1 && |tracker.seen| >= |old(tracker.seen)|
    ensures verdict.None? && grace > 0 ==>
              Looks(api.events) == Looks(old(api.events)) + 1 && |tracker.seen| == |old(tracker.seen)| + 1
    ensures verdict.None? ==> api.Expired(ctx) || api.now > old(api.now)
  {
    ghost var before := api.Now();
    JobStaysBound(api, start, before, job);
    verdict := WaitRound(api, ctx, job, grace, tracker, start);
    ghost var last := api.Now();
    ReadsCompose(api, start, before, last);
    if verdict.Some? {
      VerdictStands(start, before, last, job, ctx, verdict.value);
      return;
    }
    api.Sleep(POLL_INTERVAL, ctx);
    ReadsCompose(api, start, last, api.Now());
    WatchedWithin(start, start, last, api.Now(), job, tracker.seen);
  }

  lemma VerdictStands(u: World, v: World, w: World, job: Ref, ctx: Context, verdict: Option<WaitError>)
    requires Before(u, v) && Before(v, w)
    requires if verdict.None? then SawJob(v, w, job, Complete) else Stopped(v, w, job, ctx, verdict.value)
    ensures if verdict.None? then SawJob(u, w, job, Complete) else Stopped(u, w, job, ctx, verdict.value)
  {
    if verdict.Some? { StopStands(u, v, w, w, job, ctx, verdict.value); }
  }

  /** waitForJobAtInterval: poll until the Job ends, the context ends, or scheduling fails early;
      scheduling fails at the first overdue observation, and every look at the Job that left it
      unfinished is followed by an observation. */
  method WaitForJob(api: API, ctx: Context, job: Ref, grace: nat) returns (error: Option<WaitError>, ghost rounds: seq<Observation>)
    requires api.Valid() && Bound(api.objects, api.nextUID, Key(Job, job.name), job.uid)
    modifies api
    ensures api.Valid() && api.ReadFrom(old(api.Now()))
    ensures error.None? ==> SawJob(old(api.Now()), api.Now(), job, Complete)
    ensures error.Some? ==> Stopped(old(api.Now()), api.Now(), job, ctx, error.value)
    ensures Justified(old(api.Now()), api.Now(), job, grace, Some(error), rounds)
    ensures grace > 0 ==> Looks(api.events) <= Looks(old(api.events)) + |rounds| + 1
  {
    ghost var start := api.Now();
    ReadsReflexive(api);
    var tracker := new SchedulingTracker();
    while !api.Expired(ctx)
      invariant api.Valid() && api.ReadFrom(start) && fresh(tracker) && tracker.Valid() && Past(tracker.seen, api.now)
      invariant Justified(start, api.Now(), job, grace, None, tracker.seen)
      invariant grace > 0 ==> Looks(api.events) == Looks(start.events) + |tracker.seen|
      decreases !api.Expired(ctx), ctx.deadline - api.now
    {
      var verdict := WaitTick(api, ctx, job, grace, tracker, start);
      if verdict.Some? { return verdict.value, tracker.seen; }
    }
    var late := api.Reason(ctx);
    return Some(WaitExpired(late)), tracker.seen;
  }

  /** The part of a log stream that is kept. */
  function Cut(stream: string): string {
    if |stream| > MAX_LOG_BYTES then stream[..MAX_LOG_BYTES] else stream
  }

  /** The whole log of this Pod was read, and the result holds it up to the limit. */
  ghost predicate SawLogs(v: World, w: World, podName: string, output: string, truncated: bool) {
    exists stream :: Happened(LogsRead(podName, stream), v, w) && output == Cut(stream) && truncated == (|stream| > MAX_LOG_BYTES)
  }

  method CollectRunnerLogs(api: API, ctx: Context, pod: Pod) returns (output: Option<(string, bool)>)
    requires api.Valid()
    modifies api
    ensures api.Valid() && api.ReadFrom(old(api.Now()))
    ensures output.Some? ==> SawLogs(old(api.Now()), api.Now(), pod.name, output.value.0, output.value.1)
    ensures output.None? ==> Blank(pod.name) || api.Expired(ctx) || Happened(LogsReadFailed(pod.name), old(api.Now()), api.Now())
  {
    ReadsReflexive(api);
    ghost var start := api.Now();
    if Blank(pod.name) || api.Expired(ctx) { return None; }
    var stream := api.ReadLogs(pod.name, ctx);
    JustHappened(api.events[|start.events|], start, api.Now(), |start.events|);
    if stream.None? { return None; }
    // io.LimitReader passes on one byte more than is kept.
    var data := if |stream.value| > MAX_LOG_BYTES + 1 then stream.value[..MAX_LOG_BYTES + 1] else stream.value;
    var truncated := |data| > MAX_LOG_BYTES;
    if truncated { data := data[..MAX_LOG_BYTES]; }
    assert data == Cut(stream.value);
    return Some((data, truncated));
  }

  /** What must have been seen before a run may count as successful. */
  ghost predicate Evidence(v: World, w: World, job: Ref, result: Result) {
    && result.jobName == job.name
    && SawJob(v, w, job, Complete)
    && SawPodAndLogs(v, w, job, result)
  }

  /** The output is the log, and the metrics are the report, of the one Pod of the Job. */
  ghost predicate SawPodAndLogs(v: World, w: World, job: Ref, result: Result) {
    exists pod :: ReadFrom(v, w, job, pod, result) && SawLogs(v, w, pod.name, result.output, result.truncated)
  }

  ghost predicate ReadFrom(v: World, w: World, job: Ref, pod: Pod, result: Result) {
    SawPods(v, w, job, [pod]) && result.metrics == RunnerMetrics(pod)
  }

  predicate NoOutput(result: Result) { result.output == "" && !result.truncated }

  /** Whatever the result holds was read from the one Pod of the Job. */
  ghost predicate Genuine(v: World, w: World, job: Ref, result: Result) {
    && (result.jobName == "" || result.jobName == job.name)
    && (NoOutput(result) || SawPodAndLogs(v, w, job, result))
    && (result.metrics == [] || exists pod :: ReadFrom(v, w, job, pod, result))
  }

  lemma SawPodAndLogsSpreads(u: World, v: World, w: World, x: World, job: Ref, result: Result)
    requires u.events <= v.events <= w.events <= x.events && SawPodAndLogs(v, w, job, result)
    ensures SawPodAndLogs(u, x, job, result)
  {
    var pod :| ReadFrom(v, w, job, pod, result) && SawLogs(v, w, pod.name, result.output, result.truncated);
    PodsSpread(u, v, w, x, job, [pod]);
    assert ReadFrom(u, x, job, pod, result);
  }

  lemma GenuineWithin(u: World, v: World, w: World, x: World, job: Ref, result: Result)
    requires u.events <= v.events <= w.events <= x.events && Genuine(v, w, job, result)
    ensures Genuine(u, x, job, result)
  {
    if !NoOutput(result) { SawPodAndLogsSpreads(u, v, w, x, job, result); }
    if result.metrics != [] {
      var pod :| ReadFrom(v, w, job, pod, result);
      PodsSpread(u, v, w, x, job, [pod]);
      assert ReadFrom(u, x, job, pod, result);
    }
  }

  lemma EvidenceWithin(u: World, v: World, w: World, x: World, job: Ref, result: Result)
    requires u.events <= v.events <= w.events <= x.events && Evidence(v, w, job, result)
    ensures Evidence(u, x, job, result)
  {
    SawPodAndLogsSpreads(u, v, w, x, job, result);
  }

  // ---- why a run failed ----

  /** A Pod of the Job was seen that could not be placed. */
  ghost predicate SawUnplaced(v: World, w: World, job: Ref) {
    exists pod :: SawPods(v, w, job, [pod]) && UnschedulableCondition(Some(pod)).Some?
  }

  /** The log of the Job's one Pod could not be read. */
  ghost predicate LogsRefused(v: World, w: World, job: Ref) {
    exists pod :: SawPods(v, w, job, [pod]) && (Blank(pod.name) || Happened(LogsReadFailed(pod.name), v, w))
  }

  /** The execution's time was over, or the extra time that a failed run has for its diagnostics. */
  ghost predicate ReadingEnded(v: World, w: World, ctx: Context) {
    (ctx.cancellable && w.cancelled) || w.now >= ctx.deadline || w.now >= v.now + FAILURE_LOG_TIMEOUT
  }

  /** What must have gone wrong for the observation of a Job to end with this. */
  ghost predicate ReadingCause(v: World, w: World, job: Ref, terms: Terms, e: RunError) {
    match e
    case WaitFailed(wait) =>
      && Stopped(v, w, job, terms.ctx, wait)
      && (wait.NotScheduled? ==> exists rounds :: RightlyGivenUp(v, w, job, terms.grace, wait.error, rounds))
    case PodNotFound(_) => ReadingEnded(v, w, terms.ctx) || LookupRefused(v, w, job) || SawPods(v, w, job, [])
    case PodUnschedulable => SawUnplaced(v, w, job)
    case LogsUnavailable(_) => ReadingEnded(v, w, terms.ctx) || LogsRefused(v, w, job)
    case _ => false
  }

  ghost predicate ReadingBacked(v: World, w: World, job: Ref, terms: Terms, errors: seq<RunError>) {
    forall i :: 0 <= i < |errors| ==> ReadingCause(v, w, job, terms, errors[i])
  }

  lemma ReadingCauseStands(u: World, v: World, w: World, x: World, job: Ref, terms: Terms, e: RunError)
    requires ReadingCause(v, w, job, terms, e) && Before(u, v) && Before(v, w) && Before(w, x)
    ensures ReadingCause(u, x, job, terms, e)
  {
    match e
    case WaitFailed(wait) =>
      StopStands(u, v, w, x, job, terms.ctx, wait);
      if wait.NotScheduled? {
        var rounds :| RightlyGivenUp(v, w, job, terms.grace, wait.error, rounds);
        WatchedWithin(u, v, w, x, job, rounds);
        assert RightlyGivenUp(u, x, job, terms.grace, wait.error, rounds);
      }
    case PodNotFound(_) =>
      if SawPods(v, w, job, []) { PodsSpread(u, v, w, x, job, []); }
    case PodUnschedulable =>
      var pod :| SawPods(v, w, job, [pod]) && UnschedulableCondition(Some(pod)).Some?;
      PodsSpread(u, v, w, x, job, [pod]);
    case LogsUnavailable(_) =>
      if LogsRefused(v, w, job) { LogsRefusedSpreads(u, v, w, x, job); }
    case _ =>
  }

  lemma LogsRefusedSpreads(u: World, v: World, w: World, x: World, job: Ref)
    requires u.events <= v.events <= w.events <= x.events && LogsRefused(v, w, job)
    ensures LogsRefused(u, x, job)
  {
    var pod :| SawPods(v, w, job, [pod]) && (Blank(pod.name) || Happened(LogsReadFailed(pod.name), v, w));
    PodsSpread(u, v, w, x, job, [pod]);
  }

  lemma ReadingStands(v: World, w: World, x: World, job: Ref, terms: Terms, errors: seq<RunError>)
    requires ReadingBacked(v, w, job, terms, errors) && Before(v, w) && Before(w, x)
    ensures ReadingBacked(v, x, job, terms, errors)
  {
    forall i | 0 <= i < |errors| ensures ReadingCause(v, x, job, terms, errors[i]) {
      ReadingCauseStands(v, v, w, x, job, terms, errors[i]);
    }
  }

  lemma OneMoreCause(v: World, w: World, job: Ref, terms: Terms, errors: seq<RunError>, e: RunError)
    requires ReadingBacked(v, w, job, terms, errors) && ReadingCause(v, w, job, terms, e)
    ensures ReadingBacked(v, w, job, terms, errors + [e])
  {
  }

  /** What must have gone wrong for a run to report this. */
  ghost predicate Cause(v: World, w: World, job: Ref, terms: Terms, e: RunError) {
    CreationCause(v, w, terms, e) || ReadingCause(v, w, job, terms, e) || CleanupCause(v, w, job, e)
  }

  /** Every error rests on something that happened. */
  ghost predicate Backed(v: World, w: World, job: Ref, terms: Terms, errors: seq<RunError>) {
    forall i :: 0 <= i < |errors| ==> Cause(v, w, job, terms, errors[i])
  }

  lemma CauseStands(u: World, v: World, w: World, x: World, job: Ref, terms: Terms, e: RunError)
    requires Cause(v, w, job, terms, e) && Before(u, v) && Before(v, w) && Before(w, x)
    ensures Cause(u, x, job, terms, e)
  {
    if CreationCause(v, w, terms, e) {
      CreationCauseStands(u, v, w, x, terms, e);
    } else if ReadingCause(v, w, job, terms, e) {
      ReadingCauseStands(u, v, w, x, job, terms, e);
    } else {
      CleanupCauseStands(u, v, w, x, job, e);
    }
  }

  lemma BackedWithin(u: World, v: World, w: World, x: World, job: Ref, terms: Terms, errors: seq<RunError>)
    requires Backed(v, w, job, terms, errors) && Before(u, v) && Before(v, w) && Before(w, x)
    ensures Backed(u, x, job, terms, errors)
  {
    forall i | 0 <= i < |errors| ensures Cause(u, x, job, terms, errors[i]) {
      CauseStands(u, v, w, x, job, terms, errors[i]);
    }
  }

  /** Errors of a first period, and those of the cleanup in the next. */
  lemma CleanupAdds(u: World, v: World, w: World, job: Ref, terms: Terms, errors: seq<RunError>, cleanup: seq<RunError>)
    requires Backed(u, v, job, terms, errors) && CleanupBacked(v, w, job, cleanup) && Before(u, v) && Before(v, w)
    ensures Backed(u, w, job, terms, errors + cleanup)
  {
    forall i | 0 <= i < |errors + cleanup| ensures Cause(u, w, job, terms, (errors + cleanup)[i]) {
      if i < |errors| {
        CauseStands(u, u, v, w, job, terms, errors[i]);
      } else {
        CleanupCauseStands(u, v, w, w, job, cleanup[i - |errors|]);
      }
    }
  }

  // ---- one run ----

  /** The part of Run between creation and cleanup. */
  method ObserveRun(api: API, terms: Terms, job: Ref) returns (result: Result, errors: seq<RunError>)
    requires api.Valid() && Bound(api.objects, api.nextUID, Key(Job, job.name), job.uid)
    modifies api
    ensures api.Valid() && api.ReadFrom(old(api.Now()))
    ensures ReadingBacked(old(api.Now()), api.Now(), job, terms, errors)
    ensures Genuine(old(api.Now()), api.Now(), job, result)
    ensures errors == [] ==> Evidence(old(api.Now()), api.Now(), job, result)
  {
    ghost var start := api.Now();
    result, errors := Result(job.name, "", false, []), [];
    var wait, rounds := WaitForJob(api, terms.ctx, job, terms.grace);
    ghost var waited := api.Now();
    var logCtx := terms.ctx;
    if wait.Some? {
      errors := [WaitFailed(wait.value)];
      if wait.value.NotScheduled? {
        assert RightlyGivenUp(start, waited, job, terms.grace, wait.value.error, rounds);
        return;
      }
      logCtx := Context(false, api.now + FAILURE_LOG_TIMEOUT);
    }
    result, errors := ReadRunnerPod(api, logCtx, job, errors, terms, start);
    ReadsCompose(api, start, waited, api.Now());
  }

  /** The context is the execution's, or the one that a failed run has for its diagnostics. */
  predicate ReadingContext(ctx: Context, terms: Terms, start: nat) {
    ctx == terms.ctx || (!ctx.cancellable && ctx.deadline >= start + FAILURE_LOG_TIMEOUT)
  }

  /** The Pod and its logs, after a wait that may have failed; v is the beginning of the observation. */
  method ReadRunnerPod(api: API, ctx: Context, job: Ref, before: seq<RunError>, ghost terms: Terms, ghost v: World)
    returns (result: Result, errors: seq<RunError>)
    requires api.Valid() && api.ReadFrom(v) && ReadingContext(ctx, terms, v.now)
    requires ReadingBacked(v, api.Now(), job, terms, before)
    modifies api
    ensures api.Valid() && api.ReadFrom(old(api.Now()))
    ensures before <= errors && ReadingBacked(v, api.Now(), job, terms, errors)
    ensures result.jobName == job.name && Genuine(v, api.Now(), job, result)
    ensures errors == [] ==> SawPodAndLogs(v, api.Now(), job, result)
  {
    ghost var start := api.Now();
    result, errors := Result(job.name, "", false, []), before;
    var pod := LookupJobPod(api, ctx, job);
    ghost var found := api.Now();
    ReadsCompose(api, v, start, found);
    ReadingStands(v, start, found, job, terms, before);
    if pod.None? || pod.value.None? {
      var late: bool := *;
      NoPodIsBacked(v, start, found, job, terms, late);
      OneMoreCause(v, found, job, terms, before, PodNotFound(late));
      return result, before + [PodNotFound(late)];
    }
    PodsSpread(v, start, found, found, job, [pod.value.value]);
    result, errors := ReadRunner(api, ctx, job, pod.value.value, before, terms, v);
    ReadsCompose(api, start, found, api.Now());
  }

  lemma NoPodIsBacked(v: World, m: World, w: World, job: Ref, terms: Terms, late: bool)
    requires v.events <= m.events <= w.events
    requires ReadingEnded(v, w, terms.ctx) || LookupRefused(m, w, job) || SawPods(m, w, job, [])
    ensures ReadingCause(v, w, job, terms, PodNotFound(late))
  {
    if SawPods(m, w, job, []) { PodsSpread(v, m, w, w, job, []); }
  }

  /** The same for the one Pod that was found since v. */
  method ReadRunner(api: API, ctx: Context, job: Ref, runner: Pod, before: seq<RunError>, ghost terms: Terms, ghost v: World)
    returns (result: Result, errors: seq<RunError>)
    requires api.Valid() && api.ReadFrom(v) && ReadingContext(ctx, terms, v.now)
    requires SawPods(v, api.Now(), job, [runner]) && ReadingBacked(v, api.Now(), job, terms, before)
    modifies api
    ensures api.Valid() && api.ReadFrom(old(api.Now()))
    ensures before <= errors && ReadingBacked(v, api.Now(), job, terms, errors)
    ensures result.jobName == job.name && Genuine(v, api.Now(), job, result)
    ensures errors == [] ==> SawPodAndLogs(v, api.Now(), job, result)
  {
    ghost var found := api.Now();
    ReadsReflexive(api);
    result, errors := Result(job.name, "", false, RunnerMetrics(runner)), JudgePod(runner, before);
    assert ReadFrom(v, found, job, runner, result);
    JudgementIsBacked(v, found, job, terms, runner, before);
    if errors != [] && !RunnerHasStarted(runner) { return; }
    result, errors := ReadRunnerLogs(api, ctx, job, runner, errors, terms, v);
  }

  /** After a failure, a Pod that could not be placed adds its reason. */
  function JudgePod(pod: Pod, errors: seq<RunError>): (judged: seq<RunError>)
    ensures errors <= judged && (judged == [] ==> errors == [])
  {
    if errors != [] && UnschedulableCondition(Some(pod)).Some? then errors + [PodUnschedulable] else errors
  }

  lemma JudgementIsBacked(v: World, w: World, job: Ref, terms: Terms, pod: Pod, errors: seq<RunError>)
    requires SawPods(v, w, job, [pod]) && ReadingBacked(v, w, job, terms, errors)
    ensures ReadingBacked(v, w, job, terms, JudgePod(pod, errors))
  {
    if UnschedulableCondition(Some(pod)).Some? { OneMoreCause(v, w, job, terms, errors, PodUnschedulable); }
  }

  method ReadRunnerLogs(api: API, ctx: Context, job: Ref, runner: Pod, before: seq<RunError>, ghost terms: Terms, ghost v: World)
    returns (result: Result, errors: seq<RunError>)
    requires api.Valid() && api.ReadFrom(v) && ReadingContext(ctx, terms, v.now)
    requires SawPods(v, api.Now(), job, [runner]) && ReadingBacked(v, api.Now(), job, terms, before)
    modifies api
    ensures api.Valid() && api.ReadFrom(old(api.Now()))
    ensures before <= errors && ReadingBacked(v, api.Now(), job, terms, errors)
    ensures result.jobName == job.name && Genuine(v, api.Now(), job, result)
    ensures errors == [] ==> SawPodAndLogs(v, api.Now(), job, result)
  {
    ghost var found := api.Now();
    result, errors := Result(job.name, "", false, RunnerMetrics(runner)), before;
    var logs := CollectRunnerLogs(api, ctx, runner);
    ReadsCompose(api, v, found, api.Now());
    ReadingStands(v, found, api.Now(), job, terms, before);
    PodsSpread(v, v, found, api.Now(), job, [runner]);
    if logs.None? {
      var late: bool := *;
      errors := before + [LogsUnavailable(late)];
      OneMoreCause(v, api.Now(), job, terms, before, LogsUnavailable(late));
    } else {
      result := result.(output := logs.value.0, truncated := logs.value.1);
    }
    assert ReadFrom(v, api.Now(), job, runner, result);
  }

  /** Coordinator.Run: the whole execution with its deferred cleanup.

      However the calls turn out: every write concerned the Secret and the Job that this run created,
      under the UIDs recorded at creation; the deletion of the Secret was requested in time; without a
      cleanup error both are gone; every error rests on what happened, and the result on what was read; and
      no error at all means that the run was seen to succeed. */
  method Run(api: API, caller: Context, runID: string, prepared: bool, executionTimeout: nat, grace: nat)
    returns (result: Result, errors: seq<RunError>, ghost secret: Ref, ghost job: Ref)
    requires api.Valid()
    modifies api
    ensures api.Valid() && Writes(api, old(api.Now()), api.Now(), secret, job)
    ensures Outcome(old(api.Now()), api.Now(), secret, job, TermsOf(caller, prepared, executionTimeout, grace, old(api.now)), result, errors)
    ensures !prepared ==> errors == [InvalidInput]
  {
    ReadsReflexive(api);
    result, secret, job := NO_RESULT, NO_REF, NO_REF;
    if !prepared { return result, [InvalidInput], secret, job; }
    if api.Expired(caller) {
      var late := api.Reason(caller);
      return result, [ContextEnded(late)], secret, job;
    }
    result, errors, secret, job := CreateAndExecute(api, TermsOf(caller, prepared, executionTimeout, grace, api.now), runID);
  }

  /** The caller's deadline takes priority over the execution timeout when it is earlier. */
  function TermsOf(caller: Context, prepared: bool, executionTimeout: nat, grace: nat, now: nat): Terms {
    var limit := now + executionTimeout;
    Terms(prepared, Context(caller.cancellable, if caller.deadline < limit then caller.deadline else limit), grace)
  }

  /** What a run promises about the time from v to w. */
  ghost predicate Outcome(v: World, w: World, secret: Ref, job: Ref, terms: Terms, result: Result, errors: seq<RunError>) {
    && Recorded(v, w, secret, job)
    && ((forall e :: e in errors ==> !CleanupProblem(e)) ==>
          (secret.uid > 0 ==> Removed(w, secret.uid)) && (job.uid > 0 ==> Removed(w, job.uid)))
    && (secret.uid > 0 ==> SecretDeleteSent(v, w, secret, job))
    && Backed(v, w, job, terms, errors) && Genuine(v, w, job, result)
    && (errors == [] ==> Success(v, w, secret, job, result))
  }

  method CreateAndExecute(api: API, terms: Terms, runID: string)
    returns (result: Result, errors: seq<RunError>, ghost secret: Ref, ghost job: Ref)
    requires api.Valid()
    modifies api
    ensures api.Valid() && Writes(api, old(api.Now()), api.Now(), secret, job)
    ensures Outcome(old(api.Now()), api.Now(), secret, job, terms, result, errors)
  {
    ghost var start := api.Now();
    result := NO_RESULT;
    var created, problems, owned := CreateBenchmarkResources(api, terms, runID);
    secret, job := owned, created;
    if problems != [] { return result, problems, secret, job; }
    ghost var ready := api.Now();
    result, errors := ExecuteCreated(api, terms, owned, created, RunLabels(api, runID));
    WritesCompose(api, start, ready, api.Now(), secret, job);
    OutcomeSpreads(start, ready, api.Now(), secret, job, terms, result, errors);
  }

  lemma RecordedSpreads(v: World, m: World, w: World, secret: Ref, job: Ref)
    requires v.events <= m.events <= w.events && Recorded(v, m, secret, job)
    ensures Recorded(v, w, secret, job)
  {
    if job.uid > 0 {
      var i, j :| |v.events| <= i < j && At(m, i, CreatedSecret(secret.name, secret.uid)) && At(m, j, CreatedJob(job.name, job.uid));
      assert At(w, i, CreatedSecret(secret.name, secret.uid)) && At(w, j, CreatedJob(job.name, job.uid));
    }
  }

  lemma OutcomeSpreads(u: World, v: World, w: World, secret: Ref, job: Ref, terms: Terms, result: Result, errors: seq<RunError>)
    requires Before(u, v) && Before(v, w)
    requires Recorded(u, v, secret, job) && Executed(v, w, secret, job, terms, result, errors)
    ensures Outcome(u, w, secret, job, terms, result, errors)
  {
    RecordedSpreads(u, v, w, secret, job);
    SentSpreads(u, v, w, secret, job);
    BackedWithin(u, v, w, w, job, terms, errors);
    GenuineWithin(u, v, w, w, job, result);
    if errors == [] { SuccessLasts(u, v, w, secret, job, result); }
  }

  /** What holds of a run whose resources exist. */
  ghost predicate Executed(v: World, w: World, secret: Ref, job: Ref, terms: Terms, result: Result, errors: seq<RunError>) {
    && ((forall e :: e in errors ==> !CleanupProblem(e)) ==> Removed(w, secret.uid) && Removed(w, job.uid))
    && (errors == [] ==> Success(v, w, secret, job, result))
    && SecretDeleteSent(v, w, secret, job)
    && Backed(v, w, job, terms, errors) && Genuine(v, w, job, result)
  }

  /** Everything that a successful run has seen and done. */
  ghost predicate Success(v: World, w: World, secret: Ref, job: Ref, result: Result) {
    && secret.uid > 0 && job.uid > 0
    && Evidence(v, w, job, result)
    && Removed(w, job.uid)
    && Happened(SecretDeleteAcknowledged(secret.name, secret.uid), v, w)
  }

  lemma SuccessLasts(u: World, v: World, w: World, secret: Ref, job: Ref, result: Result)
    requires u.events <= v.events <= w.events && Success(v, w, secret, job, result)
    ensures Success(u, w, secret, job, result)
  {
    EvidenceWithin(u, v, w, w, job, result);
  }

  /** Observation, then the deferred cleanup, which runs in any case. */
  method ExecuteCreated(api: API, terms: Terms, secret: Ref, job: Ref, ghost labels: Labels) returns (result: Result, errors: seq<RunError>)
    requires api.Valid() && Created(api.Now(), secret, job, labels)
    modifies api
    ensures api.Valid() && Writes(api, old(api.Now()), api.Now(), secret, job)
    ensures Executed(old(api.Now()), api.Now(), secret, job, terms, result, errors)
  {
    ghost var start := api.Now();
    result, errors := ObserveRun(api, terms, job);
    ghost var observed := api.Now();
    ReadsAreWrites(api, start, observed, secret, job);
    KnowledgeLasts(api, start, observed);
    var cleanup := CleanupBenchmarkResources(api, secret, job, labels);
    WritesCompose(api, start, observed, api.Now(), secret, job);
    assert SecretDeleteSent(observed, api.Now(), secret, job);
    ExecutedInAll(start, observed, api.Now(), secret, job, terms, result, errors, cleanup);
    errors := errors + cleanup;
  }

  /** The observation and the cleanup, put together. */
  lemma ExecutedInAll(u: World, v: World, w: World, secret: Ref, job: Ref, terms: Terms, result: Result,
                      errors: seq<RunError>, cleanup: seq<RunError>)
    requires Before(u, v) && Before(v, w)
    requires ReadingBacked(u, v, job, terms, errors) && (errors == [] ==> Evidence(u, v, job, result))
    requires Genuine(u, v, job, result)
    requires (forall e :: e in cleanup ==> CleanupProblem(e)) && CleanupBacked(v, w, job, cleanup)
    requires SecretDeleteSent(v, w, secret, job) && secret.uid > 0 && job.uid > 0
    requires cleanup == [] ==>
               && Removed(w, secret.uid) && Removed(w, job.uid)
               && Happened(SecretDeleteAcknowledged(secret.name, secret.uid), u, w)
    ensures Executed(u, w, secret, job, terms, result, errors + cleanup)
  {
    ProblemsShow(errors, cleanup);
    SentSpreads(u, v, w, secret, job);
    assert Backed(u, v, job, terms, errors);
    CleanupAdds(u, v, w, job, terms, errors, cleanup);
    GenuineWithin(u, u, v, w, job, result);
    if errors + cleanup == [] { EvidenceWithin(u, u, v, w, job, result); }
  }
}
