/** The Kubernetes API as the coordinator meets it.

    Other actors work on the same namespace all the time: before and after every call the
    cluster may drift.  Calls may fail, also after they took effect, and honour the deadline
    of their context.  Three assumptions are built into Drift: UIDs are never reused; the
    labels of an object do not change; and no object carrying this installation's labels is
    created by anyone but its one live process. */
module Cluster {
  import opened GoText
  import opened Scheduling

  datatype Kind = Job | Secret

  datatype Key = Key(kind: Kind, name: string)

  /** The labels of coordinator resources (recovery.go: runLabels). */
  datatype Labels = Labels(managedBy: string, installation: string, process: string, runID: Option<string>)

  datatype JobCondition = JobCondition(kind: string, status: string)

  datatype Object = Object(uid: nat, labels: Labels, conditions: seq<JobCondition>)

  /** A context: a deadline, and whether it also ends when the service shuts down. */
  datatype Context = Context(cancellable: bool, deadline: nat)

  /** What the coordinator did and was told.  A refusal is any answer but success: the request may still
      have taken effect. */
  datatype Event =
    | NoRandomness
    | CreatedSecret(name: string, uid: nat)
    | CreatedJob(name: string, uid: nat)
    | CreateRefused(kind: Kind)
    | DeleteSent(key: Key, uid: nat, at: nat)
    | SecretDeleteAcknowledged(name: string, uid: nat)
    | DeleteRefused(kind: Kind)
    | JobObserved(name: string, job: Object)
    | JobAbsent(name: string)
    | JobReadFailed(name: string)
    | PodsListed(jobName: string, pods: seq<Pod>, at: nat)
    | PodsListFailed(jobName: string)
    | LogsRead(podName: string, bytes: string)
    | LogsReadFailed(podName: string)
    | OrphansListed(kind: Kind)
    | OrphansUnlisted(kind: Kind)

  datatype DeleteReply = Accepted | Missing | Rejected

  function DeleteReplied(key: Key, uid: nat, reply: DeleteReply): seq<Event> {
    if reply.Rejected? then [DeleteRefused(key.kind)]
    else if key.kind.Job? then []
    else [SecretDeleteAcknowledged(key.name, uid)]
  }

  datatype GetReply = Found(job: Object) | Absent | GetFailed

  predicate SameOrNew(objects: map<Key, Object>, next: nat, k: Key, o: Object) {
    (k in objects && objects[k].uid == o.uid && objects[k].labels == o.labels) || o.uid >= next
  }

  /** Is this a resource of an earlier process of the installation? */
  predicate Orphan(installation: string, process: string, l: Labels) {
    l.managedBy == MANAGED_BY && l.installation == installation && l.process != process
  }

  const MANAGED_BY: string := "plugin-bench"

  /** What other actors can do to the namespace in any time. */
  ghost predicate Drift(installation: string, process: string,
                        objects: map<Key, Object>, next: nat, objects': map<Key, Object>, next': nat) {
    && next <= next'
    && (forall k :: k in objects' ==> objects'[k].uid < next' && SameOrNew(objects, next, k, objects'[k]))
    && (forall k :: k in objects' && objects'[k].uid >= next ==> !Orphan(installation, process, objects'[k].labels))
  }

  lemma DriftReflexive(installation: string, process: string, objects: map<Key, Object>, next: nat)
    requires forall k :: k in objects ==> objects[k].uid < next
    ensures Drift(installation, process, objects, next, objects, next)
  {
  }

  /** No object has this UID, nor will any ever have it. */
  ghost predicate Gone(objects: map<Key, Object>, next: nat, uid: nat) {
    uid < next && forall k :: k in objects ==> objects[k].uid != uid
  }

  /** If any object has this UID it is the one under this key. */
  ghost predicate Bound(objects: map<Key, Object>, next: nat, key: Key, uid: nat) {
    uid < next && forall k :: k in objects && objects[k].uid == uid ==> k == key
  }

  /** Everything that can change, as one value. */
  datatype World = World(objects: map<Key, Object>, next: nat, now: nat, cancelled: bool, events: seq<Event>, removed: seq<Object>)

  /** Time does not go back, a cancellation stays, and what happened has happened. */
  ghost predicate Before(v: World, w: World) {
    v.now <= w.now && (v.cancelled ==> w.cancelled) && v.events <= w.events
  }

  /** Why a context ended: its deadline has passed, or it was cancelled. */
  predicate Ended(ctx: Context, timedOut: bool, now: nat, cancelled: bool) {
    if timedOut then now >= ctx.deadline else ctx.cancellable && cancelled
  }

  /** From one moment to a later one: drift, and our own calls recorded. */
  ghost predicate Moves(installation: string, process: string, v: World, w: World) {
    && Drift(installation, process, v.objects, v.next, w.objects, w.next)
    && Before(v, w) && v.removed <= w.removed
  }

  function GetReplied(name: string, reply: GetReply): Event {
    match reply
    case Found(job) => JobObserved(name, job)
    case Absent => JobAbsent(name)
    case GetFailed => JobReadFailed(name)
  }

  function CreateReply(key: Key, uid: nat): Event {
    if uid == 0 then CreateRefused(key.kind)
    else if key.kind.Job? then CreatedJob(key.name, uid)
    else CreatedSecret(key.name, uid)
  }

  predicate IsWrite(e: Event) { e.CreatedSecret? || e.CreatedJob? || e.DeleteSent? || e.SecretDeleteAcknowledged? }

  /** Moves without any write of ours. */
  ghost predicate Reads(installation: string, process: string, v: World, w: World) {
    && Moves(installation, process, v, w) && w.removed == v.removed
    && forall i :: |v.events| <= i < |w.events| ==> !IsWrite(w.events[i])
  }

  lemma MovesTransitive(installation: string, process: string, u: World, v: World, w: World)
    requires Moves(installation, process, u, v) && Moves(installation, process, v, w)
    ensures Moves(installation, process, u, w)
    ensures Reads(installation, process, u, v) && Reads(installation, process, v, w) ==> Reads(installation, process, u, w)
  {
  }

  class API {
    const installation: string
    const process: string
    var objects: map<Key, Object>
    var nextUID: nat
    var now: nat
    var cancelled: bool
    ghost var events: seq<Event>
    /** The objects that requests of this coordinator removed. */
    ghost var removed: seq<Object>

    ghost predicate Valid()
      reads this
    {
      && nextUID > 0
      && (forall k :: k in objects ==> 0 < objects[k].uid < nextUID)
      && (forall k, l :: k in objects && l in objects && k != l ==> objects[k].uid != objects[l].uid)
    }

    ghost function Now(): World
      reads this
    {
      World(objects, nextUID, now, cancelled, events, removed)
    }

    ghost predicate MovedFrom(v: World)
      reads this
    {
      Moves(installation, process, v, Now())
    }

    ghost predicate ReadFrom(v: World)
      reads this
    {
      Reads(installation, process, v, Now())
    }

    predicate Expired(ctx: Context)
      reads this
    {
      (ctx.cancellable && cancelled) || now >= ctx.deadline
    }

    /** The error of an expired context; when both reasons hold, either may have come first. */
    method Reason(ctx: Context) returns (timedOut: bool)
      requires Expired(ctx)
      ensures Ended(ctx, timedOut, now, cancelled)
    {
      timedOut := *;
      if !Ended(ctx, timedOut, now, cancelled) { timedOut := !timedOut; }
    }

    /** The system's source of randomness, which may fail. */
    method Random() returns (text: Option<string>)
      requires Valid()
      modifies `events
      ensures Valid() && ReadFrom(old(Now()))
      ensures events == old(events) + if text.Some? then [] else [NoRandomness]
    {
      text := *;
      events := events + if text.Some? then [] else [NoRandomness];
    }

    /** Others act, time passes, the service may be told to shut down. */
    method Elapse(deadline: nat)
      requires Valid()
      modifies `objects, `nextUID, `now, `cancelled
      ensures Valid()
      ensures Drift(installation, process, old(objects), old(nextUID), objects, nextUID)
      ensures old(now) <= now && (now <= old(now) || now <= deadline)
      ensures old(cancelled) ==> cancelled
    {
      DriftReflexive(installation, process, objects, nextUID);
      var later: nat := *;
      if now <= later <= deadline { now := later; }
      var stop: bool := *;
      cancelled := cancelled || stop;
      var world: map<Key, Object>, next: nat := *, *;
      if Plausible(world, next) {
        objects, nextUID := world, next;
      }
    }

    predicate Plausible(world: map<Key, Object>, next: nat)
      reads this
    {
      && nextUID <= next
      && (forall k | k in world :: 0 < world[k].uid < next && SameOrNew(objects, nextUID, k, world[k]))
      && (forall k, l | k in world && l in world :: k != l ==> world[k].uid != world[l].uid)
      && (forall k | k in world && world[k].uid >= nextUID :: !Orphan(installation, process, world[k].labels))
    }

    /** A wait of the given length, ended early by the context. */
    method Sleep(length: nat, ctx: Context)
      requires Valid() && length > 0
      modifies `objects, `nextUID, `now, `cancelled
      ensures Valid() && ReadFrom(old(Now())) && events == old(events)
      ensures now <= old(now) || now <= ctx.deadline
      ensures Expired(ctx) || now >= old(now) + length
    {
      var tick := now + length;
      Elapse(ctx.deadline);
      if !Expired(ctx) && now < tick {
        now := if tick <= ctx.deadline then tick else ctx.deadline;
      }
    }

    /** Creates an object under a name that is not in use; 0 when no success was reported. */
    method CreateObject(key: Key, labels: Labels, ctx: Context) returns (uid: nat)
      requires Valid() && !Orphan(installation, process, labels)
      modifies this
      ensures Valid() && MovedFrom(old(Now()))
      ensures now <= old(now) || now <= ctx.deadline
      ensures uid > 0 ==> uid >= old(nextUID) && Bound(objects, nextUID, key, uid) && Tagged(objects, nextUID, uid, labels)
      ensures events == old(events) + [CreateReply(key, uid)]
      ensures removed == old(removed)
    {
      ghost var start := Now();
      Elapse(ctx.deadline);
      ghost var middle := Now();
      uid := Place(key, labels);
      MovesTransitive(installation, process, start, middle, Now());
    }

    method Place(key: Key, labels: Labels) returns (uid: nat)
      requires Valid() && !Orphan(installation, process, labels)
      modifies `objects, `nextUID, `events
      ensures Valid() && MovedFrom(old(Now()))
      ensures uid > 0 ==> uid >= old(nextUID) && Bound(objects, nextUID, key, uid) && Tagged(objects, nextUID, uid, labels)
      ensures events == old(events) + [CreateReply(key, uid)]
    {
      uid := 0;
      var works: bool := *;
      if key !in objects && works {
        var identity := nextUID;
        nextUID := nextUID + 1;
        objects := objects[key := Object(identity, labels, [])];
        var acknowledged: bool := *;
        if acknowledged { uid := identity; }
      }
      events := events + [CreateReply(key, uid)];
    }

    /** A delete with a UID precondition.  Foreground deletion may leave the object in place for a
        while; otherwise an accepted delete removes it at once. */
    method DeleteObject(key: Key, uid: nat, foreground: bool, ctx: Context, ghost labels: Labels) returns (reply: DeleteReply)
      requires Valid() && uid > 0
      requires Bound(objects, nextUID, key, uid) && Tagged(objects, nextUID, uid, labels)
      modifies this
      ensures Valid() && MovedFrom(old(Now()))
      ensures now <= old(now) || now <= ctx.deadline
      ensures reply.Missing? || (reply.Accepted? && !foreground) ==> Gone(objects, nextUID, uid)
      ensures events == old(events) + [DeleteSent(key, uid, old(now))] + DeleteReplied(key, uid, reply)
      ensures removed == old(removed) ||
              exists o :: removed == old(removed) + [o] && o.uid == uid && o.labels == labels
    {
      ghost var start := Now();
      events := events + [DeleteSent(key, uid, now)];
      Elapse(ctx.deadline);
      ghost var middle := Now();
      IdentityStays(installation, process, start.objects, start.next, objects, nextUID, key, uid, labels);
      reply := Remove(key, uid, foreground, labels);
      MovesTransitive(installation, process, start, middle, Now());
      events := events + DeleteReplied(key, uid, reply);
    }

    method Remove(key: Key, uid: nat, foreground: bool, ghost labels: Labels) returns (reply: DeleteReply)
      requires Valid() && uid > 0
      requires Bound(objects, nextUID, key, uid) && Tagged(objects, nextUID, uid, labels)
      modifies `objects, `removed
      ensures Valid() && MovedFrom(old(Now()))
      ensures reply.Missing? || (reply.Accepted? && !foreground) ==> Gone(objects, nextUID, uid)
      ensures removed == old(removed) ||
              exists o :: removed == old(removed) + [o] && o.uid == uid && o.labels == labels
    {
      var works: bool := *;
      reply := Rejected;
      if key !in objects {
        if works { reply := Missing; }
      } else if objects[key].uid == uid {
        var pending: bool := *;
        if works && !(foreground && pending) {
          removed := removed + [objects[key]];
          objects := objects - {key};
        }
        var acknowledged: bool := *;
        if works && acknowledged { reply := Accepted; }
      }
    }

    method GetJob(name: string, ctx: Context, ghost uid: nat) returns (reply: GetReply)
      requires Valid() && Bound(objects, nextUID, Key(Job, name), uid)
      modifies this
      ensures Valid() && ReadFrom(old(Now()))
      ensures now <= old(now) || now <= ctx.deadline
      ensures reply.Absent? ==> Gone(objects, nextUID, uid)
      ensures reply.Found? ==> reply.job.uid > 0
      ensures events == old(events) + [GetReplied(name, reply)]
    {
      ghost var start := Now();
      Elapse(ctx.deadline);
      BoundStays(installation, process, start.objects, start.next, objects, nextUID, Key(Job, name), uid);
      reply := Look(name);
      events := events + [GetReplied(name, reply)];
    }

    method Look(name: string) returns (reply: GetReply)
      requires Valid()
      ensures reply.Absent? ==> Key(Job, name) !in objects
      ensures reply.Found? ==> reply.job.uid > 0
    {
      var works: bool := *;
      if !works { return GetFailed; }
      return if Key(Job, name) in objects then Found(objects[Key(Job, name)]) else Absent;
    }

    method ListPods(jobName: string, ctx: Context) returns (pods: Option<seq<Pod>>)
      requires Valid()
      modifies this
      ensures Valid() && ReadFrom(old(Now()))
      ensures now <= old(now) || now <= ctx.deadline
      ensures events == old(events) + [if pods.Some? then PodsListed(jobName, pods.value, now) else PodsListFailed(jobName)]
    {
      Elapse(ctx.deadline);
      var reply: Option<seq<Pod>> := *;
      pods := reply;
      events := events + [if pods.Some? then PodsListed(jobName, pods.value, now) else PodsListFailed(jobName)];
    }

    /** The complete log stream of a Pod, however long. */
    method ReadLogs(podName: string, ctx: Context) returns (stream: Option<string>)
      requires Valid()
      modifies this
      ensures Valid() && ReadFrom(old(Now()))
      ensures now <= old(now) || now <= ctx.deadline
      ensures events == old(events) + [if stream.Some? then LogsRead(podName, stream.value) else LogsReadFailed(podName)]
    {
      Elapse(ctx.deadline);
      var reply: Option<string> := *;
      stream := reply;
      events := events + [if stream.Some? then LogsRead(podName, stream.value) else LogsReadFailed(podName)];
    }

    /** Lists what the orphan selector matches: everything of that kind, in any order. */
    method ListOrphans(kind: Kind, ctx: Context) returns (items: Option<seq<(string, Object)>>)
      requires Valid()
      modifies this
      ensures Valid() && ReadFrom(old(Now()))
      ensures now <= old(now) || now <= ctx.deadline
      ensures items.Some? ==>
                && (forall i :: 0 <= i < |items.value| ==> Listed(kind, items.value[i]))
                && (forall k :: k in objects && k.kind == kind && Orphan(installation, process, objects[k].labels) ==>
                      (k.name, objects[k]) in items.value)
      ensures events == old(events) + [if items.Some? then OrphansListed(kind) else OrphansUnlisted(kind)]
    {
      Elapse(ctx.deadline);
      var works: bool := *;
      if works {
        var found := AllOrphans(kind);
        items := Some(found);
      } else {
        items := None;
      }
      events := events + [if items.Some? then OrphansListed(kind) else OrphansUnlisted(kind)];
    }

    method AllOrphans(kind: Kind) returns (found: seq<(string, Object)>)
      requires Valid()
      ensures forall i :: 0 <= i < |found| ==> Listed(kind, found[i])
      ensures forall k :: k in objects && k.kind == kind && Orphan(installation, process, objects[k].labels) ==>
                (k.name, objects[k]) in found
    {
      var todo := set k | k in objects && k.kind == kind && Orphan(installation, process, objects[k].labels);
      found := [];
      while todo != {}
        invariant forall k :: k in todo ==> k in objects && k.kind == kind && Orphan(installation, process, objects[k].labels)
        invariant forall i :: 0 <= i < |found| ==> Listed(kind, found[i])
        invariant forall k :: k in objects && k.kind == kind && Orphan(installation, process, objects[k].labels) ==>
                    k in todo || (k.name, objects[k]) in found
        decreases todo
      {
        var k :| k in todo;
        assert Listed(kind, (k.name, objects[k]));
        found, todo := found + [(k.name, objects[k])], todo - {k};
      }
    }

    ghost predicate Listed(kind: Kind, item: (string, Object))
      reads this
    {
      && item.1.uid > 0 && Orphan(installation, process, item.1.labels)
      && Bound(objects, nextUID, Key(kind, item.0), item.1.uid) && Tagged(objects, nextUID, item.1.uid, item.1.labels)
    }
  }

  /** Any object with this UID carries these labels. */
  ghost predicate Tagged(objects: map<Key, Object>, next: nat, uid: nat, labels: Labels) {
    uid < next && forall k :: k in objects && objects[k].uid == uid ==> objects[k].labels == labels
  }

  // ---- what drift cannot change ----

  lemma BoundStays(installation: string, process: string, o: map<Key, Object>, n: nat, o': map<Key, Object>, n': nat,
                   key: Key, uid: nat)
    requires Drift(installation, process, o, n, o', n') && Bound(o, n, key, uid)
    ensures Bound(o', n', key, uid)
  {
  }

  lemma IdentityStays(installation: string, process: string, o: map<Key, Object>, n: nat, o': map<Key, Object>, n': nat,
                      key: Key, uid: nat, labels: Labels)
    requires Drift(installation, process, o, n, o', n') && Bound(o, n, key, uid) && Tagged(o, n, uid, labels)
    ensures Bound(o', n', key, uid) && Tagged(o', n', uid, labels)
  {
  }
}
