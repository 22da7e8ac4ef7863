/** The API server as the target reconciler sees it: a workload, the PowerTarget
    record bound to it and the audit log, each with optimistic concurrency.

    Every call takes a `Call`, which fixes what other writers did before it reached
    the server, which cached version a read returned, and the call's own fate.
    Quantifying over calls is quantifying over interleavings, stale caches, lost
    replies and crashes. */
module Cluster {
  import opened Domain
  import opened Faults

  // ---------------------------------------------------------------- the workload

  /** The two fields Aura Power may write, read with their Kubernetes defaults. */
  datatype Workload = Workload(uid: string, replicas: int, suspended: bool) {
    predicate Running(kind: Kind) {
      PowerStateFromObserved(Observed(replicas, suspended), kind).On?
    }

    function PoweredDown(kind: Kind): (r: Workload)
      ensures !r.Running(kind) && r.uid == uid
    {
      if kind.CronJob? then this.(suspended := true) else this.(replicas := 0)
    }

    /** Equal in the one field a snapshot of this kind keeps. */
    predicate SameLevel(kind: Kind, other: Workload) {
      if kind.CronJob? then suspended == other.suspended else replicas == other.replicas
    }
  }

  datatype Writer = Outside | AuraOff | AuraOn

  datatype Version = Version(load: Workload, writer: Writer)

  // ---------------------------------------------------------------- the PowerTarget record

  /** `revision` is the resourceVersion at capture, an index into the workload's versions. */
  datatype Snapshot = Snapshot(available: bool, replicas: Option<int>, suspended: Option<bool>, revision: Option<nat>)

  datatype Phase = InProgress | Applied | Converged | Contended | Failed

  datatype AuditPhase = Unset | Pending | Recorded

  datatype AuditAction = WorkloadPoweredDown | WorkloadRestored | ExecutionError

  /** Who decided, when a notification is suppressed. */
  datatype Disposition = Disposition(suppressed: bool, namespaceLabel: bool, namespaceUid: string) {
    predicate Valid() {
      if suppressed then namespaceLabel && namespaceUid != "" else !namespaceLabel
    }
  }

  /** The winning rule revision and the state it asks for. */
  datatype DecisionKey = DecisionKey(kind: RuleKind, namespace: string, name: string, createdAt: int, desired: PowerState)

  /** SHA-256 of the decision key and the attempt time, taken as injective. */
  datatype EventId = EventId(key: DecisionKey, attemptedAt: Option<int>)

  datatype Action = Action(
    desired: PowerState, key: DecisionKey, phase: Phase,
    attemptedAt: Option<int>, completedAt: Option<int>, retryToken: string,
    auditId: Option<EventId>, auditPhase: AuditPhase, auditAction: Option<AuditAction>, auditRule: string,
    disposition: Option<Disposition>)

  /** The decision fields copied into status and the label derived from them. */
  datatype View = View(desired: Option<PowerState>, managed: bool, divergent: bool, blocked: bool)

  datatype Label = NoLabel | LabelBlocked | LabelDivergent | LabelState(desired: Option<PowerState>)

  /** `seenAt` is the workload version the observation was projected from, if any was yet. */
  datatype Record = Record(
    seen: Observed, seenAt: Option<nat>, snapshot: Option<Snapshot>, action: Option<Action>,
    failures: nat, retryToken: string, tag: Label, view: View) {

    predicate SnapshotReady() {
      snapshot.Some? && snapshot.value.available
    }

    predicate AuditPending() {
      action.Some? && action.value.auditPhase.Pending?
    }
  }

  // ---------------------------------------------------------------- the audit log

  datatype AuditResult = Success | Failure

  datatype AuditEvent = AuditEvent(
    id: Option<EventId>, timestamp: int, action: AuditAction, result: AuditResult,
    rule: string, disposition: Disposition)

  const SECOND := 1_000_000_000

  /** Audit specs are compared with timestamps cut to whole seconds. */
  predicate AuditSpecsEqual(left: AuditEvent, right: AuditEvent) {
    left.(timestamp := left.timestamp / SECOND) == right.(timestamp := right.timestamp / SECOND)
  }

  // ---------------------------------------------------------------- the world

  /** `hist` and `recs` hold every committed version, so the last entry is live and an
      index is a resourceVersion.  `audits` are the named audit records, `loose` those
      with generated names, `queue` what was handed to the notifier. */
  datatype World = World(
    kind: Kind, uid: string, hist: seq<Version>, recs: seq<Record>,
    audits: map<EventId, AuditEvent>, loose: seq<AuditEvent>, queue: seq<AuditEvent>, clock: int) {

    ghost predicate Live() {
      |hist| > 0 && |recs| > 0
    }

    function Load(): Workload
      requires |hist| > 0
    {
      hist[|hist| - 1].load
    }

    function Rec(): Record
      requires |recs| > 0
    {
      recs[|recs| - 1]
    }
  }

  type LiveWorld = w: World | w.Live()
    witness World(Deployment, "u", [Version(Workload("u", 1, false), Outside)],
                  [Record(Observed(1, false), None, None, None, 0, "", NoLabel, View(None, false, false, false))],
                  map[], [], [], 0)

  /** A clock sample; no two samples are equal. */
  function Tick(w: LiveWorld, elapsed: nat): LiveWorld {
    w.(clock := w.clock + 1 + elapsed)
  }

  // ---------------------------------------------------------------- other writers

  /** Another field manager writes (or replaces) the workload; discovery stores the
      projection of some version it read; an operator sets the retry annotation. */
  datatype EnvStep = WriteWorkload(load: Workload) | Observe(at: nat) | Annotate(token: string)

  function EnvOne(w: LiveWorld, e: EnvStep): LiveWorld {
    match e
    case WriteWorkload(load) => w.(hist := w.hist + [Version(load, Outside)])
    case Observe(at) =>
      if at < |w.hist| then
        var load := w.hist[at].load;
        w.(recs := w.recs + [w.Rec().(seen := Observed(load.replicas, load.suspended), seenAt := Some(at))])
      else w
    case Annotate(token) => w.(recs := w.recs + [w.Rec().(retryToken := token)])
  }

  /** The observation is the projection of the version it names. */
  predicate Projected(w: LiveWorld, rec: Record) {
    rec.seenAt.Some? ==>
      rec.seenAt.value < |w.hist| &&
      rec.seen == Observed(w.hist[rec.seenAt.value].load.replicas, w.hist[rec.seenAt.value].load.suspended)
  }

  /** Between `w` and `r` only other writers moved the workload and the record; they
      append versions and never touch a snapshot or an action. */
  ghost predicate Calm(w: LiveWorld, r: LiveWorld) {
    && r.kind == w.kind && r.uid == w.uid
    && w.hist <= r.hist && w.recs <= r.recs
    && (forall i :: |w.hist| <= i < |r.hist| ==> r.hist[i].writer.Outside?)
    && (forall i :: |w.recs| <= i < |r.recs| ==>
          && r.recs[i].snapshot == w.Rec().snapshot && r.recs[i].action == w.Rec().action
          && (Projected(r, r.recs[i]) || (r.recs[i].seen == w.Rec().seen && r.recs[i].seenAt == w.Rec().seenAt)))
  }

  lemma CalmTransitive(a: LiveWorld, b: LiveWorld, c: LiveWorld)
    requires Calm(a, b) && Calm(b, c)
    ensures Calm(a, c)
  {
  }

  /** The audit log, the queue and the clock belong to the controller alone. */
  predicate SameLogs(w: LiveWorld, r: LiveWorld) {
    r.audits == w.audits && r.clock == w.clock && r.loose == w.loose && r.queue == w.queue
  }

  function Env(w: LiveWorld, steps: seq<EnvStep>): (r: LiveWorld)
    ensures SameLogs(w, r) && r.kind == w.kind && r.uid == w.uid
    ensures |w.hist| <= |r.hist| && |w.recs| <= |r.recs|
    decreases |steps|
  {
    if steps == [] then w else Env(EnvOne(w, steps[0]), steps[1..])
  }

  lemma EnvIsCalm(w: LiveWorld, steps: seq<EnvStep>)
    ensures Calm(w, Env(w, steps))
    decreases |steps|
  {
    if steps != [] {
      var w1 := EnvOne(w, steps[0]);
      EnvIsCalm(w1, steps[1..]);
      CalmTransitive(w, w1, Env(w, steps));
    }
  }

  datatype Call = Call(before: seq<EnvStep>, fate: Fate, at: nat)

  // ---------------------------------------------------------------- API calls

  /** Write of the PowerTarget read at version `rv`; refused unless `rv` is still the last. */
  function PutRecord(w: LiveWorld, rv: nat, rec: Record, c: Call): (LiveWorld, Reply) {
    var w1 := Env(w, c.before);
    var fits := rv == |w1.recs| - 1;
    (if fits && c.fate.Commits() then w1.(recs := w1.recs + [rec]) else w1, ReplyTo(c.fate, fits))
  }

  datatype ExecReply = Accepted | Stale | Broken | Killed

  /** Update of the workload read at version `at`; a conflict is told apart from other errors. */
  function PutWorkload(w: LiveWorld, at: nat, load: Workload, writer: Writer, c: Call): (LiveWorld, ExecReply) {
    var w1 := Env(w, c.before);
    var fits := at == |w1.hist| - 1;
    (if fits && c.fate.Commits() then w1.(hist := w1.hist + [Version(load, writer)]) else w1,
     if c.fate.Dies() then Killed
     else if !c.fate.Done? then Broken
     else if fits then Accepted
     else Stale)
  }

  // ---------------------------------------------------------------- executor

  /** Cached read of the workload followed by the UID check. */
  function ReadWorkload(w: LiveWorld, c: Call): (LiveWorld, ExecReply) {
    var w1 := Env(w, c.before);
    (w1, if c.fate.Dies() then Killed
         else if !c.fate.Done? || c.at >= |w1.hist| || w1.hist[c.at].load.uid != w1.uid then Broken
         else Accepted)
  }

  function SnapshotOf(kind: Kind, load: Workload, at: nat): Snapshot {
    if kind.CronJob?
    then Snapshot(true, None, Some(load.suspended), Some(at))
    else Snapshot(true, Some(load.replicas), None, Some(at))
  }

  /** PowerDown: the revision read must be the snapshot's, and still be live when written. */
  function PowerDown(w: LiveWorld, snapshot: Snapshot, get: Call, put: Call): (LiveWorld, ExecReply) {
    var (w1, read) := ReadWorkload(w, get);
    if !read.Accepted? then (w1, read)
    else if snapshot.revision != Some(get.at) then (w1, Stale)
    else PutWorkload(w1, get.at, w1.hist[get.at].load.PoweredDown(w.kind), AuraOff, put)
  }

  predicate Restorable(kind: Kind, snapshot: Snapshot) {
    if kind.CronJob? then snapshot.suspended.Some? else snapshot.replicas.Some?
  }

  function Restored(kind: Kind, load: Workload, snapshot: Snapshot): Workload
    requires Restorable(kind, snapshot)
  {
    if kind.CronJob?
    then load.(suspended := snapshot.suspended.value)
    else load.(replicas := snapshot.replicas.value)
  }

  /** Restore: a conflict is an ordinary error, and a CronJob already at the saved flag is not written. */
  function Restore(w: LiveWorld, snapshot: Snapshot, get: Call, put: Call): (LiveWorld, ExecReply) {
    if !Restorable(w.kind, snapshot) then (w, Broken) else
    var (w1, read) := ReadWorkload(w, get);
    if !read.Accepted? then (w1, read) else
    var load := w1.hist[get.at].load;
    if w.kind.CronJob? && load.suspended == snapshot.suspended.value then (w1, Accepted) else
    var (w2, reply) := PutWorkload(w1, get.at, Restored(w.kind, load, snapshot), AuraOn, put);
    (w2, if reply.Stale? then Broken else reply)
  }

  // ---------------------------------------------------------------- audit recorder

  datatype AuditCalls = AuditCalls(create: Call, existing: Call, verify: Call, queueHasRoom: bool)

  datatype RecordReply = Stored | Unavailable | Mismatch | Invalid | QueueFull | RecorderDead

  function CreateAudit(w: LiveWorld, e: AuditEvent): (r: LiveWorld)
    requires e.id.Some? ==> e.id.value !in w.audits
  {
    if e.id.Some? then w.(audits := w.audits[e.id.value := e]) else w.(loose := w.loose + [e])
  }

  /** Reads the record back and hands it to the notifier unless it says suppressed. */
  function VerifyAndEnqueue(w: LiveWorld, e: AuditEvent, c: AuditCalls): (LiveWorld, RecordReply)
    requires e.id.Some? ==> e.id.value in w.audits
  {
    var w1 := Env(w, c.verify.before);
    if c.verify.fate.Dies() then (w1, RecorderDead)
    else if !c.verify.fate.Done? then (w1, Unavailable)
    else
      var persisted := if e.id.Some? then w1.audits[e.id.value] else e;
      if !AuditSpecsEqual(persisted, e) then (w1, Mismatch)
      else if persisted.disposition.suppressed then (w1, Stored)
      else if c.queueHasRoom then (w1.(queue := w1.queue + [e]), Stored)
      else (w1, QueueFull)
  }

  function RecordAudit(w: LiveWorld, e: AuditEvent, c: AuditCalls): (LiveWorld, RecordReply) {
    if !e.disposition.Valid() then (w, Invalid) else
    var w1 := Env(w, c.create.before);
    if e.id.Some? && e.id.value in w1.audits then
      if c.create.fate.Dies() then (w1, RecorderDead)
      else if !c.create.fate.Done? then (w1, Unavailable)
      else
        // AlreadyExists: compare with the stored record before going on
        var w2 := Env(w1, c.existing.before);
        if c.existing.fate.Dies() then (w2, RecorderDead)
        else if !c.existing.fate.Done? then (w2, Unavailable)
        else if !AuditSpecsEqual(w2.audits[e.id.value], e) then (w2, Mismatch)
        else VerifyAndEnqueue(w2, e, c)
    else
      var w2 := if c.create.fate.Commits() then CreateAudit(w1, e) else w1;
      if c.create.fate.Dies() then (w2, RecorderDead)
      else if !c.create.fate.Done? then (w2, Unavailable)
      else VerifyAndEnqueue(w2, e, c)
  }
}
