/** One pass of the target reconciler as a function of the world, the decision, the
    record version the cache returned and the script of its API calls
    (internal/adapters/driving/reconciler/target_reconciler.go). */
module ReconcileSpec {
  import opened Domain
  import opened Cluster

  const CONVERGENCE_GRACE := 120 * SECOND

  /** Reads made at the mutation boundary to decide whether notifications are
      suppressed.  `readable` covers every failure of those reads, a terminating
      namespace and a namespace without UID. */
  datatype PolicyRead = PolicyRead(before: seq<EnvStep>, readable: bool, disabled: bool, namespaceUid: string)

  datatype HpaCheck = Admitted | NotOptedIn | Unverified

  datatype Script = Script(
    elapsed: nat, relabel: Call, policy: PolicyRead, audit: AuditCalls, recorded: Call, existing: Call,
    capture: Call, snapshot: Call, captureFailed: Call, hpa: HpaCheck, hpaWrite: Call,
    intent: Call, verify: Call, get: Call, put: Call, outcome: Call, final: Call)

  /** The PowerTarget held in memory and the version it was read or written at. */
  datatype Mem = Mem(rec: Record, rv: nat)

  datatype Flow = Go(w: LiveWorld, mem: Mem) | Halt(w: LiveWorld)

  // ---------------------------------------------------------------- decisions

  predicate Acts(d: Decision) {
    d.IsManaged() && !d.IsBlocked() && d.desired.Some?
  }

  function KeyOf(d: Decision): DecisionKey
    requires Acts(d)
  {
    var rule := d.winner.value;
    DecisionKey(rule.kind, rule.namespace, rule.name, rule.createdAt, d.desired.value)
  }

  function ViewOf(d: Decision): View {
    View(d.desired, d.IsManaged(), d.divergent, d.IsBlocked())
  }

  function LabelOf(d: Decision): Label {
    if d.IsBlocked() then LabelBlocked else if d.divergent then LabelDivergent else LabelState(d.desired)
  }

  function ObservedPower(w: LiveWorld, rec: Record): PowerState {
    PowerStateFromObserved(rec.seen, w.kind)
  }

  // ---------------------------------------------------------------- shared steps

  function Save(w: LiveWorld, mem: Mem, c: Call): Flow {
    var (w1, reply) := PutRecord(w, mem.rv, mem.rec, c);
    if reply.Ok? then Go(w1, mem.(rv := |w1.recs| - 1)) else Halt(w1)
  }

  function LiveDisposition(w: LiveWorld, p: PolicyRead): (LiveWorld, Option<Disposition>) {
    var w1 := Env(w, p.before);
    (w1, if p.readable && p.namespaceUid != "" && w1.uid != "" && w1.Load().uid == w1.uid
         then Some(Disposition(p.disabled, p.disabled, p.namespaceUid))
         else None)
  }

  /** The success event of an action whose mutation was accepted. */
  function EventOf(a: Action): AuditEvent
    requires a.completedAt.Some? && a.auditAction.Some? && a.disposition.Some?
  {
    AuditEvent(a.auditId, a.completedAt.value, a.auditAction.value, Success, a.auditRule, a.disposition.value)
  }

  /** An execution error is recorded under a generated name, with the action's own
      disposition when it has one. */
  function RecordError(w: LiveWorld, a: Option<Action>, rule: string, s: Script): (LiveWorld, RecordReply) {
    if a.Some? && a.value.disposition.Some? then
      RecordAudit(w, AuditEvent(None, w.clock, ExecutionError, Failure, rule, a.value.disposition.value), s.audit)
    else
      var (w1, live) := LiveDisposition(w, s.policy);
      if live.None? then (w1, Unavailable)
      else RecordAudit(w1, AuditEvent(None, w1.clock, ExecutionError, Failure, rule, live.value), s.audit)
  }

  // ---------------------------------------------------------------- stages

  /** updateTargetStatus, and the metadata write when the state label changes.  The
      reply to that write resets the in-memory status to the stored one. */
  function ProjectDecision(w: LiveWorld, mem: Mem, d: Decision, s: Script): Flow {
    if mem.rec.tag == LabelOf(d)
    then Go(w, mem.(rec := mem.rec.(view := ViewOf(d))))
    else Save(w, mem.(rec := mem.rec.(tag := LabelOf(d))), s.relabel)
  }

  /** reconcilePendingAudit: `Go` when there is nothing to record. */
  function PendingAudit(w: LiveWorld, mem: Mem, s: Script): Flow {
    if !mem.rec.AuditPending() || mem.rec.action.value.auditId.None? then Go(w, mem) else
    var a := mem.rec.action.value;
    if a.disposition.None? then
      var (w1, live) := LiveDisposition(w, s.policy);
      if live.None? then Halt(w1)
      else Halt(Save(w1, mem.(rec := mem.rec.(action := Some(a.(disposition := live)))), s.recorded).w)
    else if a.auditAction.None? || a.auditAction.value.ExecutionError? then Halt(w)
    else
      var event := EventOf(if a.completedAt.Some? then a else a.(completedAt := Some(w.clock)));
      var (w1, reply) := RecordAudit(w, event, s.audit);
      if reply.Stored?
      then Halt(Save(w1, mem.(rec := mem.rec.(action := Some(a.(auditPhase := Recorded)))), s.recorded).w)
      else Halt(w1)
  }

  /** The live state was restored by someone else: the stale snapshot must not be replayed. */
  predicate AlreadyRestored(w: LiveWorld, rec: Record, d: Decision)
    requires Acts(d)
  {
    && d.desired.value.On? && ObservedPower(w, rec).On? && rec.snapshot.Some?
    && (rec.action.None? ||
        var a := rec.action.value;
        || a.phase.Converged? || a.phase.Contended?
        || (a.desired.On? && !a.phase.InProgress? && !a.auditPhase.Pending?))
  }

  /** The stored action is the one this decision asks for and was not abandoned. */
  predicate SameAttempt(rec: Record, d: Decision)
    requires Acts(d)
  {
    && rec.action.Some?
    && rec.action.value.desired == d.desired.value && rec.action.value.key == KeyOf(d)
    && !rec.action.value.phase.Failed?
    && rec.action.value.retryToken == rec.retryToken
  }

  function AfterRestoredElsewhere(w: LiveWorld, rec: Record, d: Decision): Record
    requires Acts(d)
  {
    if AlreadyRestored(w, rec, d) then
      rec.(snapshot := None,
           action := Some(Action(d.desired.value, KeyOf(d), Converged, None, Some(w.clock), rec.retryToken,
                                 None, Unset, None, "", None)))
    else rec
  }

  function ActionFor(desired: PowerState): AuditAction {
    if desired.On? then WorkloadRestored else WorkloadPoweredDown
  }

  function RuleName(d: Decision): string {
    if d.winner.Some? then d.winner.value.name else ""
  }

  /** reconcileExistingAction: `Halt` when the pass is over, `Go` when it may act. */
  function ExistingAction(w: LiveWorld, mem: Mem, d: Decision, s: Script): Flow
    requires Acts(d)
  {
    var observed := ObservedPower(w, mem.rec);
    var rec := AfterRestoredElsewhere(w, mem.rec, d);
    if !SameAttempt(rec, d) then Go(w, mem.(rec := rec)) else
    var a := rec.action.value;
    if observed == d.desired.value && a.phase.InProgress? then
      var named := if a.auditId.Some? then a else
        a.(auditId := Some(EventId(a.key, a.attemptedAt)), auditAction := Some(ActionFor(d.desired.value)), auditRule := RuleName(d));
      var done := named.(phase := Applied, completedAt := Some(w.clock), auditPhase := Pending);
      Halt(Save(w, mem.(rec := rec.(action := Some(done))), s.existing).w)
    else if observed == d.desired.value then
      Go(w, mem.(rec := if a.phase.Converged? then rec
                        else rec.(action := Some(a.(phase := Converged, completedAt := Some(w.clock))))))
    else if a.phase.InProgress? then Go(w, mem.(rec := rec))
    else if a.phase.Applied? && a.completedAt.Some? && w.clock - a.completedAt.value < CONVERGENCE_GRACE then Halt(w)
    else if !a.phase.Contended? then
      Halt(Save(w, mem.(rec := rec.(action := Some(a.(phase := Contended, completedAt := None)))), s.existing).w)
    else Halt(w)
  }

  predicate ActionIntentPersisted(persisted: Option<Action>, intended: Action) {
    && persisted.Some? && persisted.value.disposition.Some? && intended.disposition.Some?
    && persisted.value.disposition == intended.disposition
    && persisted.value.auditId == intended.auditId && persisted.value.auditAction == intended.auditAction
    && persisted.value.auditRule == intended.auditRule && persisted.value.desired == intended.desired
    && persisted.value.key == intended.key && persisted.value.phase == intended.phase
    && persisted.value.retryToken == intended.retryToken
  }

  /** beginAction: disposition, durable intent, read-back. */
  function BeginAction(w: LiveWorld, mem: Mem, d: Decision, s: Script): Flow
    requires Acts(d)
  {
    var (w1, live) := LiveDisposition(w, s.policy);
    if live.None? then Halt(w1) else
    var w2 := Tick(w1, s.elapsed);
    var key := KeyOf(d);
    var intent := Action(d.desired.value, key, InProgress, Some(w2.clock), None, mem.rec.retryToken,
                         Some(EventId(key, Some(w2.clock))), Unset, Some(ActionFor(d.desired.value)), RuleName(d), live);
    var saved := Save(w2, mem.(rec := mem.rec.(action := Some(intent))), s.intent);
    if saved.Halt? then saved else
    var w3 := Env(saved.w, s.verify.before);
    if s.verify.fate.Done? && ActionIntentPersisted(w3.Rec().action, intent) then Go(w3, saved.mem) else Halt(w3)
  }

  /** The mutation was accepted: checkpoint it, then record the audit. */
  function Complete(w: LiveWorld, mem: Mem, d: Decision, s: Script): LiveWorld
    requires mem.rec.action.Some?
  {
    var w1 := Tick(w, s.elapsed);
    var done := mem.rec.action.value.(phase := Applied, completedAt := Some(w1.clock), auditPhase := Pending);
    var mem1 := mem.(rec := mem.rec.(failures := 0, action := Some(done), view := ViewOf(d)));
    var (w2, reply) := PutRecord(w1, mem1.rv, mem1.rec, s.outcome);
    match reply
    case Ok => PendingAudit(w2, mem1.(rv := |w2.recs| - 1), s).w
    case Error => RecordError(w2, Some(done), RuleName(d), s).0
    case Dead => w2
  }

  /** The mutation failed: record the error, then persist the failure; a stale
      snapshot is retired. */
  function Fail(w: LiveWorld, mem: Mem, stale: bool, s: Script): LiveWorld
    requires mem.rec.action.Some?
  {
    var failed := mem.rec.action.value.(phase := Failed, completedAt := None);
    var mem1 := mem.(rec := mem.rec.(failures := mem.rec.failures + 1, action := Some(failed),
                                     snapshot := if stale then None else mem.rec.snapshot));
    var (w1, reply) := RecordError(w, Some(failed), "", s);
    if reply.RecorderDead? then w1 else Save(w1, mem1, s.outcome).w
  }

  /** captureAndPersistSnapshot; on failure the pass ends after counting it. */
  function CaptureSnapshot(w: LiveWorld, mem: Mem, s: Script): Flow {
    if mem.rec.SnapshotReady() then Go(w, mem) else
    var (w1, read) := ReadWorkload(w, s.capture);
    match read
    case Killed => Halt(w1)
    case Accepted =>
      var mem1 := mem.(rec := mem.rec.(snapshot := Some(SnapshotOf(w1.kind, w1.hist[s.capture.at].load, s.capture.at))));
      var (w2, reply) := PutRecord(w1, mem1.rv, mem1.rec, s.snapshot);
      (match reply
       case Ok => Go(w2, mem1.(rv := |w2.recs| - 1))
       case Dead => Halt(w2)
       case Error => Halt(CaptureFailed(w2, mem1, s)))
    case _ => Halt(CaptureFailed(w1, mem, s))
  }

  function CaptureFailed(w: LiveWorld, mem: Mem, s: Script): LiveWorld {
    var (w1, reply) := PutRecord(w, mem.rv, mem.rec.(failures := mem.rec.failures + 1), s.captureFailed);
    if reply.Dead? then w1 else RecordError(w1, None, "", s).0
  }

  function AdmitLiveHPA(w: LiveWorld, mem: Mem, s: Script): Flow {
    if s.hpa.Admitted? then Go(w, mem) else
    var blocked := mem.rec.(view := mem.rec.view.(blocked := true),
                            failures := mem.rec.failures + if s.hpa.Unverified? then 1 else 0);
    Halt(Save(w, mem.(rec := blocked), s.hpaWrite).w)
  }

  function PowerDownPath(w: LiveWorld, mem: Mem, d: Decision, s: Script): LiveWorld
    requires Acts(d)
  {
    var captured := CaptureSnapshot(w, mem, s);
    if captured.Halt? then captured.w else
    var admitted := AdmitLiveHPA(captured.w, captured.mem, s);
    if admitted.Halt? then admitted.w else
    var begun := BeginAction(admitted.w, admitted.mem, d, s);
    if begun.Halt? then begun.w else
    Execute(begun.w, begun.mem, d, s)
  }

  /** executePowerDown and what follows it. */
  function Execute(w: LiveWorld, mem: Mem, d: Decision, s: Script): LiveWorld {
    if mem.rec.action.None? then w else
    if !mem.rec.SnapshotReady() then Fail(w, mem, false, s) else
    var (w1, reply) := PowerDown(w, mem.rec.snapshot.value, s.get, s.put);
    match reply
    case Accepted => Complete(w1, mem, d, s)
    case Killed => w1
    case Stale => Fail(w1, mem, true, s)
    case Broken => Fail(w1, mem, false, s)
  }

  function RestorePath(w: LiveWorld, mem: Mem, d: Decision, s: Script): LiveWorld
    requires Acts(d)
  {
    var begun := BeginAction(w, mem, d, s);
    if begun.Halt? then begun.w else
    ExecuteRestore(begun.w, begun.mem, d, s)
  }

  function ExecuteRestore(w: LiveWorld, mem: Mem, d: Decision, s: Script): LiveWorld {
    if mem.rec.action.None? then w else
    if !mem.rec.SnapshotReady() then Fail(w, mem, false, s) else
    var (w1, reply) := Restore(w, mem.rec.snapshot.value, s.get, s.put);
    match reply
    case Accepted => Complete(w1, mem, d, s)
    case Killed => w1
    case _ => Fail(w1, mem, false, s)
  }

  /** Status is written only when it differs from what was read. */
  function PersistStatus(w: LiveWorld, mem: Mem, was: Record, s: Script): LiveWorld {
    if mem.rec.(tag := was.tag) == was then w else Save(w, mem, s.final).w
  }

  /** The part of a pass after the audit boundary. */
  function Act(w: LiveWorld, mem: Mem, was: Record, d: Decision, s: Script): LiveWorld {
    if !Acts(d) then PersistStatus(w, mem, was, s) else
    var observed := ObservedPower(w, mem.rec);
    var existing := ExistingAction(w, mem, d, s);
    if existing.Halt? then existing.w
    else if d.desired.value.Off? && observed.On? then PowerDownPath(existing.w, existing.mem, d, s)
    else if d.desired.value.On? && observed.Off? then RestorePath(existing.w, existing.mem, d, s)
    else PersistStatus(existing.w, existing.mem, was, s)
  }

  function Reconcile(w: LiveWorld, d: Decision, readAt: nat, s: Script): LiveWorld
    requires readAt < |w.recs|
  {
    if w.uid == "" then w else
    var was := w.recs[readAt];
    var w0 := Tick(w, s.elapsed);
    var projected := ProjectDecision(w0, Mem(was, readAt), d, s);
    if projected.Halt? then projected.w else
    var audited := PendingAudit(projected.w, projected.mem, s);
    if audited.Halt? then audited.w else
    Act(audited.w, audited.mem, was, d, s)
  }
}
