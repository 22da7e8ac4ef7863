/** The controller in its own imperative form: objects that read, change and write back,
    one API call at a time.  Each method is proved to do to the API server exactly what
    the corresponding function of `Cluster` and `ReconcileSpec` says, so every result
    about those functions is a result about these methods. */
module Controller {
  import opened Domain
  import opened Faults
  import opened Cluster
  import Spec = ReconcileSpec
  import Safety = SnapshotSafety
  import Writes = WorkloadWrites
  import Trail = AuditTrail

  lemma PassGuarantees(w: LiveWorld, d: Decision, readAt: nat, s: Spec.Script)
    requires readAt < |w.recs|
    ensures var r := Spec.Reconcile(w, d, readAt, s);
            && Writes.Adds(w, r, Writes.Allowed(d))
            && (Trail.Inv(w) ==> Trail.Inv(r))
            && (Safety.Inv(w) && !(readAt == |w.recs| - 1 && Safety.OffByAura(w) && Safety.Exposed(w, w.Rec(), d)) ==> Safety.Inv(r))
  {
    hide Spec.Reconcile, Safety.Inv, Safety.OffByAura, Safety.Exposed, Trail.Inv;
    Writes.WritesObeyDecision(w, d, readAt, s);
    if Trail.Inv(w) {
      Trail.PassKeepsTrail(w, d, readAt, s);
    }
    if Safety.Inv(w) && !(readAt == |w.recs| - 1 && Safety.OffByAura(w) && Safety.Exposed(w, w.Rec(), d)) {
      Safety.ReconcileKeeps(w, d, readAt, s);
    }
  }

  /** The shared state behind every call. */
  class ApiServer {
    var w: LiveWorld

    method Interfere(steps: seq<EnvStep>)
      modifies this
      ensures w == Env(old(w), steps)
    {
      var i := 0;
      while i < |steps|
        invariant 0 <= i <= |steps|
        invariant Env(w, steps[i..]) == Env(old(w), steps)
      {
        w := EnvOne(w, steps[i]);
        i := i + 1;
      }
    }

    method UpdateTarget(rv: nat, rec: Record, c: Call) returns (reply: Reply)
      modifies this
      ensures (w, reply) == PutRecord(old(w), rv, rec, c)
    {
      Interfere(c.before);
      var fits := rv == |w.recs| - 1;
      if fits && c.fate.Commits() {
        w := w.(recs := w.recs + [rec]);
      }
      reply := ReplyTo(c.fate, fits);
    }

    method GetWorkload(c: Call) returns (reply: ExecReply)
      modifies this
      ensures (w, reply) == ReadWorkload(old(w), c)
      ensures reply.Accepted? ==> c.at < |w.hist|
    {
      Interfere(c.before);
      if c.fate.Dies() {
        reply := Killed;
      } else if !c.fate.Done? || c.at >= |w.hist| || w.hist[c.at].load.uid != w.uid {
        reply := Broken;
      } else {
        reply := Accepted;
      }
    }

    method UpdateWorkload(at: nat, load: Workload, writer: Writer, c: Call) returns (reply: ExecReply)
      modifies this
      ensures (w, reply) == PutWorkload(old(w), at, load, writer, c)
    {
      Interfere(c.before);
      var fits := at == |w.hist| - 1;
      if fits && c.fate.Commits() {
        w := w.(hist := w.hist + [Version(load, writer)]);
      }
      if c.fate.Dies() {
        reply := Killed;
      } else if !c.fate.Done? {
        reply := Broken;
      } else {
        reply := if fits then Accepted else Stale;
      }
    }
  }

  /** internal/adapters/driven/kubernetes/executor.go */
  class Executor {
    const api: ApiServer

    constructor (api: ApiServer)
      ensures this.api == api
    {
      this.api := api;
    }

    method PowerDown(snapshot: Snapshot, get: Call, put: Call) returns (reply: ExecReply)
      modifies api
      ensures (api.w, reply) == Cluster.PowerDown(old(api.w), snapshot, get, put)
    {
      reply := api.GetWorkload(get);
      if !reply.Accepted? {
        return;
      }
      if snapshot.revision != Some(get.at) {
        return Stale;
      }
      var load := api.w.hist[get.at].load.PoweredDown(api.w.kind);
      reply := api.UpdateWorkload(get.at, load, AuraOff, put);
    }

    method Restore(snapshot: Snapshot, get: Call, put: Call) returns (reply: ExecReply)
      modifies api
      ensures (api.w, reply) == Cluster.Restore(old(api.w), snapshot, get, put)
    {
      if !Restorable(api.w.kind, snapshot) {
        return Broken;
      }
      reply := api.GetWorkload(get);
      if !reply.Accepted? {
        return;
      }
      var load := api.w.hist[get.at].load;
      if api.w.kind.CronJob? && load.suspended == snapshot.suspended.value {
        return Accepted;
      }
      reply := api.UpdateWorkload(get.at, Restored(api.w.kind, load, snapshot), AuraOn, put);
      if reply.Stale? {
        reply := Broken;
      }
    }
  }

  /** internal/adapters/driven/kubernetes/audit.go */
  class AuditRecorder {
    const api: ApiServer

    constructor (api: ApiServer)
      ensures this.api == api
    {
      this.api := api;
    }

    method Record(e: AuditEvent, c: AuditCalls) returns (reply: RecordReply)
      modifies api
      ensures (api.w, reply) == RecordAudit(old(api.w), e, c)
    {
      if !e.disposition.Valid() {
        return Invalid;
      }
      api.Interfere(c.create.before);
      var exists_ := e.id.Some? && e.id.value in api.w.audits;
      if !exists_ && c.create.fate.Commits() {
        if e.id.Some? {
          api.w := api.w.(audits := api.w.audits[e.id.value := e]);
        } else {
          api.w := api.w.(loose := api.w.loose + [e]);
        }
      }
      if c.create.fate.Dies() {
        return RecorderDead;
      }
      if !c.create.fate.Done? {
        return Unavailable;
      }
      if exists_ {
        api.Interfere(c.existing.before);
        if c.existing.fate.Dies() {
          return RecorderDead;
        }
        if !c.existing.fate.Done? {
          return Unavailable;
        }
        if !AuditSpecsEqual(api.w.audits[e.id.value], e) {
          return Mismatch;
        }
      }
      api.Interfere(c.verify.before);
      if c.verify.fate.Dies() {
        return RecorderDead;
      }
      if !c.verify.fate.Done? {
        return Unavailable;
      }
      var persisted := if e.id.Some? then api.w.audits[e.id.value] else e;
      if !AuditSpecsEqual(persisted, e) {
        return Mismatch;
      }
      if !persisted.disposition.suppressed {
        if !c.queueHasRoom {
          return QueueFull;
        }
        api.w := api.w.(queue := api.w.queue + [e]);
      }
      return Stored;
    }
  }

  /** internal/adapters/driving/reconciler/target_reconciler.go.  `target` is the
      PowerTarget being reconciled, `rv` the version it was read or last written at. */
  class TargetReconciler {
    const api: ApiServer
    const executor: Executor
    const recorder: AuditRecorder
    var target: Record
    var rv: nat

    ghost predicate Wired() {
      executor.api == api && recorder.api == api
    }

    constructor (api: ApiServer)
      ensures Wired() && this.api == api
    {
      this.api := api;
      executor := new Executor(api);
      recorder := new AuditRecorder(api);
      target := Record(Observed(0, false), None, None, None, 0, "", NoLabel, View(None, false, false, false));
      rv := 0;
    }

    /** Writes `target`; `halted` when the pass cannot go on. */
    method UpdateStatus(c: Call) returns (halted: bool)
      requires Wired()
      modifies this`rv, api
      ensures var flow := Spec.Save(old(api.w), Spec.Mem(target, old(rv)), c);
              api.w == flow.w && halted == flow.Halt? && (!halted ==> Spec.Mem(target, rv) == flow.mem)
    {
      var reply := api.UpdateTarget(rv, target, c);
      halted := !reply.Ok?;
      if !halted {
        rv := |api.w.recs| - 1;
      }
    }

    method LiveNotificationSuppression(p: Spec.PolicyRead) returns (live: Option<Disposition>)
      requires Wired()
      modifies api
      ensures (api.w, live) == Spec.LiveDisposition(old(api.w), p)
    {
      api.Interfere(p.before);
      if p.readable && p.namespaceUid != "" && api.w.uid != "" && api.w.Load().uid == api.w.uid {
        live := Some(Disposition(p.disabled, p.disabled, p.namespaceUid));
      } else {
        live := None;
      }
    }

    method RecordError(a: Option<Action>, rule: string, s: Spec.Script) returns (reply: RecordReply)
      requires Wired()
      modifies api
      ensures (api.w, reply) == Spec.RecordError(old(api.w), a, rule, s)
    {
      var disposition;
      if a.Some? && a.value.disposition.Some? {
        disposition := a.value.disposition;
      } else {
        disposition := LiveNotificationSuppression(s.policy);
        if disposition.None? {
          return Unavailable;
        }
      }
      reply := recorder.Record(AuditEvent(None, api.w.clock, ExecutionError, Failure, rule, disposition.value), s.audit);
    }

    method ReconcilePendingAudit(s: Spec.Script) returns (halted: bool)
      requires Wired()
      modifies this, api
      ensures var flow := Spec.PendingAudit(old(api.w), Spec.Mem(old(target), old(rv)), s);
              api.w == flow.w && halted == flow.Halt? && (!halted ==> Spec.Mem(target, rv) == flow.mem)
    {
      hide RecordAudit;
      if !target.AuditPending() || target.action.value.auditId.None? {
        return false;
      }
      var a := target.action.value;
      if a.disposition.None? {
        var live := LiveNotificationSuppression(s.policy);
        if live.Some? {
          target := target.(action := Some(a.(disposition := live)));
          var _ := UpdateStatus(s.recorded);
        }
        return true;
      }
      if a.auditAction.None? || a.auditAction.value.ExecutionError? {
        return true;
      }
      var timestamp := if a.completedAt.Some? then a.completedAt.value else api.w.clock;
      var reply := recorder.Record(AuditEvent(a.auditId, timestamp, a.auditAction.value, Success, a.auditRule, a.disposition.value), s.audit);
      if reply.Stored? {
        target := target.(action := Some(a.(auditPhase := Recorded)));
        var _ := UpdateStatus(s.recorded);
      }
      return true;
    }

    method CompleteAction(phase: Phase)
      modifies this`target
      ensures target == if old(target).action.None? then old(target) else
                        old(target).(action := Some(old(target).action.value.(phase := phase, completedAt := Some(api.w.clock))))
    {
      if target.action.Some? {
        target := target.(action := Some(target.action.value.(phase := phase, completedAt := Some(api.w.clock))));
      }
    }

    method ReconcileExistingAction(d: Decision, s: Spec.Script) returns (halted: bool)
      requires Wired() && Spec.Acts(d)
      modifies this, api
      ensures var flow := Spec.ExistingAction(old(api.w), Spec.Mem(old(target), old(rv)), d, s);
              api.w == flow.w && halted == flow.Halt? && (!halted ==> Spec.Mem(target, rv) == flow.mem)
    {
      var desired := d.desired.value;
      var observed := Spec.ObservedPower(api.w, target);
      if Spec.AlreadyRestored(api.w, target, d) {
        target := target.(snapshot := None, action := Some(
          Action(desired, Spec.KeyOf(d), Converged, None, Some(api.w.clock), target.retryToken, None, Unset, None, "", None)));
      }
      if target.action.None? {
        return false;
      }
      var a := target.action.value;
      if a.desired != desired || a.key != Spec.KeyOf(d) || a.phase.Failed? || target.retryToken != a.retryToken {
        return false;
      }
      if observed == desired && a.phase.InProgress? {
        if a.auditId.None? {
          a := a.(auditId := Some(EventId(a.key, a.attemptedAt)), auditAction := Some(Spec.ActionFor(desired)), auditRule := Spec.RuleName(d));
        }
        target := target.(action := Some(a.(auditPhase := Pending)));
        CompleteAction(Applied);
        var _ := UpdateStatus(s.existing);
        return true;
      }
      if observed == desired {
        if !a.phase.Converged? {
          CompleteAction(Converged);
        }
        return false;
      }
      if a.phase.InProgress? {
        return false;
      }
      if a.phase.Applied? && a.completedAt.Some? && api.w.clock - a.completedAt.value < Spec.CONVERGENCE_GRACE {
        return true;
      }
      if !a.phase.Contended? {
        target := target.(action := Some(a.(phase := Contended, completedAt := None)));
        var _ := UpdateStatus(s.existing);
      }
      return true;
    }

    method BeginAction(d: Decision, s: Spec.Script) returns (halted: bool)
      requires Wired() && Spec.Acts(d)
      modifies this, api
      ensures var flow := Spec.BeginAction(old(api.w), Spec.Mem(old(target), old(rv)), d, s);
              api.w == flow.w && halted == flow.Halt? && (!halted ==> Spec.Mem(target, rv) == flow.mem)
    {
      var live := LiveNotificationSuppression(s.policy);
      if live.None? {
        return true;
      }
      api.w := Tick(api.w, s.elapsed);
      var key, now := Spec.KeyOf(d), api.w.clock;
      var intent := Action(d.desired.value, key, InProgress, Some(now), None, target.retryToken,
                           Some(EventId(key, Some(now))), Unset, Some(Spec.ActionFor(d.desired.value)), Spec.RuleName(d), live);
      target := target.(action := Some(intent));
      halted := UpdateStatus(s.intent);
      if !halted {
        api.Interfere(s.verify.before);
        halted := !(s.verify.fate.Done? && Spec.ActionIntentPersisted(api.w.Rec().action, intent));
      }
    }

    method Complete(d: Decision, s: Spec.Script)
      requires Wired() && target.action.Some?
      modifies this, api
      ensures api.w == Spec.Complete(old(api.w), Spec.Mem(old(target), old(rv)), d, s)
    {
      hide RecordAudit;
      api.w := Tick(api.w, s.elapsed);
      target := target.(failures := 0, action := Some(target.action.value.(auditPhase := Pending)));
      CompleteAction(Applied);
      target := target.(view := Spec.ViewOf(d));
      var reply := api.UpdateTarget(rv, target, s.outcome);
      if reply.Ok? {
        rv := |api.w.recs| - 1;
        var _ := ReconcilePendingAudit(s);
      } else if reply.Error? {
        var _ := RecordError(target.action, Spec.RuleName(d), s);
      }
    }

    method Fail(stale: bool, s: Spec.Script)
      requires Wired() && target.action.Some?
      modifies this, api
      ensures api.w == Spec.Fail(old(api.w), Spec.Mem(old(target), old(rv)), stale, s)
    {
      hide RecordAudit;
      target := target.(failures := target.failures + 1,
                        action := Some(target.action.value.(phase := Failed, completedAt := None)));
      if stale {
        target := target.(snapshot := None);
      }
      var reply := RecordError(target.action, "", s);
      if !reply.RecorderDead? {
        var _ := UpdateStatus(s.outcome);
      }
    }

    method CaptureAndPersistSnapshot(s: Spec.Script) returns (halted: bool)
      requires Wired()
      modifies this, api
      ensures var flow := Spec.CaptureSnapshot(old(api.w), Spec.Mem(old(target), old(rv)), s);
              api.w == flow.w && halted == flow.Halt? && (!halted ==> Spec.Mem(target, rv) == flow.mem)
    {
      hide RecordAudit, Spec.RecordError;
      if target.SnapshotReady() {
        return false;
      }
      var read := api.GetWorkload(s.capture);
      if read.Killed? {
        return true;
      }
      if read.Accepted? {
        target := target.(snapshot := Some(SnapshotOf(api.w.kind, api.w.hist[s.capture.at].load, s.capture.at)));
        var reply := api.UpdateTarget(rv, target, s.snapshot);
        if reply.Ok? {
          rv := |api.w.recs| - 1;
          return false;
        }
        if reply.Dead? {
          return true;
        }
      }
      target := target.(failures := target.failures + 1);
      var failed := api.UpdateTarget(rv, target, s.captureFailed);
      if !failed.Dead? {
        var _ := RecordError(None, "", s);
      }
      return true;
    }

    method AdmitLiveHPA(s: Spec.Script) returns (halted: bool)
      requires Wired()
      modifies this, api
      ensures var flow := Spec.AdmitLiveHPA(old(api.w), Spec.Mem(old(target), old(rv)), s);
              api.w == flow.w && halted == flow.Halt? && (!halted ==> Spec.Mem(target, rv) == flow.mem)
    {
      if s.hpa.Admitted? {
        return false;
      }
      target := target.(view := target.view.(blocked := true));
      if s.hpa.Unverified? {
        target := target.(failures := target.failures + 1);
      }
      var _ := UpdateStatus(s.hpaWrite);
      return true;
    }

    method PowerDown(d: Decision, s: Spec.Script)
      requires Wired() && Spec.Acts(d)
      modifies this, api
      ensures api.w == Spec.PowerDownPath(old(api.w), Spec.Mem(old(target), old(rv)), d, s)
    {
      hide Spec.CaptureSnapshot, Spec.BeginAction, Spec.Complete, Spec.Fail, Cluster.PowerDown, Spec.AdmitLiveHPA;
      var halted := CaptureAndPersistSnapshot(s);
      if halted {
        return;
      }
      halted := AdmitLiveHPA(s);
      if halted {
        return;
      }
      halted := BeginAction(d, s);
      if halted || target.action.None? {
        return;
      }
      if !target.SnapshotReady() {
        Fail(false, s);
        return;
      }
      var reply := executor.PowerDown(target.snapshot.value, s.get, s.put);
      match reply
      case Accepted => Complete(d, s);
      case Stale => Fail(true, s);
      case Broken => Fail(false, s);
      case Killed =>
    }

    method Restore(d: Decision, s: Spec.Script)
      requires Wired() && Spec.Acts(d)
      modifies this, api
      ensures api.w == Spec.RestorePath(old(api.w), Spec.Mem(old(target), old(rv)), d, s)
    {
      hide Spec.BeginAction, Spec.Complete, Spec.Fail, Cluster.Restore;
      var halted := BeginAction(d, s);
      if halted || target.action.None? {
        return;
      }
      if !target.SnapshotReady() {
        Fail(false, s);
        return;
      }
      var reply := executor.Restore(target.snapshot.value, s.get, s.put);
      if reply.Accepted? {
        Complete(d, s);
      } else if !reply.Killed? {
        Fail(false, s);
      }
    }

    /** One reconcile pass on the record version the cache returned.  Whatever its calls meet,
        it writes the workload only as the decision allows, keeps the audit trail, and keeps
        the snapshot invariant unless it starts from an exposed record. */
    method Reconcile(d: Decision, readAt: nat, s: Spec.Script)
      requires Wired() && readAt < |api.w.recs|
      modifies this, api
      ensures api.w == Spec.Reconcile(old(api.w), d, readAt, s)
      ensures Writes.Adds(old(api.w), api.w, Writes.Allowed(d))
      ensures Trail.Inv(old(api.w)) ==> Trail.Inv(api.w)
      ensures Safety.Inv(old(api.w)) && !(readAt == |old(api.w).recs| - 1 && Safety.OffByAura(old(api.w)) && Safety.Exposed(old(api.w), old(api.w).Rec(), d)) ==>
                Safety.Inv(api.w)
    {
      PassGuarantees(api.w, d, readAt, s);
      hide Spec.PendingAudit, Spec.ExistingAction, Spec.PowerDownPath, Spec.RestorePath;
      hide Safety.Inv, Safety.OffByAura, Safety.Exposed, Trail.Inv, Writes.Adds, Writes.Allowed;
      if api.w.uid == "" {
        return;
      }
      var was := api.w.recs[readAt];
      target, rv := was, readAt;
      api.w := Tick(api.w, s.elapsed);
      var halted := false;
      if target.tag == Spec.LabelOf(d) {
        target := target.(view := Spec.ViewOf(d));
      } else {
        target := target.(tag := Spec.LabelOf(d));
        halted := UpdateStatus(s.relabel);
        if halted {
          return;
        }
      }
      halted := ReconcilePendingAudit(s);
      if halted {
        return;
      }
      if Spec.Acts(d) {
        var observed := Spec.ObservedPower(api.w, target);
        halted := ReconcileExistingAction(d, s);
        if halted {
          return;
        }
        if d.desired.value.Off? && observed.On? {
          PowerDown(d, s);
          return;
        }
        if d.desired.value.On? && observed.Off? {
          Restore(d, s);
          return;
        }
      }
      if target.(tag := was.tag) != was {
        var _ := UpdateStatus(s.final);
      }
    }
  }
}
