/** Nothing Aura Power switched off can lose the value needed to switch it back on.

    `Safe` is kept by every pass of the reconciler, under every interleaving with other
    writers, every lost reply and every crash, exactly as long as no pass starts while
    its record is `Exposed`; an observation that is not older than the controller's own
    power-down is never `Exposed`. */
module SnapshotSafety {
  import opened Domain
  import opened Faults
  import opened Cluster
  import opened ReconcileSpec

  // ---------------------------------------------------------------- the property

  predicate Saves(kind: Kind, s: Snapshot, load: Workload) {
    if kind.CronJob? then s.suspended == Some(load.suspended) else s.replicas == Some(load.replicas)
  }

  /** Version `k` is the controller's power-down of a running workload, and it is still in
      force at the end of `hist`: whoever wrote the workload since (its status, its labels)
      left the replica count or suspend flag as it was. */
  predicate OffIn(kind: Kind, hist: seq<Version>, k: nat) {
    && 1 <= k < |hist| && hist[k].writer.AuraOff? && hist[k - 1].load.Running(kind)
    && forall i :: k < i < |hist| ==> hist[i].writer.Outside? && hist[i].load.SameLevel(kind, hist[k].load)
  }

  predicate OffAt(w: LiveWorld, k: nat) {
    OffIn(w.kind, w.hist, k)
  }

  predicate OffByAura(w: LiveWorld) {
    exists k :: 0 <= k < |w.hist| && OffIn(w.kind, w.hist, k)
  }

  /** What the power-down at `k` overwrote. */
  function Overwritten(w: LiveWorld, k: nat): Workload
    requires OffAt(w, k)
  {
    w.hist[k - 1].load
  }

  predicate KeepsOverwritten(w: LiveWorld, rec: Record) {
    forall k :: 0 <= k < |w.hist| && OffIn(w.kind, w.hist, k) ==>
      rec.SnapshotReady() && Saves(w.kind, rec.snapshot.value, Overwritten(w, k))
  }

  predicate Safe(w: LiveWorld) {
    KeepsOverwritten(w, w.Rec())
  }

  // ---------------------------------------------------------------- the invariant

  /** A snapshot bound to a revision holds what that revision held. */
  predicate Truthful(w: LiveWorld, rec: Record) {
    rec.SnapshotReady() && rec.snapshot.value.revision.Some? ==>
      var at := rec.snapshot.value.revision.value;
      at < |w.hist| && Saves(w.kind, rec.snapshot.value, w.hist[at].load)
  }

  /** Writing `rec` now would keep the invariant. */
  predicate Writable(w: LiveWorld, rec: Record) {
    KeepsOverwritten(w, rec) && Truthful(w, rec) && Projected(w, rec)
  }

  predicate Inv(w: LiveWorld) {
    && Writable(w, w.Rec())
    && (forall i :: 0 <= i < |w.hist| && w.hist[i].writer.AuraOff? ==>
          w.hist[i].load.uid == w.uid && !w.hist[i].load.Running(w.kind))
  }

  lemma CalmKeeps(w: LiveWorld, r: LiveWorld, rec: Record)
    requires Calm(w, r)
    ensures Inv(w) ==> Inv(r)
    ensures Writable(w, rec) ==> Writable(r, rec)
    ensures NoNewOff(w, r)
  {
    forall k: nat | OffIn(r.kind, r.hist, k)
      ensures OffIn(w.kind, w.hist, k) && r.hist[k - 1] == w.hist[k - 1]
    {
      assert k < |w.hist|;
      assert forall i :: 0 <= i < |w.hist| ==> w.hist[i] == r.hist[i];
    }
    if |r.recs| == |w.recs| {
      assert r.recs == w.recs;
    } else {
      assert r.Rec().snapshot == w.Rec().snapshot;
    }
  }

  lemma VerifyIsCalm(w: LiveWorld, e: AuditEvent, c: AuditCalls)
    requires e.id.Some? ==> e.id.value in w.audits
    ensures Calm(w, VerifyAndEnqueue(w, e, c).0)
  {
    EnvIsCalm(w, c.verify.before);
  }

  lemma RecordAuditIsCalm(w: LiveWorld, e: AuditEvent, c: AuditCalls)
    ensures Calm(w, RecordAudit(w, e, c).0)
  {
    if e.disposition.Valid() {
      EnvIsCalm(w, c.create.before);
      var w1 := Env(w, c.create.before);
      if e.id.Some? && e.id.value in w1.audits {
        var w2 := Env(w1, c.existing.before);
        EnvIsCalm(w1, c.existing.before);
        CalmTransitive(w, w1, w2);
        VerifyIsCalm(w2, e, c);
        CalmTransitive(w, w2, VerifyAndEnqueue(w2, e, c).0);
      } else if c.create.fate.Done? {
        var w2 := CreateAudit(w1, e);
        assert Calm(w, w2);
        VerifyIsCalm(w2, e, c);
        CalmTransitive(w, w2, VerifyAndEnqueue(w2, e, c).0);
      }
    }
  }

  // ---------------------------------------------------------------- one pass, step by step

  /** Memory that can still be written is memory worth writing. */
  predicate Ready(w: LiveWorld, mem: Mem) {
    Inv(w) && mem.rv < |w.recs| && (mem.rv == |w.recs| - 1 ==> Writable(w, mem.rec))
  }

  /** The power-down in force at `r`, if any, was already in force at `w`. */
  predicate NoNewOff(w: LiveWorld, r: LiveWorld) {
    && r.kind == w.kind && r.uid == w.uid
    && forall k :: 0 <= k < |r.hist| && OffIn(r.kind, r.hist, k) ==>
         k < |w.hist| && OffIn(w.kind, w.hist, k) && r.hist[k - 1] == w.hist[k - 1]
  }

  lemma CalmReady(w: LiveWorld, r: LiveWorld, mem: Mem)
    requires Calm(w, r) && Ready(w, mem)
    ensures Ready(r, mem) && NoNewOff(w, r)
  {
    CalmKeeps(w, r, mem.rec);
  }

  lemma EnvKeeps(w: LiveWorld, steps: seq<EnvStep>, mem: Mem)
    requires Ready(w, mem)
    ensures Ready(Env(w, steps), mem) && NoNewOff(w, Env(w, steps))
    ensures Env(w, steps).Rec().snapshot == w.Rec().snapshot
    ensures Truthful(w, mem.rec) ==> Truthful(Env(w, steps), mem.rec)
  {
    EnvIsCalm(w, steps);
    CalmReady(w, Env(w, steps), mem);
  }

  lemma PutKeeps(w: LiveWorld, mem: Mem, c: Call)
    requires Ready(w, mem)
    ensures var r := PutRecord(w, mem.rv, mem.rec, c);
            && Inv(r.0) && NoNewOff(w, r.0)
            && Ready(r.0, mem.(rv := if r.1.Ok? then |r.0.recs| - 1 else mem.rv))
            && (r.1.Ok? ==> r.0.Rec() == mem.rec && mem.rv == |w.recs| - 1)
  {
    EnvKeeps(w, c.before, mem);
  }

  lemma RecordKeeps(w: LiveWorld, e: AuditEvent, c: AuditCalls, mem: Mem)
    requires Ready(w, mem)
    ensures Ready(RecordAudit(w, e, c).0, mem) && NoNewOff(w, RecordAudit(w, e, c).0)
  {
    RecordAuditIsCalm(w, e, c);
    CalmReady(w, RecordAudit(w, e, c).0, mem);
  }

  lemma ErrorKeeps(w: LiveWorld, a: Option<Action>, rule: string, s: Script, mem: Mem)
    requires Ready(w, mem)
    ensures var r := RecordError(w, a, rule, s).0; Ready(r, mem) && NoNewOff(w, r)
  {
    if a.Some? && a.value.disposition.Some? {
      RecordKeeps(w, AuditEvent(None, w.clock, ExecutionError, Failure, rule, a.value.disposition.value), s.audit, mem);
    } else {
      EnvKeeps(w, s.policy.before, mem);
      var (w1, live) := LiveDisposition(w, s.policy);
      if live.Some? {
        RecordKeeps(w1, AuditEvent(None, w1.clock, ExecutionError, Failure, rule, live.value), s.audit, mem);
      }
    }
  }

  lemma AuditKeeps(w: LiveWorld, mem: Mem, s: Script)
    requires Ready(w, mem)
    ensures Inv(PendingAudit(w, mem, s).w)
    ensures PendingAudit(w, mem, s).Go? ==>
      PendingAudit(w, mem, s) == Go(w, mem) && !(mem.rec.AuditPending() && mem.rec.action.value.auditId.Some?)
  {
    hide RecordAudit, PutRecord;
    if !mem.rec.AuditPending() || mem.rec.action.value.auditId.None? {
      return;
    }
    var a := mem.rec.action.value;
    if a.disposition.None? {
      var (w1, live) := LiveDisposition(w, s.policy);
      EnvKeeps(w, s.policy.before, mem);
      if live.Some? {
        PutKeeps(w1, mem.(rec := mem.rec.(action := Some(a.(disposition := live)))), s.recorded);
      }
    } else if a.auditAction.Some? && !a.auditAction.value.ExecutionError? {
      var event := EventOf(if a.completedAt.Some? then a else a.(completedAt := Some(w.clock)));
      RecordKeeps(w, event, s.audit, mem);
      var (w1, reply) := RecordAudit(w, event, s.audit);
      if reply.Stored? {
        PutKeeps(w1, mem.(rec := mem.rec.(action := Some(a.(auditPhase := Recorded)))), s.recorded);
      }
    }
  }

  lemma CompleteKeeps(w: LiveWorld, mem: Mem, d: Decision, s: Script)
    requires Ready(w, mem) && mem.rec.action.Some?
    ensures Inv(Complete(w, mem, d, s))
  {
    hide RecordError, PendingAudit, PutRecord;
    var w1 := Tick(w, s.elapsed);
    var done := mem.rec.action.value.(phase := Applied, completedAt := Some(w1.clock), auditPhase := Pending);
    var mem1 := mem.(rec := mem.rec.(failures := 0, action := Some(done), view := ViewOf(d)));
    PutKeeps(w1, mem1, s.outcome);
    var (w2, reply) := PutRecord(w1, mem1.rv, mem1.rec, s.outcome);
    if reply.Ok? {
      AuditKeeps(w2, mem1.(rv := |w2.recs| - 1), s);
    } else if reply.Error? {
      ErrorKeeps(w2, Some(done), RuleName(d), s, mem1);
    }
  }

  lemma FailKeeps(w: LiveWorld, mem: Mem, stale: bool, s: Script)
    requires Ready(w, mem) && mem.rec.action.Some?
    requires stale ==> !OffByAura(w)
    ensures Inv(Fail(w, mem, stale, s))
  {
    hide RecordError;
    var failed := mem.rec.action.value.(phase := Failed, completedAt := None);
    var mem1 := mem.(rec := mem.rec.(failures := mem.rec.failures + 1, action := Some(failed),
                                     snapshot := if stale then None else mem.rec.snapshot));
    ErrorKeeps(w, Some(failed), "", s, mem1);
    var (w1, reply) := RecordError(w, Some(failed), "", s);
    PutKeeps(w1, mem1, s.outcome);
    assert Fail(w, mem, stale, s) == if reply.RecorderDead? then w1 else Save(w1, mem1, s.outcome).w;
  }

  /** The write that switches the workload off overwrites exactly what the stored
      snapshot holds, because the revision it replaces is the snapshot's. */
  lemma PowerDownKeeps(w: LiveWorld, mem: Mem, s: Script)
    requires Ready(w, mem) && mem.rec.SnapshotReady() && Truthful(w, mem.rec)
    requires !OffByAura(w) && w.Rec().snapshot == mem.rec.snapshot
    ensures var r := PowerDown(w, mem.rec.snapshot.value, s.get, s.put);
            Ready(r.0, mem) && (r.1.Stale? ==> !OffByAura(r.0))
  {
    EnvKeeps(w, s.get.before, mem);
    var (w1, read) := ReadWorkload(w, s.get);
    if read.Accepted? && mem.rec.snapshot.value.revision == Some(s.get.at) {
      EnvKeeps(w1, s.put.before, mem);
      var w2 := Env(w1, s.put.before);
      EnvIsCalm(w1, s.put.before);
      if s.get.at == |w2.hist| - 1 {
        OffWriteKeeps(w2, mem, w1.hist[s.get.at].load);
      }
    }
  }

  lemma OffWriteKeeps(w: LiveWorld, mem: Mem, load: Workload)
    requires Ready(w, mem) && mem.rec.SnapshotReady() && Truthful(w, mem.rec)
    requires w.Rec().snapshot == mem.rec.snapshot && mem.rec.snapshot.value.revision == Some(|w.hist| - 1)
    requires load == w.Load() && load.uid == w.uid
    ensures Ready(w.(hist := w.hist + [Version(load.PoweredDown(w.kind), AuraOff)]), mem)
  {
    OnlyTheLast(w.kind, w.hist, Version(load.PoweredDown(w.kind), AuraOff));
  }

  /** After a write of the controller no earlier power-down is in force. */
  lemma OnlyTheLast(kind: Kind, hist: seq<Version>, v: Version)
    requires !v.writer.Outside?
    ensures forall k :: OffIn(kind, hist + [v], k) ==> k == |hist| && v.writer.AuraOff?
  {
    assert (hist + [v])[|hist|] == v;
  }

  lemma ExecuteKeeps(w: LiveWorld, mem: Mem, d: Decision, s: Script)
    requires Ready(w, mem) && !OffByAura(w) && w.Rec().snapshot == mem.rec.snapshot
    requires Truthful(w, mem.rec)
    ensures Inv(Execute(w, mem, d, s))
  {
    if mem.rec.action.Some? {
      if !mem.rec.SnapshotReady() {
        FailKeeps(w, mem, false, s);
      } else {
        PowerDownKeeps(w, mem, s);
        var (w1, reply) := PowerDown(w, mem.rec.snapshot.value, s.get, s.put);
        match reply
        case Accepted => CompleteKeeps(w1, mem, d, s);
        case Killed =>
        case Stale => FailKeeps(w1, mem, true, s);
        case Broken => FailKeeps(w1, mem, false, s);
      }
    }
  }

  lemma BeginKeeps(w: LiveWorld, mem: Mem, d: Decision, s: Script)
    requires Acts(d) && Ready(w, mem)
    ensures var r := BeginAction(w, mem, d, s);
            && Inv(r.w)
            && (r.Go? ==> Ready(r.w, r.mem) && Truthful(r.w, r.mem.rec)
                          && r.mem.rec.snapshot == mem.rec.snapshot == r.w.Rec().snapshot
                          && mem.rv == |w.recs| - 1 && (OffByAura(r.w) ==> OffByAura(w)))
  {
    hide PutRecord, Inv, Writable, OffIn, Truthful, ActionIntentPersisted;
    var (w1, live) := LiveDisposition(w, s.policy);
    EnvKeeps(w, s.policy.before, mem);
    if live.Some? {
      var w2 := Tick(w1, s.elapsed);
      var key := KeyOf(d);
      var intent := Action(d.desired.value, key, InProgress, Some(w2.clock), None, mem.rec.retryToken,
                           Some(EventId(key, Some(w2.clock))), Unset, Some(ActionFor(d.desired.value)), RuleName(d), live);
      var mem1 := mem.(rec := mem.rec.(action := Some(intent)));
      ReadyIgnoresAction(w1, mem, s.elapsed, intent);
      PutKeeps(w2, mem1, s.intent);
      var saved := Save(w2, mem1, s.intent);
      if saved.Go? {
        ReadyIsTruthful(saved.w, saved.mem);
        EnvKeeps(saved.w, s.verify.before, saved.mem);
      }
    }
  }

  lemma ReadyIgnoresAction(w: LiveWorld, mem: Mem, elapsed: nat, a: Action)
    requires Ready(w, mem)
    ensures Ready(Tick(w, elapsed), mem.(rec := mem.rec.(action := Some(a))))
    ensures OffByAura(Tick(w, elapsed)) == OffByAura(w)
  {
  }

  lemma ReadyIsTruthful(w: LiveWorld, mem: Mem)
    requires Ready(w, mem) && mem.rv == |w.recs| - 1
    ensures Truthful(w, mem.rec)
  {
  }

  lemma RestoreKeeps(w: LiveWorld, mem: Mem, d: Decision, s: Script)
    requires Acts(d) && Ready(w, mem)
    ensures Inv(RestorePath(w, mem, d, s))
  {
    hide BeginAction, Complete, Fail, Restore;
    BeginKeeps(w, mem, d, s);
    var begun := BeginAction(w, mem, d, s);
    if begun.Go? && begun.mem.rec.action.Some? {
      if !begun.mem.rec.SnapshotReady() {
        FailKeeps(begun.w, begun.mem, false, s);
      } else {
        var snapshot := begun.mem.rec.snapshot.value;
        var (w1, reply) := Restore(begun.w, snapshot, s.get, s.put);
        RestoreWriteKeeps(begun.w, begun.mem, snapshot, s);
        if reply.Accepted? {
          CompleteKeeps(w1, begun.mem, d, s);
        } else if !reply.Killed? {
          FailKeeps(w1, begun.mem, false, s);
        }
      }
    }
  }

  lemma RestoreWriteKeeps(w: LiveWorld, mem: Mem, snapshot: Snapshot, s: Script)
    requires Ready(w, mem)
    ensures Ready(Restore(w, snapshot, s.get, s.put).0, mem)
  {
    if Restorable(w.kind, snapshot) {
      EnvKeeps(w, s.get.before, mem);
      var w1 := Env(w, s.get.before);
      EnvKeeps(w1, s.put.before, mem);
      var w2 := Env(w1, s.put.before);
      forall load: Workload
        ensures Ready(w2.(hist := w2.hist + [Version(load, AuraOn)]), mem)
      {
        OnWriteKeeps(w2, mem, load);
      }
    }
  }

  lemma OnWriteKeeps(w: LiveWorld, mem: Mem, load: Workload)
    requires Ready(w, mem)
    ensures Ready(w.(hist := w.hist + [Version(load, AuraOn)]), mem)
  {
    OnlyTheLast(w.kind, w.hist, Version(load, AuraOn));
  }

  /** Capturing is harmless unless the controller's own power-down is the live state. */
  lemma CaptureKeeps(w: LiveWorld, mem: Mem, s: Script)
    requires Ready(w, mem)
    requires mem.rv == |w.recs| - 1 ==> !OffByAura(w)
    ensures var r := CaptureSnapshot(w, mem, s);
            && Inv(r.w)
            && (r.Go? ==> Ready(r.w, r.mem) && (r.mem.rv == |r.w.recs| - 1 ==> !OffByAura(r.w)))
  {
    if !mem.rec.SnapshotReady() {
      EnvKeeps(w, s.capture.before, mem);
      var (w1, read) := ReadWorkload(w, s.capture);
      if read.Accepted? {
        var mem1 := mem.(rec := mem.rec.(snapshot := Some(SnapshotOf(w1.kind, w1.hist[s.capture.at].load, s.capture.at))));
        PutKeeps(w1, mem1, s.snapshot);
        var (w2, reply) := PutRecord(w1, mem1.rv, mem1.rec, s.snapshot);
        if reply.Error? {
          CaptureFailedKeeps(w2, mem1, s);
        }
      } else if !read.Killed? {
        CaptureFailedKeeps(w1, mem, s);
      }
    }
  }

  lemma CaptureFailedKeeps(w: LiveWorld, mem: Mem, s: Script)
    requires Ready(w, mem)
    ensures Inv(CaptureFailed(w, mem, s))
  {
    hide RecordError, PutRecord;
    var mem1 := mem.(rec := mem.rec.(failures := mem.rec.failures + 1));
    PutKeeps(w, mem1, s.captureFailed);
    var (w1, reply) := PutRecord(w, mem1.rv, mem1.rec, s.captureFailed);
    if reply.Dead? {
      assert CaptureFailed(w, mem, s) == w1;
    } else {
      ErrorKeeps(w1, None, "", s, mem1.(rv := if reply.Ok? then |w1.recs| - 1 else mem.rv));
      assert CaptureFailed(w, mem, s) == RecordError(w1, None, "", s).0;
    }
  }

  lemma PowerDownPathKeeps(w: LiveWorld, mem: Mem, d: Decision, s: Script)
    requires Acts(d) && Ready(w, mem)
    requires mem.rv == |w.recs| - 1 ==> !OffByAura(w)
    ensures Inv(PowerDownPath(w, mem, d, s))
  {
    CaptureKeeps(w, mem, s);
    var captured := CaptureSnapshot(w, mem, s);
    if captured.Go? {
      AdmitKeeps(captured.w, captured.mem, s);
      if s.hpa.Admitted? {
        BeginKeeps(captured.w, captured.mem, d, s);
        var begun := BeginAction(captured.w, captured.mem, d, s);
        if begun.Go? {
          ExecuteKeeps(begun.w, begun.mem, d, s);
          assert PowerDownPath(w, mem, d, s) == Execute(begun.w, begun.mem, d, s);
        }
      }
    }
  }

  lemma AdmitKeeps(w: LiveWorld, mem: Mem, s: Script)
    requires Ready(w, mem)
    ensures Inv(AdmitLiveHPA(w, mem, s).w)
  {
    var blocked := mem.rec.(view := mem.rec.view.(blocked := true),
                            failures := mem.rec.failures + if s.hpa.Unverified? then 1 else 0);
    PutKeeps(w, mem.(rec := blocked), s.hpaWrite);
  }

  // ---------------------------------------------------------------- when a pass may drop a live snapshot

  /** The stored record and the decision lead a pass to drop or replace the snapshot:
      the observation says running, no audit is owed first, and either the decision
      accepts the running state as restored or it re-issues the power-down. */
  predicate Exposed(w: LiveWorld, rec: Record, d: Decision) {
    && Acts(d) && ObservedPower(w, rec).On?
    && !(rec.AuditPending() && rec.action.value.auditId.Some?)
    && if d.desired.value.On? then AlreadyRestored(w, rec, d)
       else !(SameAttempt(rec, d) && !rec.action.value.phase.InProgress?)
  }

  lemma ActKeeps(w: LiveWorld, mem: Mem, was: Record, d: Decision, s: Script)
    requires Ready(w, mem)
    requires mem.rv == |w.recs| - 1 && OffByAura(w) ==> !Exposed(w, mem.rec, d)
    requires !(mem.rec.AuditPending() && mem.rec.action.value.auditId.Some?)
    ensures Inv(Act(w, mem, was, d, s))
  {
    if !Acts(d) {
      PutKeeps(w, mem, s.final);
    } else {
      ExistingKeeps(w, mem, d, s);
      var existing := ExistingAction(w, mem, d, s);
      var observed := ObservedPower(w, mem.rec);
      if existing.Go? {
        if d.desired.value.Off? && observed.On? {
          PowerDownPathKeeps(existing.w, existing.mem, d, s);
        } else if d.desired.value.On? && observed.Off? {
          RestoreKeeps(existing.w, existing.mem, d, s);
        } else {
          PutKeeps(existing.w, existing.mem, s.final);
        }
      }
    }
  }

  lemma ExistingKeeps(w: LiveWorld, mem: Mem, d: Decision, s: Script)
    requires Acts(d) && Ready(w, mem)
    requires mem.rv == |w.recs| - 1 && OffByAura(w) ==> !Exposed(w, mem.rec, d)
    requires !(mem.rec.AuditPending() && mem.rec.action.value.auditId.Some?)
    ensures var r := ExistingAction(w, mem, d, s);
            && Inv(r.w)
            && (r.Go? ==> r.w == w && r.mem.rv == mem.rv && Ready(w, r.mem)
                          && (d.desired.value.Off? && ObservedPower(w, mem.rec).On? ==>
                                (mem.rv == |w.recs| - 1 ==> !OffByAura(w))))
  {
    var observed := ObservedPower(w, mem.rec);
    var rec := AfterRestoredElsewhere(w, mem.rec, d);
    if SameAttempt(rec, d) {
      var a := rec.action.value;
      if observed == d.desired.value && a.phase.InProgress? {
        var named := if a.auditId.Some? then a else
          a.(auditId := Some(EventId(a.key, a.attemptedAt)), auditAction := Some(ActionFor(d.desired.value)), auditRule := RuleName(d));
        var done := named.(phase := Applied, completedAt := Some(w.clock), auditPhase := Pending);
        PutKeeps(w, mem.(rec := rec.(action := Some(done))), s.existing);
      } else if observed != d.desired.value {
        PutKeeps(w, mem.(rec := rec.(action := Some(a.(phase := Contended, completedAt := None)))), s.existing);
      }
    }
  }

  /** One pass keeps the invariant unless it starts from an exposed record. */
  lemma ReconcileKeeps(w: LiveWorld, d: Decision, readAt: nat, s: Script)
    requires Inv(w) && readAt < |w.recs|
    requires readAt == |w.recs| - 1 && OffByAura(w) ==> !Exposed(w, w.Rec(), d)
    ensures Inv(Reconcile(w, d, readAt, s))
  {
    hide Act, PendingAudit, PutRecord;
    if w.uid != "" {
      var was := w.recs[readAt];
      var w0 := Tick(w, s.elapsed);
      var mem := Mem(was, readAt);
      assert Ready(w0, mem);
      PutKeeps(w0, mem.(rec := was.(tag := LabelOf(d))), s.relabel);
      var projected := ProjectDecision(w0, mem, d, s);
      if projected.Go? {
        AuditKeeps(projected.w, projected.mem, s);
        var audited := PendingAudit(projected.w, projected.mem, s);
        if audited.Go? {
          ActKeeps(audited.w, audited.mem, was, d, s);
        }
      }
    }
  }

  // ---------------------------------------------------------------- every run

  /** A run interleaves passes, each on whatever record version the cache returned,
      with steps of the other writers.  A pass may die anywhere inside. */
  datatype Step = Pass(d: Decision, readAt: nat, s: Script) | Others(steps: seq<EnvStep>)

  function Take(w: LiveWorld, step: Step): LiveWorld {
    match step
    case Pass(d, readAt, s) => if readAt < |w.recs| then Reconcile(w, d, readAt, s) else w
    case Others(steps) => Env(w, steps)
  }

  function After(w: LiveWorld, run: seq<Step>): LiveWorld
    decreases |run|
  {
    if run == [] then w else After(Take(w, run[0]), run[1..])
  }

  /** Discovery has just created the record; whatever the workload went through, the
      controller had no part in it. */
  predicate Start(w: LiveWorld) {
    && (forall i :: 0 <= i < |w.hist| ==> w.hist[i].writer.Outside?)
    && |w.recs| == 1 && w.Rec().snapshot.None? && w.Rec().action.None? && w.Rec().seenAt.None?
    && w.audits == map[] && w.queue == []
  }

  /** No pass of the run starts from an exposed live record. */
  predicate Sheltered(w: LiveWorld, run: seq<Step>)
    decreases |run|
  {
    run == [] ||
    (&& (run[0].Pass? && run[0].readAt == |w.recs| - 1 && OffByAura(w) ==> !Exposed(w, w.Rec(), run[0].d))
     && Sheltered(Take(w, run[0]), run[1..]))
  }

  /** The observation is no older than the controller's power-down in force. */
  predicate FreshRecord(w: LiveWorld) {
    forall k :: 0 <= k < |w.hist| && OffIn(w.kind, w.hist, k) ==> w.Rec().seenAt.Some? && w.Rec().seenAt.value >= k
  }

  /** Every pass sees an observation no older than the controller's own last power-down. */
  predicate FreshEnough(w: LiveWorld, run: seq<Step>)
    decreases |run|
  {
    run == [] ||
    (&& (run[0].Pass? ==> FreshRecord(w))
     && FreshEnough(Take(w, run[0]), run[1..]))
  }

  lemma OthersKeep(w: LiveWorld, steps: seq<EnvStep>)
    requires Inv(w)
    ensures Inv(Env(w, steps))
  {
    EnvIsCalm(w, steps);
    CalmKeeps(w, Env(w, steps), w.Rec());
  }

  lemma {:induction false} RunKeepsSnapshots(w: LiveWorld, run: seq<Step>)
    requires Inv(w) && Sheltered(w, run)
    ensures Inv(After(w, run)) && Safe(After(w, run))
    decreases |run|
  {
    if run != [] {
      match run[0]
      case Pass(d, readAt, s) =>
        if readAt < |w.recs| {
          ReconcileKeeps(w, d, readAt, s);
        }
        RunKeepsSnapshots(Take(w, run[0]), run[1..]);
      case Others(steps) =>
        OthersKeep(w, steps);
        RunKeepsSnapshots(Take(w, run[0]), run[1..]);
    }
  }

  lemma FreshIsNotExposed(w: LiveWorld, d: Decision)
    requires Inv(w) && OffByAura(w) && FreshRecord(w)
    ensures !Exposed(w, w.Rec(), d)
  {
  }

  /** Fresh-enough observations are enough, whatever fails, dies or interferes. */
  lemma {:induction false} FreshRunKeepsSnapshots(w: LiveWorld, run: seq<Step>)
    requires Inv(w) && FreshEnough(w, run)
    ensures Sheltered(w, run) && Safe(After(w, run))
    decreases |run|
  {
    if run != [] {
      match run[0]
      case Pass(d, readAt, s) =>
        if OffByAura(w) {
          FreshIsNotExposed(w, d);
        }
        if readAt < |w.recs| {
          ReconcileKeeps(w, d, readAt, s);
        }
        FreshRunKeepsSnapshots(Take(w, run[0]), run[1..]);
      case Others(steps) =>
        OthersKeep(w, steps);
        FreshRunKeepsSnapshots(Take(w, run[0]), run[1..]);
    }
  }

  // ---------------------------------------------------------------- the condition is exact

  function Calls(at: nat): Call {
    Call([], Done, at)
  }

  /** A pass in which every call succeeds, workload reads return version `at`, and nobody
      interferes but with `before`, just ahead of the mutation. */
  function Nudged(before: seq<EnvStep>, at: nat): Script {
    var c := Calls(at);
    Script(0, c, PolicyRead(before, true, false, "ns"), AuditCalls(c, c, c, true), c, c, c, c, c, Admitted, c, c, c, c, c, c, c)
  }

  /** A pass in which every call succeeds and nobody interferes. */
  function Smooth(at: nat): Script {
    Nudged([], at)
  }

  function PassNow(w: LiveWorld, d: Decision, s: Script): LiveWorld {
    Reconcile(w, d, |w.recs| - 1, s)
  }

  /** Such a pass reaches its action stage with the stored snapshot, action and observation
      in memory. */
  lemma SmoothReachesAct(w: LiveWorld, d: Decision, s: Script) returns (r: LiveWorld, mem: Mem)
    requires w.uid != "" && !(w.Rec().AuditPending() && w.Rec().action.value.auditId.Some?)
    requires s.relabel == Calls(s.relabel.at)
    ensures PassNow(w, d, s) == Act(r, mem, w.Rec(), d, s)
    ensures r.hist == w.hist && r.kind == w.kind && r.uid == w.uid && w.recs <= r.recs
    ensures mem.rv == |r.recs| - 1 && r.audits == w.audits && r.clock >= w.clock
    ensures r.Rec().(tag := w.Rec().tag) == w.Rec()
    ensures mem.rec.(tag := w.Rec().tag, view := w.Rec().view) == w.Rec()
  {
    hide Act, RecordAudit;
    var projected := ProjectDecision(Tick(w, s.elapsed), Mem(w.Rec(), |w.recs| - 1), d, s);
    r, mem := projected.w, projected.mem;
  }

  /** Its beginAction persists the intent and keeps the rest of the record. */
  lemma SmoothBegin(w: LiveWorld, mem: Mem, d: Decision, before: seq<EnvStep>, at: nat) returns (begun: Flow)
    requires Acts(d) && w.uid != "" && mem.rv == |w.recs| - 1
    requires Env(w, before).Load().uid == w.uid && Env(w, before).recs == w.recs
    ensures begun == BeginAction(w, mem, d, Nudged(before, at)) && begun.Go?
    ensures begun.w.hist == Env(w, before).hist && begun.w.kind == w.kind && begun.w.uid == w.uid
    ensures begun.mem.rv == |begun.w.recs| - 1 && begun.w.Rec() == begun.mem.rec
    ensures begun.mem.rec.action.Some? && begun.mem.rec.action.value.disposition == Some(Disposition(false, false, "ns"))
    ensures begun.mem.rec.snapshot == mem.rec.snapshot
  {
    begun := BeginAction(w, mem, d, Nudged(before, at));
  }

  lemma ExposedRestoreDropsSnapshot(w: LiveWorld, mem: Mem, was: Record, d: Decision, s: Script)
    requires Acts(d) && d.desired.value.On? && OffByAura(w) && Exposed(w, mem.rec, d)
    requires mem.rv == |w.recs| - 1 && was.snapshot.Some? && s.final == Calls(s.final.at)
    ensures !Safe(Act(w, mem, was, d, s))
  {
    var k :| 0 <= k < |w.hist| && OffIn(w.kind, w.hist, k);
    var existing := ExistingAction(w, mem, d, s);
    assert existing.Go? && existing.w == w && existing.mem.rv == mem.rv && existing.mem.rec.snapshot.None?;
    assert Act(w, mem, was, d, s) == Save(w, existing.mem, s.final).w;
    assert OffIn(w.kind, Save(w, existing.mem, s.final).w.hist, k);
  }

  /** Nobody writes, or somebody writes the workload once at the level it has. */
  predicate KeepsLevel(w: LiveWorld, k: nat, before: seq<EnvStep>) {
    && OffAt(w, k)
    && (before == [] || (|before| == 1 && before[0].WriteWorkload? && before[0].load.SameLevel(w.kind, w.hist[k].load)))
  }

  lemma LevelIsKept(w: LiveWorld, k: nat, before: seq<EnvStep>)
    requires KeepsLevel(w, k, before)
    ensures var r := Env(w, before);
            && r.recs == w.recs && w.hist <= r.hist && |r.hist| == |w.hist| + |before|
            && k < |w.hist| && OffAt(r, k) && Overwritten(r, k) == Overwritten(w, k)
            && (before == [] ==> r == w) && (before != [] ==> r.Load() == before[0].load)
  {
    if before != [] {
      assert before[1..] == [];
      assert Env(w, before) == EnvOne(w, before[0]);
    }
  }

  /** A pass that fails on a stale snapshot retires it and leaves the workload alone. */
  lemma SmoothFail(w: LiveWorld, mem: Mem, before: seq<EnvStep>, at: nat)
    requires mem.rec.action.Some? && mem.rec.action.value.disposition.Some? && mem.rv == |w.recs| - 1
    ensures var r := Fail(w, mem, true, Nudged(before, at));
            r.hist == w.hist && r.kind == w.kind && r.Rec().snapshot.None?
  {
  }

  lemma StalePowerDown(w: LiveWorld, mem: Mem, d: Decision, s: Script)
    requires mem.rec.action.Some? && mem.rec.SnapshotReady() && s.get == Calls(|w.hist| - 1)
    requires w.Load().uid == w.uid && mem.rec.snapshot.value.revision != Some(|w.hist| - 1)
    ensures Execute(w, mem, d, s) == Fail(w, mem, true, s)
  {
    hide Fail, Complete;
    assert PowerDown(w, mem.rec.snapshot.value, s.get, s.put) == (w, Stale);
  }

  lemma StalePowerDownDropsSnapshot(w: LiveWorld, mem: Mem, d: Decision, k: nat, before: seq<EnvStep>)
    requires Acts(d) && d.desired.value.Off? && w.uid != ""
    requires Inv(w) && KeepsLevel(w, k, before) && Env(w, before).Load().uid == w.uid
    requires mem.rv == |w.recs| - 1 && Writable(w, mem.rec)
    ensures !Safe(PowerDownPath(w, mem, d, Nudged(before, |w.hist| - 1 + |before|)))
  {
    hide BeginAction, Inv, Writable, Env, Execute, Fail, CaptureSnapshot;
    var at := |w.hist| - 1 + |before|;
    var s := Nudged(before, at);
    LevelIsKept(w, k, before);
    var begun := SmoothBegin(w, mem, d, before, at);
    OffIsNotSaved(w, mem.rec, begun.w.hist, k);
    StalePowerDown(begun.w, begun.mem, d, s);
    SmoothFail(begun.w, begun.mem, before, at);
    SmoothPath(w, mem, d, s);
    assert OffIn(w.kind, Fail(begun.w, begun.mem, true, s).hist, k);
  }

  lemma SmoothPath(w: LiveWorld, mem: Mem, d: Decision, s: Script)
    requires Acts(d) && mem.rec.SnapshotReady() && s.hpa.Admitted? && BeginAction(w, mem, d, s).Go?
    ensures var begun := BeginAction(w, mem, d, s); PowerDownPath(w, mem, d, s) == Execute(begun.w, begun.mem, d, s)
  {
    hide BeginAction, Execute;
  }

  /** The snapshot cannot be bound to the revision it would now meet. */
  lemma OffIsNotSaved(w: LiveWorld, rec: Record, hist: seq<Version>, k: nat)
    requires Inv(w) && OffAt(w, k) && Writable(w, rec) && w.hist <= hist && OffIn(w.kind, hist, k)
    ensures rec.SnapshotReady() && rec.snapshot.value.revision != Some(|hist| - 1)
  {
  }

  /** From an exposed record a pass loses the snapshot, be it undisturbed or after one more
      write of the workload at the same level. */
  lemma ExposedPassDropsSnapshot(w: LiveWorld, d: Decision, k: nat, before: seq<EnvStep>)
    requires Inv(w) && w.uid != "" && Exposed(w, w.Rec(), d)
    requires KeepsLevel(w, k, before) && Env(w, before).Load().uid == w.uid
    ensures !Safe(PassNow(w, d, Nudged(before, |w.hist| - 1 + |before|)))
  {
    hide Reconcile, PassNow, PowerDownPath, Act, Writable, Inv, KeepsLevel, OffByAura, Safe, Exposed, Nudged, Calls, Env, Acts;
    var s := Nudged(before, |w.hist| - 1 + |before|);
    NudgedCalls(before, |w.hist| - 1 + |before|);
    ExposedActs(w, w.Rec(), d);
    var r, mem := SmoothReachesAct(w, d, s);
    SameSituation(w, r, mem.rec, d, k, before);
    if d.desired.value.Off? {
      ReissuesPowerDown(r, mem, w.Rec(), d, s);
      StalePowerDownDropsSnapshot(r, mem, d, k, before);
    } else {
      ExposedRestoreDropsSnapshot(r, mem, w.Rec(), d, s);
    }
  }

  lemma NudgedCalls(before: seq<EnvStep>, at: nat)
    ensures Nudged(before, at).relabel == Nudged(before, at).final == Calls(at) && Calls(at).at == at
  {
  }

  lemma ExposedActs(w: LiveWorld, rec: Record, d: Decision)
    requires Exposed(w, rec, d)
    ensures Acts(d) && d.desired.Some? && !(rec.AuditPending() && rec.action.value.auditId.Some?)
  {
  }

  lemma SameSituation(w: LiveWorld, r: LiveWorld, rec: Record, d: Decision, k: nat, before: seq<EnvStep>)
    requires Inv(w) && r.hist == w.hist && r.kind == w.kind && r.uid == w.uid
    requires rec.(tag := w.Rec().tag, view := w.Rec().view) == w.Rec() && r.Rec().(tag := w.Rec().tag) == w.Rec()
    requires Exposed(w, w.Rec(), d) && KeepsLevel(w, k, before) && Env(w, before).Load().uid == w.uid
    ensures Inv(r) && Writable(r, rec) && OffByAura(r) && Exposed(r, rec, d)
    ensures KeepsLevel(r, k, before) && Env(r, before).Load().uid == r.uid && w.Rec().snapshot.Some?
  {
    hide Env, OffIn;
    LevelIsKept(w, k, before);
    LevelIsKept(r, k, before);
    assert OffIn(r.kind, r.hist, k) && k < |r.hist|;
  }

  /** From an exposed record a decision to switch off issues the power-down again. */
  lemma ReissuesPowerDown(w: LiveWorld, mem: Mem, was: Record, d: Decision, s: Script)
    requires Acts(d) && d.desired.value.Off? && Exposed(w, mem.rec, d)
    ensures Act(w, mem, was, d, s) == PowerDownPath(w, mem, d, s)
  {
    hide PowerDownPath;
    assert ExistingAction(w, mem, d, s) == Go(w, mem);
  }

  /** A pass over the live record keeps the snapshot whatever happens to its calls
      exactly when the record is not exposed. */
  lemma SnapshotSurvivesExactlyWhenSheltered(w: LiveWorld, d: Decision)
    requires Inv(w) && OffByAura(w) && w.uid != ""
    ensures (forall s: Script :: Safe(PassNow(w, d, s))) <==> !Exposed(w, w.Rec(), d)
  {
    hide Reconcile, Exposed;
    if Exposed(w, w.Rec(), d) {
      var k :| 0 <= k < |w.hist| && OffIn(w.kind, w.hist, k);
      var before := [WriteWorkload(w.hist[k].load)];
      LevelIsKept(w, k, before);
      ExposedPassDropsSnapshot(w, d, k, before);
    } else {
      forall s: Script
        ensures Safe(PassNow(w, d, s))
      {
        ReconcileKeeps(w, d, |w.recs| - 1, s);
      }
    }
  }

  // ---------------------------------------------------------------- and a run gets there

  const SWITCH_OFF := Decision(Some(Off), Some(RuleRef(PowerPolicy, "night", "team", 0, 0, "", 0)), [], [], true, true)

  /** One replica, observed running, never touched by the controller. */
  const UNTOUCHED: LiveWorld :=
    World(Deployment, "u", [Version(Workload("u", 1, false), Outside)],
          [Record(Observed(1, false), None, None, None, 0, "", LabelDivergent, View(None, false, false, false))],
          map[], [], [], 0)

  /** The power-down is accepted and the process dies at the checkpoint write. */
  const DIES_AT_CHECKPOINT: Script := Smooth(0).(outcome := Call([], DiesBefore, 0))

  /** The next pass still sees the observation from before. */
  const LOSING_RUN: seq<Step> := [Pass(SWITCH_OFF, 0, DIES_AT_CHECKPOINT), Pass(SWITCH_OFF, 2, Smooth(1))]

  lemma SampleCapture(w: LiveWorld, mem: Mem) returns (captured: Flow)
    requires w == Tick(UNTOUCHED, 0) && mem == Mem(UNTOUCHED.Rec().(view := ViewOf(SWITCH_OFF)), 0)
    ensures captured == CaptureSnapshot(w, mem, DIES_AT_CHECKPOINT) && captured.Go?
    ensures captured.w.hist == w.hist && captured.w.uid == "u" && captured.w.kind == Deployment && |captured.w.recs| == 2
    ensures captured.mem == Mem(captured.w.Rec(), 1)
    ensures captured.mem.rec == mem.rec.(snapshot := Some(Snapshot(true, Some(1), None, Some(0))))
  {
    captured := CaptureSnapshot(w, mem, DIES_AT_CHECKPOINT);
  }

  lemma SampleBegin(w: LiveWorld, mem: Mem) returns (begun: Flow)
    requires w.hist == UNTOUCHED.hist && w.uid == "u" && w.kind == Deployment && |w.recs| == 2 && mem == Mem(w.Rec(), 1)
    ensures begun == BeginAction(w, mem, SWITCH_OFF, DIES_AT_CHECKPOINT) && begun.Go?
    ensures begun.w.hist == w.hist && begun.w.uid == "u" && begun.w.kind == Deployment && |begun.w.recs| == 3
    ensures begun.mem == Mem(begun.w.Rec(), 2) && begun.mem.rec.snapshot == mem.rec.snapshot && begun.mem.rec.seen == mem.rec.seen
    ensures begun.mem.rec.retryToken == mem.rec.retryToken && begun.mem.rec.action.Some?
    ensures var a := begun.mem.rec.action.value;
            a.phase.InProgress? && a.auditPhase.Unset? && a.key == KeyOf(SWITCH_OFF) && a.desired.Off? && a.retryToken == mem.rec.retryToken
  {
    begun := BeginAction(w, mem, SWITCH_OFF, DIES_AT_CHECKPOINT);
  }

  lemma SampleCrash(w: LiveWorld, mem: Mem) returns (r: LiveWorld)
    requires w.hist == UNTOUCHED.hist && w.uid == "u" && w.kind == Deployment && mem.rv == |w.recs| - 1
    requires mem.rec.action.Some? && mem.rec.snapshot == Some(Snapshot(true, Some(1), None, Some(0)))
    ensures r == Execute(w, mem, SWITCH_OFF, DIES_AT_CHECKPOINT)
    ensures r.hist == w.hist + [Version(Workload("u", 0, false), AuraOff)] && r.recs == w.recs && r.kind == w.kind && r.uid == w.uid
  {
    var s := DIES_AT_CHECKPOINT;
    var (w1, reply) := PowerDown(w, mem.rec.snapshot.value, s.get, s.put);
    assert reply.Accepted? && w1.hist == w.hist + [Version(Workload("u", 0, false), AuraOff)] && w1.recs == w.recs;
    r := Complete(w1, mem, SWITCH_OFF, s);
  }

  lemma CrashedPowerDown() returns (w: LiveWorld)
    ensures w == Reconcile(UNTOUCHED, SWITCH_OFF, 0, DIES_AT_CHECKPOINT)
    ensures OffAt(w, 1) && |w.hist| == 2 && |w.recs| == 3 && w.uid == "u" && w.Load().uid == "u"
    ensures Exposed(w, w.Rec(), SWITCH_OFF)
  {
    hide CaptureSnapshot, BeginAction, Execute;
    var d, s := SWITCH_OFF, DIES_AT_CHECKPOINT;
    var w0 := Tick(UNTOUCHED, 0);
    var mem0 := Mem(UNTOUCHED.Rec().(view := ViewOf(d)), 0);
    assert ProjectDecision(w0, Mem(UNTOUCHED.Rec(), 0), d, s) == Go(w0, mem0);
    assert ExistingAction(w0, mem0, d, s) == Go(w0, mem0);
    var captured := SampleCapture(w0, mem0);
    var begun := SampleBegin(captured.w, captured.mem);
    w := SampleCrash(begun.w, begun.mem);
    assert PowerDownPath(w0, mem0, d, s) == w;
  }

  /** The exposed record is reachable: a crash at the checkpoint followed by a pass on the
      old observation loses the snapshot of a workload that stays switched off. */
  lemma StaleObservationLosesSnapshot()
    ensures Start(UNTOUCHED) && !Safe(After(UNTOUCHED, LOSING_RUN))
  {
    hide Reconcile, Exposed, Inv;
    var w := CrashedPowerDown();
    UntouchedIsKept();
    assert Env(w, []) == w;
    ExposedPassDropsSnapshot(w, SWITCH_OFF, 1, []);
    var rest := LOSING_RUN[1..];
    assert LOSING_RUN[0] == Pass(SWITCH_OFF, 0, DIES_AT_CHECKPOINT);
    assert rest[0] == Pass(SWITCH_OFF, 2, Smooth(1)) && rest[1..] == [];
    var r := Take(w, rest[0]);
    assert r == PassNow(w, SWITCH_OFF, Nudged([], 1));
    assert After(r, []) == r;
    assert After(w, rest) == r;
  }

  lemma UntouchedIsKept()
    ensures Inv(UNTOUCHED) && Inv(Reconcile(UNTOUCHED, SWITCH_OFF, 0, DIES_AT_CHECKPOINT))
  {
    hide Reconcile;
    ReconcileKeeps(UNTOUCHED, SWITCH_OFF, 0, DIES_AT_CHECKPOINT);
  }

  // ---------------------------------------------------------------- and the value comes back

  /** Switching on is still to be attempted for this decision. */
  predicate RestoreDue(w: LiveWorld, rec: Record, d: Decision) {
    && Acts(d) && d.desired.value.On? && ObservedPower(w, rec).Off?
    && (SameAttempt(rec, d) ==> rec.action.value.phase.InProgress?)
  }

  /** The undisturbed pass that decides to switch the workload back on gives it exactly
      the replica count or suspend flag that was overwritten. */
  lemma RestoreGivesBack(w: LiveWorld, d: Decision, k: nat)
    requires Inv(w) && OffAt(w, k) && w.uid != "" && w.Load().uid == w.uid && RestoreDue(w, w.Rec(), d)
    requires !(w.Rec().AuditPending() && w.Rec().action.value.auditId.Some?)
    ensures var r := PassNow(w, d, Smooth(|w.hist| - 1));
            && |r.hist| == |w.hist| + 1 && w.hist <= r.hist
            && r.hist[|w.hist|].writer.AuraOn?
            && r.Load().SameLevel(w.kind, Overwritten(w, k)) && r.Load().Running(w.kind)
  {
    hide Reconcile, BeginAction, PowerDownPath, ExecuteRestore;
    var s := Smooth(|w.hist| - 1);
    var r, mem := SmoothReachesAct(w, d, s);
    assert ExistingAction(r, mem, d, s) == Go(r, mem);
    assert Env(r, []) == r;
    var begun := SmoothBegin(r, mem, d, [], |w.hist| - 1);
    assert PassNow(w, d, s) == ExecuteRestore(begun.w, begun.mem, d, s);
    assert OffAt(begun.w, k);
    SmoothRestore(begun.w, begun.mem, d, k);
  }

  lemma SmoothRestore(w: LiveWorld, mem: Mem, d: Decision, k: nat)
    requires mem.rec.action.Some? && mem.rec.SnapshotReady() && OffAt(w, k)
    requires Saves(w.kind, mem.rec.snapshot.value, Overwritten(w, k)) && w.Load().uid == w.uid
    requires !w.Load().Running(w.kind)
    ensures var r := ExecuteRestore(w, mem, d, Smooth(|w.hist| - 1));
            && |r.hist| == |w.hist| + 1 && w.hist <= r.hist
            && r.hist[|w.hist|].writer.AuraOn?
            && r.Load().SameLevel(w.kind, Overwritten(w, k)) && r.Load().Running(w.kind)
  {
    hide Complete, Fail;
    var s := Smooth(|w.hist| - 1);
    var (w1, reply) := Restore(w, mem.rec.snapshot.value, s.get, s.put);
    assert reply.Accepted? && |w1.hist| == |w.hist| + 1 && w.hist <= w1.hist;
    SmoothCompleteKeepsWorkload(w1, mem, d, |w.hist| - 1);
    assert ExecuteRestore(w, mem, d, s) == Complete(w1, mem, d, s);
  }

  lemma SmoothCompleteKeepsWorkload(w: LiveWorld, mem: Mem, d: Decision, at: nat)
    requires mem.rec.action.Some?
    ensures Complete(w, mem, d, Smooth(at)).hist == w.hist
  {
  }
}
