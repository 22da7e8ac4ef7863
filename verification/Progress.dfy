/** Undisturbed, the reconciler does its work: a power-down that is due happens, is kept
    safe, checkpointed and recorded; so is a restore; accepted actions are watched to their
    end; and the switch-off passes every gate the source puts before it. */
module Progress {
  import opened Domain
  import opened Faults
  import opened Cluster
  import opened ReconcileSpec
  import opened SnapshotSafety
  import Trail = AuditTrail
  import Writes = WorkloadWrites

  // ---------------------------------------------------------------- a power-down that is due

  /** A managed, unblocked decision. */
  predicate Decides(d: Decision, state: PowerState) {
    d.winner.Some? && d.blocks == [] && d.desired == Some(state)
  }

  /** The stored action was made for this rule, in this revision, and for this state. */
  predicate MadeFor(a: Action, d: Decision)
    requires d.winner.Some?
  {
    var rule := d.winner.value;
    && Some(a.desired) == d.desired && Some(a.key.desired) == d.desired
    && a.key.kind == rule.kind && a.key.namespace == rule.namespace && a.key.name == rule.name && a.key.createdAt == rule.createdAt
  }

  lemma SameAttemptMeans(rec: Record, d: Decision)
    requires Acts(d)
    ensures SameAttempt(rec, d) <==>
              rec.action.Some? && MadeFor(rec.action.value, d) && rec.action.value.phase != Failed && rec.action.value.retryToken == rec.retryToken
  {
  }

  /** The decision is to switch off a workload that is observed and is running, no audit is
      owed first, and no attempt for this decision and retry annotation is already settled. */
  predicate PowerDownDue(w: LiveWorld, d: Decision) {
    && Decides(d, Off) && w.uid != "" && w.Load().uid == w.uid && w.Load().Running(w.kind)
    && ObservedPower(w, w.Rec()).On?
    && !(w.Rec().AuditPending() && w.Rec().action.value.auditId.Some?)
    && (|| w.Rec().action.None? || !MadeFor(w.Rec().action.value, d)
        || w.Rec().action.value.phase == Failed || w.Rec().action.value.phase == InProgress
        || w.Rec().action.value.retryToken != w.Rec().retryToken)
  }

  lemma DueActs(w: LiveWorld, d: Decision)
    requires PowerDownDue(w, d)
    ensures Acts(d) && Exposed(w, w.Rec(), d)
  {
    SameAttemptMeans(w.Rec(), d);
  }

  lemma SmoothCapture(w: LiveWorld, mem: Mem, at: nat) returns (captured: Flow)
    requires !mem.rec.SnapshotReady() && mem.rv == |w.recs| - 1 && at == |w.hist| - 1 && w.Load().uid == w.uid
    ensures captured == CaptureSnapshot(w, mem, Smooth(at)) && captured.Go?
    ensures captured.w == w.(recs := w.recs + [captured.mem.rec]) && captured.mem.rv == |captured.w.recs| - 1
    ensures captured.mem.rec == mem.rec.(snapshot := captured.mem.rec.snapshot) && captured.mem.rec.SnapshotReady()
    ensures var s := captured.mem.rec.snapshot.value; s.revision == Some(at) && Saves(w.kind, s, w.Load())
  {
    captured := CaptureSnapshot(w, mem, Smooth(at));
  }

  lemma AfterCapture(w: LiveWorld, mem: Mem, d: Decision, s: Script)
    requires Acts(d) && CaptureSnapshot(w, mem, s).Go? && CaptureSnapshot(w, mem, s).mem.rec.SnapshotReady()
    ensures var captured := CaptureSnapshot(w, mem, s); PowerDownPath(w, mem, d, s) == PowerDownPath(captured.w, captured.mem, d, s)
  {
    hide BeginAction, Execute;
  }

  lemma SmoothMutation(w: LiveWorld, mem: Mem, d: Decision, at: nat) returns (w1: LiveWorld)
    requires mem.rec.action.Some? && mem.rec.SnapshotReady() && mem.rec.snapshot.value.revision == Some(at)
    requires at == |w.hist| - 1 && w.Load().uid == w.uid
    ensures Execute(w, mem, d, Smooth(at)) == Complete(w1, mem, d, Smooth(at))
    ensures w1 == w.(hist := w1.hist) && |w1.hist| == |w.hist| + 1 && w.hist <= w1.hist
    ensures var v := w1.hist[|w.hist|];
            v.writer == AuraOff && v.load == if w.kind.CronJob? then w.Load().(suspended := true) else w.Load().(replicas := 0)
  {
    hide Complete, Fail;
    var s := Smooth(at);
    w1 := PowerDown(w, mem.rec.snapshot.value, s.get, s.put).0;
  }

  lemma SmoothCompleteKeepsSnapshot(w: LiveWorld, mem: Mem, d: Decision, at: nat)
    requires mem.rec.action.Some? && mem.rv == |w.recs| - 1
    ensures var r := Complete(w, mem, d, Smooth(at)); r.Rec().snapshot == mem.rec.snapshot && r.kind == w.kind && r.hist == w.hist
  {
    hide RecordError, PendingAudit;
    var s := Smooth(at);
    var w1 := Tick(w, s.elapsed);
    var done := mem.rec.action.value.(phase := Applied, completedAt := Some(w1.clock), auditPhase := Pending);
    var mem1 := mem.(rec := mem.rec.(failures := 0, action := Some(done), view := ViewOf(d)));
    var (w2, reply) := PutRecord(w1, mem1.rv, mem1.rec, s.outcome);
    SmoothAuditKeepsSnapshot(w2, mem1.(rv := |w2.recs| - 1), at);
  }

  lemma SmoothAuditKeepsSnapshot(w: LiveWorld, mem: Mem, at: nat)
    requires mem.rv == |w.recs| - 1 && w.Rec() == mem.rec
    ensures var r := PendingAudit(w, mem, Smooth(at)).w; r.Rec().snapshot == mem.rec.snapshot && r.kind == w.kind && r.hist == w.hist
  {
    hide RecordAudit;
    if mem.rec.AuditPending() && mem.rec.action.value.auditId.Some? {
      var a := mem.rec.action.value;
      if a.disposition.Some? && a.auditAction.Some? {
        SmoothRecordFrame(w, EventOf(if a.completedAt.Some? then a else a.(completedAt := Some(w.clock))), at);
      }
    }
  }

  lemma SmoothRecordFrame(w: LiveWorld, e: AuditEvent, at: nat)
    ensures var r := RecordAudit(w, e, Smooth(at).audit).0; r.hist == w.hist && r.recs == w.recs && r.kind == w.kind && r.uid == w.uid
  {
  }

  /** Switched off: one more version, the controller's, with no replica left or suspended and
      all else as it was; and the record holds what it found. */
  predicate SwitchedOff(w: LiveWorld, r: LiveWorld) {
    && |r.hist| == |w.hist| + 1 && w.hist <= r.hist && r.kind == w.kind
    && r.hist[|w.hist|] == Version(if w.kind.CronJob? then w.Load().(suspended := true) else w.Load().(replicas := 0), AuraOff)
    && r.Rec().SnapshotReady() && Saves(w.kind, r.Rec().snapshot.value, w.Load())
  }

  lemma DuePath(w: LiveWorld, mem: Mem, d: Decision, at: nat)
    requires Acts(d) && w.uid != "" && w.Load().uid == w.uid && mem.rv == |w.recs| - 1 && at == |w.hist| - 1
    requires mem.rec.SnapshotReady() && mem.rec.snapshot.value.revision == Some(at) && Saves(w.kind, mem.rec.snapshot.value, w.Load())
    ensures SwitchedOff(w, PowerDownPath(w, mem, d, Smooth(at)))
  {
    hide BeginAction, Execute, Complete, PowerDownPath;
    assert Env(w, []) == w;
    var begun := SmoothBegin(w, mem, d, [], at);
    SmoothPath(w, mem, d, Smooth(at));
    var w1 := SmoothMutation(begun.w, begun.mem, d, at);
    SmoothCompleteKeepsSnapshot(w1, begun.mem, d, at);
  }

  /** For every kind: the undisturbed pass over a due power-down switches the workload off,
      when there is no snapshot yet or it was taken from the live revision. */
  lemma PowerDownHappens(w: LiveWorld, d: Decision)
    requires Inv(w) && PowerDownDue(w, d)
    requires !w.Rec().SnapshotReady() || w.Rec().snapshot.value.revision == Some(|w.hist| - 1)
    ensures SwitchedOff(w, PassNow(w, d, Smooth(|w.hist| - 1)))
    ensures OffAt(PassNow(w, d, Smooth(|w.hist| - 1)), |w.hist|)
  {
    hide Reconcile, PassNow, PowerDownPath, Act, CaptureSnapshot;
    var at := |w.hist| - 1;
    var s := Smooth(at);
    NudgedCalls([], at);
    DueActs(w, d);
    var r, mem := SmoothReachesAct(w, d, s);
    ReissuesPowerDown(r, mem, w.Rec(), d, s);
    if mem.rec.SnapshotReady() {
      DuePath(r, mem, d, at);
    } else {
      var captured := SmoothCapture(r, mem, at);
      AfterCapture(r, mem, d, s);
      DuePath(captured.w, captured.mem, d, at);
    }
  }

  /** With a snapshot of an older revision the undisturbed pass retires it and touches
      nothing else; the one after switches the workload off. */
  lemma PowerDownHappensAfterRetiring(w: LiveWorld, d: Decision)
    requires Inv(w) && PowerDownDue(w, d)
    requires w.Rec().SnapshotReady() && w.Rec().snapshot.value.revision != Some(|w.hist| - 1)
    ensures var r := PassNow(w, d, Smooth(|w.hist| - 1));
            && r.hist == w.hist && r.Rec().snapshot == None && PowerDownDue(r, d)
            && SwitchedOff(r, PassNow(r, d, Smooth(|w.hist| - 1)))
  {
    hide PassNow, PowerDownDue, SwitchedOff;
    var s := Smooth(|w.hist| - 1);
    StaleIsRetired(w, d);
    var r := PassNow(w, d, s);
    ReconcileKeepsInv(w, d, s);
    PowerDownHappens(r, d);
  }

  lemma ReconcileKeepsInv(w: LiveWorld, d: Decision, s: Script)
    requires Inv(w) && PowerDownDue(w, d)
    ensures Inv(PassNow(w, d, s))
  {
    hide Reconcile;
    DueActs(w, d);
    ReconcileKeeps(w, d, |w.recs| - 1, s);
  }

  lemma StaleIsRetired(w: LiveWorld, d: Decision)
    requires Inv(w) && PowerDownDue(w, d)
    requires w.Rec().SnapshotReady() && w.Rec().snapshot.value.revision != Some(|w.hist| - 1)
    ensures var r := PassNow(w, d, Smooth(|w.hist| - 1)); r.hist == w.hist && r.Rec().snapshot == None && PowerDownDue(r, d)
  {
    hide Reconcile, PassNow, PowerDownPath, Act, BeginAction, Execute, Fail;
    var at := |w.hist| - 1;
    var s := Smooth(at);
    NudgedCalls([], at);
    DueActs(w, d);
    var r, mem := SmoothReachesAct(w, d, s);
    ReissuesPowerDown(r, mem, w.Rec(), d, s);
    assert Env(r, []) == r;
    var begun := SmoothBegin(r, mem, d, [], at);
    SmoothPath(r, mem, d, s);
    StalePowerDown(begun.w, begun.mem, d, s);
    SmoothFailure(begun.w, begun.mem, true, at);
    BegunIntent(r, mem, d, at);
  }

  lemma BegunIntent(w: LiveWorld, mem: Mem, d: Decision, at: nat)
    requires Acts(d)
    ensures var begun := BeginAction(w, mem, d, Smooth(at));
            begun.Go? ==>
              && begun.mem.rec == mem.rec.(action := begun.mem.rec.action) && begun.mem.rec.action.Some?
              && begun.mem.rec.action.value.phase == InProgress && begun.mem.rec.action.value.auditPhase == Unset
  {
  }

  /** One more execution error is on record under a generated name, and announced unless
      suppressed. */
  predicate ErrorRecorded(w: LiveWorld, r: LiveWorld, rule: string, disposition: Disposition) {
    && |r.loose| == |w.loose| + 1 && w.loose <= r.loose
    && var e := r.loose[|w.loose|];
       && e.id == None && e.action == ExecutionError && e.result == Failure && e.rule == rule && e.disposition == disposition
       && r.queue == if disposition.suppressed then w.queue else w.queue + [e]
  }

  /** A failed mutation is counted, marked and recorded, and leaves the workload alone. */
  lemma SmoothFailure(w: LiveWorld, mem: Mem, stale: bool, at: nat)
    requires mem.rec.action.Some? && mem.rec.action.value.disposition.Some? && mem.rv == |w.recs| - 1
    requires mem.rec.action.value.disposition.value.Valid()
    ensures var r := Fail(w, mem, stale, Smooth(at));
            && r.hist == w.hist && r.kind == w.kind && r.uid == w.uid
            && r.Rec() == mem.rec.(failures := mem.rec.failures + 1, snapshot := if stale then None else mem.rec.snapshot,
                                   action := Some(mem.rec.action.value.(phase := Failed, completedAt := None)))
            && ErrorRecorded(w, r, "", mem.rec.action.value.disposition.value)
  {
  }

  // ---------------------------------------------------------------- and it is recorded

  /** The stored action was accepted for this decision and its audit record exists, tells of
      `what`, and was the last thing announced. */
  predicate RecordedAs(r: LiveWorld, d: Decision, what: AuditAction)
    requires Acts(d)
  {
    && r.Rec().failures == 0 && r.Rec().action.Some?
    && var a := r.Rec().action.value;
       && a.phase == Applied && a.auditPhase == Recorded && MadeFor(a, d) && a.retryToken == r.Rec().retryToken
       && a.auditId.Some? && a.auditId.value in r.audits && a.completedAt.Some?
       && var e := r.audits[a.auditId.value];
          && e.action == what && e.result == Success && e.rule == d.winner.value.name && e.timestamp == a.completedAt.value
          && r.queue != [] && r.queue[|r.queue| - 1] == e
  }

  lemma SmoothRecordExactly(w: LiveWorld, e: AuditEvent, i: nat, at: nat)
    requires Trail.Inv(w) && Trail.Owed(w, e, i) && e.id.Some? && !e.disposition.suppressed
    ensures RecordAudit(w, e, Smooth(at).audit) == (w.(audits := w.audits[e.id.value := e], queue := w.queue + [e]), Stored)
  {
    if e.id.value in w.audits {
      Trail.StoredIsOwed(w, e, i);
      assert w.audits[e.id.value := e] == w.audits;
    }
  }

  lemma SmoothCheckpoint(w: LiveWorld, mem: Mem, d: Decision, at: nat) returns (w2: LiveWorld, mem2: Mem)
    requires Trail.Inv(w) && Trail.Same(w, mem) && mem.rv == |w.recs| - 1
    requires mem.rec.action.Some? && mem.rec.action.value.phase.InProgress?
    ensures Complete(w, mem, d, Smooth(at)) == PendingAudit(w2, mem2, Smooth(at)).w
    ensures Trail.Inv(w2) && mem2.rv == |w2.recs| - 1 && w2.Rec() == mem2.rec && w2.queue == w.queue
    ensures mem2.rec.failures == 0 && mem2.rec.retryToken == mem.rec.retryToken
    ensures mem2.rec.action == Some(mem.rec.action.value.(phase := Applied, completedAt := Some(w2.clock), auditPhase := Pending))
  {
    hide Trail.Inv, Trail.Appendable, RecordError, PendingAudit;
    var s := Smooth(at);
    var w1 := Tick(w, s.elapsed);
    Trail.TickKeeps(w, s.elapsed);
    var done := mem.rec.action.value.(phase := Applied, completedAt := Some(w1.clock), auditPhase := Pending);
    var mem1 := mem.(rec := mem.rec.(failures := 0, action := Some(done), view := ViewOf(d)));
    Trail.AcceptIsNext(w1, mem, done);
    Trail.PutKeeps(w1, mem1, s.outcome);
    w2 := PutRecord(w1, mem1.rv, mem1.rec, s.outcome).0;
    mem2 := mem1.(rv := |w2.recs| - 1);
  }

  /** The checkpoint of an accepted mutation is followed by its audit record. */
  lemma AcceptedIsRecorded(w: LiveWorld, mem: Mem, d: Decision, at: nat)
    requires Acts(d) && Trail.Inv(w) && Trail.Same(w, mem) && mem.rv == |w.recs| - 1
    requires mem.rec.action.Some? && mem.rec.action.value.phase.InProgress?
    requires var a := mem.rec.action.value;
             MadeFor(a, d) && a.retryToken == mem.rec.retryToken && a.auditRule == d.winner.value.name
             && a.disposition == Some(Disposition(false, false, "ns"))
    ensures RecordedAs(Complete(w, mem, d, Smooth(at)), d, if d.desired.value == Off then WorkloadPoweredDown else WorkloadRestored)
  {
    hide Trail.Inv, Complete, RecordAudit;
    var s := Smooth(at);
    var w2, mem2 := SmoothCheckpoint(w, mem, d, at);
    var done := mem2.rec.action.value;
    Trail.StoredIsOk(w2, mem2);
    var e := EventOf(done);
    SmoothRecordExactly(w2, e, mem2.rv, at);
    var w3: LiveWorld := w2.(audits := w2.audits[e.id.value := e], queue := w2.queue + [e]);
    var mem3 := mem2.(rec := mem2.rec.(action := Some(done.(auditPhase := Recorded))));
    Trail.SmoothSave(w3, mem3, at);
    assert PendingAudit(w2, mem2, s) == Halt(Save(w3, mem3, s.recorded).w);
  }

  lemma BegunForDecision(w: LiveWorld, mem: Mem, d: Decision, at: nat)
    requires Acts(d) && BeginAction(w, mem, d, Smooth(at)).Go?
    ensures var a := BeginAction(w, mem, d, Smooth(at)).mem.rec.action;
            && a.Some? && MadeFor(a.value, d) && a.value.phase.InProgress?
            && a.value.retryToken == BeginAction(w, mem, d, Smooth(at)).mem.rec.retryToken
            && a.value.auditRule == d.winner.value.name && a.value.disposition == Some(Disposition(false, false, "ns"))
  {
  }

  /** The undisturbed pass reaches its action stage, with the audit invariant kept. */
  lemma ReachesAct(w: LiveWorld, d: Decision, at: nat) returns (r: LiveWorld, mem: Mem)
    requires Trail.Inv(w) && w.uid != "" && !(w.Rec().AuditPending() && w.Rec().action.value.auditId.Some?)
    ensures PassNow(w, d, Smooth(at)) == Act(r, mem, w.Rec(), d, Smooth(at))
    ensures Trail.Inv(r) && Trail.Same(r, mem) && mem.rv == |r.recs| - 1
    ensures r.hist == w.hist && r.kind == w.kind && r.uid == w.uid
    ensures mem.rec.(tag := w.Rec().tag, view := w.Rec().view) == w.Rec()
  {
    hide Act, Trail.Inv, RecordAudit, ProjectDecision;
    var projected := Trail.SmoothProject(w, d, at);
    r, mem := projected.w, projected.mem;
  }

  /** A power-down that happens undisturbed is checkpointed and recorded as one. */
  lemma PowerDownIsRecorded(w: LiveWorld, d: Decision)
    requires Inv(w) && Trail.Inv(w) && PowerDownDue(w, d)
    requires !w.Rec().SnapshotReady() || w.Rec().snapshot.value.revision == Some(|w.hist| - 1)
    ensures Acts(d) && RecordedAs(PassNow(w, d, Smooth(|w.hist| - 1)), d, WorkloadPoweredDown)
  {
    hide Inv, Trail.Inv, PassNow, Act, PowerDownPath, CaptureSnapshot, RecordedAs;
    var at := |w.hist| - 1;
    var s := Smooth(at);
    DueActs(w, d);
    var r, mem := ReachesAct(w, d, at);
    ReissuesPowerDown(r, mem, w.Rec(), d, s);
    Trail.StoredIsOk(r, mem);
    StillNotPending(w, mem.rec, d);
    if mem.rec.SnapshotReady() {
      DuePathIsRecorded(r, mem, d, at);
    } else {
      Trail.CaptureKeeps(r, mem, s);
      var captured := SmoothCapture(r, mem, at);
      AfterCapture(r, mem, d, s);
      DuePathIsRecorded(captured.w, captured.mem, d, at);
    }
  }

  lemma StillNotPending(w: LiveWorld, rec: Record, d: Decision)
    requires Trail.Inv(w) && PowerDownDue(w, d) && rec.action == w.Rec().action
    ensures !Trail.IsPending(rec.action)
  {
    assert Trail.RecOk(w, w.recs[|w.recs| - 1].action);
  }

  lemma DuePathIsRecorded(w: LiveWorld, mem: Mem, d: Decision, at: nat)
    requires Acts(d) && d.desired == Some(Off) && w.uid != "" && w.Load().uid == w.uid && mem.rv == |w.recs| - 1 && at == |w.hist| - 1
    requires Trail.Inv(w) && Trail.Same(w, mem) && !Trail.IsPending(mem.rec.action)
    requires mem.rec.SnapshotReady() && mem.rec.snapshot.value.revision == Some(at)
    ensures RecordedAs(PowerDownPath(w, mem, d, Smooth(at)), d, WorkloadPoweredDown)
  {
    hide Trail.Inv, BeginAction, Execute, Complete, PowerDownPath, RecordedAs;
    assert Env(w, []) == w;
    var begun := SmoothBegin(w, mem, d, [], at);
    Trail.BeginKeeps(w, mem, d, Smooth(at));
    BegunForDecision(w, mem, d, at);
    SmoothPath(w, mem, d, Smooth(at));
    var w1 := SmoothMutation(begun.w, begun.mem, d, at);
    Trail.HistKeeps(begun.w, w1.hist);
    AcceptedIsRecorded(w1, begun.mem, d, at);
  }

  /** So is a restore. */
  lemma RestoreIsRecorded(w: LiveWorld, d: Decision, k: nat)
    requires Inv(w) && Trail.Inv(w) && OffAt(w, k) && w.uid != "" && w.Load().uid == w.uid && RestoreDue(w, w.Rec(), d)
    requires !(w.Rec().AuditPending() && w.Rec().action.value.auditId.Some?)
    ensures RecordedAs(PassNow(w, d, Smooth(|w.hist| - 1)), d, WorkloadRestored)
  {
    hide Trail.Inv, PassNow, BeginAction, ExecuteRestore, Complete, RecordedAs, PowerDownPath;
    var at := |w.hist| - 1;
    var s := Smooth(at);
    var r, mem := ReachesAct(w, d, at);
    assert ExistingAction(r, mem, d, s) == Go(r, mem);
    Trail.StoredIsOk(r, mem);
    assert Env(r, []) == r;
    var begun := SmoothBegin(r, mem, d, [], at);
    Trail.BeginKeeps(r, mem, d, s);
    BegunForDecision(r, mem, d, at);
    assert Act(r, mem, w.Rec(), d, s) == ExecuteRestore(begun.w, begun.mem, d, s);
    assert OffIn(r.kind, r.hist, k);
    RestoreAccepted(begun.w, begun.mem, d, at, k);
    var w1 := Restore(begun.w, begun.mem.rec.snapshot.value, s.get, s.put).0;
    Trail.HistKeeps(begun.w, w1.hist);
    AcceptedIsRecorded(w1, begun.mem, d, at);
  }

  lemma RestoreAccepted(w: LiveWorld, mem: Mem, d: Decision, at: nat, k: nat)
    requires mem.rec.action.Some? && mem.rec.SnapshotReady() && OffAt(w, k) && at == |w.hist| - 1 && w.Load().uid == w.uid
    requires Saves(w.kind, mem.rec.snapshot.value, Overwritten(w, k)) && !w.hist[k].load.Running(w.kind)
    ensures var s := Smooth(at);
            var (w1, reply) := Restore(w, mem.rec.snapshot.value, s.get, s.put);
            w1 == w.(hist := w1.hist) && ExecuteRestore(w, mem, d, s) == Complete(w1, mem, d, s)
  {
    hide Complete, Fail;
  }

  // ---------------------------------------------------------------- accepted actions are watched

  /** The stored action is the one this decision asks for and the mutation was accepted. */
  predicate Accepted(w: LiveWorld, d: Decision) {
    && Acts(d) && w.Rec().action.Some? && MadeFor(w.Rec().action.value, d)
    && w.Rec().action.value.retryToken == w.Rec().retryToken && !w.Rec().AuditPending()
    && !(d.desired == Some(On) && ObservedPower(w, w.Rec()).On? && w.Rec().snapshot.Some? && Superseded(w.Rec().action))
    && (w.Rec().action.value.phase == Applied || w.Rec().action.value.phase == Converged || w.Rec().action.value.phase == Contended)
  }

  /** No attempt to switch on is under way, and none of another kind is still open. */
  predicate Superseded(a: Option<Action>) {
    a.None? || a.value.phase == Converged || a.value.phase == Contended
    || (a.value.desired == On && a.value.phase != InProgress && a.value.auditPhase != Pending)
  }

  /** Observed as desired it converges; otherwise it is left alone for two minutes after the
      mutation was accepted, and then contended.  The workload is not written. */
  lemma AcceptedIsWatched(w: LiveWorld, d: Decision)
    requires Accepted(w, d) && w.uid != ""
    ensures var r, a := PassNow(w, d, Smooth(|w.hist| - 1)), w.Rec().action.value;
            && r.hist == w.hist && r.Rec().action.Some?
            && r.Rec().action.value.phase ==
                 (if ObservedPower(w, w.Rec()) == d.desired.value then Converged
                  else if a.phase == Applied && a.completedAt.Some? && w.clock + 1 - a.completedAt.value < 120_000_000_000 then Applied
                  else Contended)
  {
    hide PassNow, Act;
    var s := Smooth(|w.hist| - 1);
    NudgedCalls([], |w.hist| - 1);
    SameAttemptMeans(w.Rec(), d);
    var r, mem := SmoothReachesActAt(w, d, s);
    WatchedAct(r, mem, w.Rec(), d, |w.hist| - 1);
  }

  lemma WatchedAct(w: LiveWorld, mem: Mem, was: Record, d: Decision, at: nat)
    requires Acts(d) && SameAttempt(mem.rec, d) && !AlreadyRestored(w, mem.rec, d)
    requires mem.rv == |w.recs| - 1 && w.Rec().action == mem.rec.action == was.action
    requires mem.rec.action.value.phase == Applied || mem.rec.action.value.phase == Converged || mem.rec.action.value.phase == Contended
    ensures var r, a := Act(w, mem, was, d, Smooth(at)), mem.rec.action.value;
            && r.hist == w.hist && r.Rec().action.Some?
            && r.Rec().action.value.phase ==
                 (if ObservedPower(w, mem.rec) == d.desired.value then Converged
                  else if a.phase == Applied && a.completedAt.Some? && w.clock - a.completedAt.value < 120_000_000_000 then Applied
                  else Contended)
  {
    hide PowerDownPath, RestorePath;
    var existing := ExistingAction(w, mem, d, Smooth(at));
  }

  /** As SmoothReachesAct, with the clock. */
  lemma SmoothReachesActAt(w: LiveWorld, d: Decision, s: Script) returns (r: LiveWorld, mem: Mem)
    requires w.uid != "" && !(w.Rec().AuditPending() && w.Rec().action.value.auditId.Some?)
    requires s.relabel == Calls(s.relabel.at) && s.elapsed == 0
    ensures PassNow(w, d, s) == Act(r, mem, w.Rec(), d, s)
    ensures r.hist == w.hist && r.kind == w.kind && r.uid == w.uid && r.clock == w.clock + 1
    ensures mem.rv == |r.recs| - 1 && r.Rec().(tag := w.Rec().tag) == w.Rec()
    ensures mem.rec.(tag := w.Rec().tag, view := w.Rec().view) == w.Rec()
  {
    hide Act, RecordAudit;
    var projected := ProjectDecision(Tick(w, s.elapsed), Mem(w.Rec(), |w.recs| - 1), d, s);
    r, mem := projected.w, projected.mem;
  }

  /** An attempt whose outcome was never learnt is closed as accepted, and owes its audit, once
      the workload is observed as desired. */
  lemma UncertainIsClosed(w: LiveWorld, d: Decision)
    requires Acts(d) && w.uid != "" && SameAttempt(w.Rec(), d) && w.Rec().action.value.phase.InProgress? && !w.Rec().AuditPending()
    requires ObservedPower(w, w.Rec()) == d.desired.value
    ensures var r := PassNow(w, d, Smooth(|w.hist| - 1));
            && r.hist == w.hist && r.Rec().action.Some? && r.Rec().snapshot == w.Rec().snapshot
            && r.Rec().action.value.phase == Applied && r.Rec().action.value.auditPhase == Pending
            && r.Rec().action.value.auditId.Some? && r.Rec().action.value.completedAt == Some(w.clock + 1)
  {
    hide Reconcile, PowerDownPath, RestorePath;
    var s := Smooth(|w.hist| - 1);
    NudgedCalls([], |w.hist| - 1);
    var r, mem := SmoothReachesActAt(w, d, s);
    var existing := ExistingAction(r, mem, d, s);
  }

  /** A workload found running that was switched on by somebody else makes the stored snapshot
      obsolete: it is retired, and the decision counts as converged. */
  lemma RestoredElsewhereIsAccepted(w: LiveWorld, d: Decision)
    requires Decides(d, On) && w.uid != "" && !(w.Rec().AuditPending() && w.Rec().action.value.auditId.Some?)
    requires ObservedPower(w, w.Rec()).On? && w.Rec().snapshot.Some? && Superseded(w.Rec().action)
    ensures var r := PassNow(w, d, Smooth(|w.hist| - 1));
            && r.hist == w.hist && r.Rec().snapshot == None && r.Rec().action.Some?
            && r.Rec().action.value.phase == Converged && MadeFor(r.Rec().action.value, d)
  {
    hide PassNow, Act;
    var s := Smooth(|w.hist| - 1);
    NudgedCalls([], |w.hist| - 1);
    var r, mem := SmoothReachesActAt(w, d, s);
    SupersededAct(r, mem, w.Rec(), d, |w.hist| - 1);
  }

  lemma SupersededAct(w: LiveWorld, mem: Mem, was: Record, d: Decision, at: nat)
    requires Decides(d, On) && ObservedPower(w, mem.rec).On? && mem.rec.snapshot.Some? && Superseded(mem.rec.action)
    requires mem.rv == |w.recs| - 1 && was.snapshot == mem.rec.snapshot
    ensures var r := Act(w, mem, was, d, Smooth(at));
            && r.hist == w.hist && r.Rec().snapshot == None && r.Rec().action.Some?
            && r.Rec().action.value.phase == Converged && MadeFor(r.Rec().action.value, d)
  {
    hide PowerDownPath, RestorePath;
    var rec := AfterRestoredElsewhere(w, mem.rec, d);
    assert rec.snapshot == None && SameAttempt(rec, d);
    assert ExistingAction(w, mem, d, Smooth(at)) == Go(w, mem.(rec := rec));
  }

  // ---------------------------------------------------------------- and the decision is shown

  /** The record shows the decision: its fields, and the label that sums them up. */
  predicate ShowsDecision(rec: Record, d: Decision) {
    && rec.view.desired == d.desired && rec.view.managed == d.winner.Some?
    && rec.view.divergent == d.divergent && rec.view.blocked == (d.blocks != [])
    && rec.tag == if d.blocks != [] then LabelBlocked else if d.divergent then LabelDivergent else LabelState(d.desired)
  }

  lemma IdlePass(w: LiveWorld, d: Decision, at: nat)
    requires !Acts(d) && w.uid != "" && !(w.Rec().AuditPending() && w.Rec().action.value.auditId.Some?)
    ensures var r := PassNow(w, d, Smooth(at));
            && r.hist == w.hist && r.uid == w.uid && r.Rec().action == w.Rec().action && r.Rec().snapshot == w.Rec().snapshot
            && r.Rec().tag == LabelOf(d) && (w.Rec().tag == LabelOf(d) ==> r.Rec().view == ViewOf(d))
  {
    hide RecordAudit;
    var s := Smooth(at);
    var projected := ProjectDecision(Tick(w, s.elapsed), Mem(w.Rec(), |w.recs| - 1), d, s);
    assert PassNow(w, d, s) == PersistStatus(projected.w, projected.mem, w.Rec(), s);
  }

  /** A decision that asks for no action, blocked and unmanaged ones included, is shown by the
      record after at most two undisturbed passes (the label write of the first drops the
      fields computed with it), and changes nothing else. */
  lemma IdlePassesShowDecision(w: LiveWorld, d: Decision)
    requires !Acts(d) && w.uid != "" && !(w.Rec().AuditPending() && w.Rec().action.value.auditId.Some?)
    ensures var s := Smooth(|w.hist| - 1);
            var r := PassNow(PassNow(w, d, s), d, s);
            && ShowsDecision(r.Rec(), d) && r.hist == w.hist
            && r.Rec().snapshot == w.Rec().snapshot && r.Rec().action == w.Rec().action
  {
    hide PassNow;
    IdlePass(w, d, |w.hist| - 1);
    IdlePass(PassNow(w, d, Smooth(|w.hist| - 1)), d, |w.hist| - 1);
  }

  // ---------------------------------------------------------------- failures before the mutation

  /** A snapshot that cannot be captured is counted and recorded, and nothing is switched
      off. */
  lemma CaptureFailureIsCounted(w: LiveWorld, mem: Mem, at: nat)
    requires !mem.rec.SnapshotReady() && mem.rv == |w.recs| - 1 && w.uid != "" && w.Load().uid == w.uid
    ensures var flow := CaptureSnapshot(w, mem, Smooth(at).(capture := Call([], Refused, at)));
            && flow.Halt? && flow.w.hist == w.hist && flow.w.Rec() == mem.rec.(failures := mem.rec.failures + 1)
            && ErrorRecorded(w, flow.w, "", Disposition(false, false, "ns"))
  {
  }

  /** An autoscaler that was not opted in, or could not be checked, blocks the pass: the block
      is shown, a failed check counts as a failure, and nothing is switched off. */
  lemma RefusedByAutoscaler(w: LiveWorld, mem: Mem, d: Decision, at: nat, hpa: HpaCheck)
    requires Acts(d) && hpa != Admitted && mem.rec.SnapshotReady() && mem.rv == |w.recs| - 1
    ensures var r := PowerDownPath(w, mem, d, Smooth(at).(hpa := hpa));
            && r.hist == w.hist && r.Rec().view.blocked
            && r.Rec() == mem.rec.(view := r.Rec().view, failures := mem.rec.failures + if hpa == Unverified then 1 else 0)
  {
    hide BeginAction, Execute;
  }

  /** An accepted mutation whose checkpoint cannot be written is recorded as an execution
      error of its rule; the intent stays for the next pass. */
  lemma LostCheckpointIsRecorded(w: LiveWorld, mem: Mem, d: Decision, at: nat)
    requires Acts(d) && mem.rec.action.Some? && mem.rec.action.value.disposition.Some? && mem.rec.action.value.disposition.value.Valid()
    ensures var r := Complete(w, mem, d, Smooth(at).(outcome := Call([], Refused, at)));
            r.hist == w.hist && r.recs == w.recs && ErrorRecorded(w, r, d.winner.value.name, mem.rec.action.value.disposition.value)
  {
    hide PendingAudit;
  }

  /** An action left by a release that stored no disposition gets the live one, and only that,
      before anything is recorded for it. */
  lemma MissingDispositionIsStoredFirst(w: LiveWorld, mem: Mem, at: nat)
    requires mem.rec.AuditPending() && mem.rec.action.value.auditId.Some? && mem.rec.action.value.disposition.None?
    requires mem.rv == |w.recs| - 1 && w.uid != "" && w.Load().uid == w.uid
    ensures var flow := PendingAudit(w, mem, Smooth(at));
            && flow.Halt? && flow.w == w.(recs := w.recs + [flow.w.Rec()])
            && flow.w.Rec() == mem.rec.(action := Some(mem.rec.action.value.(disposition := Some(Disposition(false, false, "ns")))))
  {
    hide RecordAudit;
  }

  // ---------------------------------------------------------------- what the recorder refuses

  /** The same event but for the fraction of its second. */
  predicate SameButSubSecond(a: AuditEvent, b: AuditEvent) {
    && a.id == b.id && a.action == b.action && a.result == b.result && a.rule == b.rule && a.disposition == b.disposition
    && a.timestamp / 1_000_000_000 == b.timestamp / 1_000_000_000
  }

  /** Under a name that is taken, an event is accepted exactly when the stored record is the
      same but for the fraction of its second; otherwise nothing changes. */
  lemma TakenNameIsCompared(w: LiveWorld, e: AuditEvent, at: nat)
    requires e.id.Some? && e.id.value in w.audits && e.disposition.Valid()
    ensures var (r, reply) := RecordAudit(w, e, Smooth(at).audit);
            && r.audits == w.audits && r.recs == w.recs && r.hist == w.hist
            && (reply.Stored? <==> SameButSubSecond(w.audits[e.id.value], e))
            && (!SameButSubSecond(w.audits[e.id.value], e) ==> reply.Mismatch? && r == w)
  {
  }

  /** Whatever happens to the calls, an event that claims suppression without a namespace
      label and UID, or names a source without being suppressed, is not recorded. */
  lemma UnfoundedDispositionIsRefused(w: LiveWorld, e: AuditEvent, c: AuditCalls)
    requires if e.disposition.suppressed then !e.disposition.namespaceLabel || e.disposition.namespaceUid == "" else e.disposition.namespaceLabel
    ensures RecordAudit(w, e, c) == (w, Invalid)
  {
  }

  /** With no room in the queue the record is made and the recorder asks to be called again. */
  lemma FullQueueIsReported(w: LiveWorld, e: AuditEvent, at: nat)
    requires e.id.Some? && e.id.value !in w.audits && e.disposition.Valid() && !e.disposition.suppressed
    ensures RecordAudit(w, e, Smooth(at).audit.(queueHasRoom := false)) == (w.(audits := w.audits[e.id.value := e]), QueueFull)
  {
  }

  /** Without a snapshot nothing is restored; the attempt fails and is counted. */
  lemma RestoreNeedsSnapshot(w: LiveWorld, mem: Mem, d: Decision, at: nat)
    requires mem.rec.action.Some? && mem.rec.action.value.disposition.Some? && mem.rec.action.value.disposition.value.Valid()
    requires mem.rv == |w.recs| - 1 && !mem.rec.SnapshotReady()
    ensures var r := ExecuteRestore(w, mem, d, Smooth(at));
            r.hist == w.hist && r.Rec().failures == mem.rec.failures + 1 && r.Rec().action.Some? && r.Rec().action.value.phase == Failed
  {
    hide Fail;
    SmoothFailure(w, mem, false, at);
  }
}
