/** Who may write the workload, and when: Aura Power writes only what the decision asks
    for, a pass over a stale record writes nothing, and an action that was applied,
    observed or contended is never re-issued until its rule or the retry annotation
    changes. */
module WorkloadWrites {
  import opened Domain
  import opened Cluster
  import opened ReconcileSpec
  import opened SnapshotSafety

  /** The versions added between `w` and `r` come from `writers`. */
  ghost predicate Adds(w: LiveWorld, r: LiveWorld, writers: set<Writer>) {
    && w.hist <= r.hist && w.recs <= r.recs && r.kind == w.kind && r.uid == w.uid
    && forall i :: |w.hist| <= i < |r.hist| ==> r.hist[i].writer in writers
  }

  lemma AddsTransitive(a: LiveWorld, b: LiveWorld, c: LiveWorld, writers: set<Writer>)
    requires Adds(a, b, {Outside}) && Adds(b, c, writers) && Outside in writers
    ensures Adds(a, c, writers)
  {
  }

  lemma EnvAdds(w: LiveWorld, steps: seq<EnvStep>)
    ensures Adds(w, Env(w, steps), {Outside})
  {
    EnvIsCalm(w, steps);
  }

  lemma PutAdds(w: LiveWorld, rv: nat, rec: Record, c: Call)
    ensures Adds(w, PutRecord(w, rv, rec, c).0, {Outside})
  {
    EnvAdds(w, c.before);
  }

  lemma ErrorAdds(w: LiveWorld, a: Option<Action>, rule: string, s: Script)
    ensures Calm(w, RecordError(w, a, rule, s).0)
  {
    hide RecordAudit;
    if a.Some? && a.value.disposition.Some? {
      RecordAuditIsCalm(w, AuditEvent(None, w.clock, ExecutionError, Failure, rule, a.value.disposition.value), s.audit);
    } else {
      EnvIsCalm(w, s.policy.before);
      var (w1, live) := LiveDisposition(w, s.policy);
      if live.Some? {
        var e := AuditEvent(None, w1.clock, ExecutionError, Failure, rule, live.value);
        RecordAuditIsCalm(w1, e, s.audit);
        CalmTransitive(w, w1, RecordAudit(w1, e, s.audit).0);
      }
    }
  }

  lemma PendingAuditAdds(w: LiveWorld, mem: Mem, s: Script)
    ensures Adds(w, PendingAudit(w, mem, s).w, {Outside})
  {
    hide RecordAudit;
    if mem.rec.AuditPending() && mem.rec.action.value.auditId.Some? {
      var a := mem.rec.action.value;
      if a.disposition.None? {
        var (w1, live) := LiveDisposition(w, s.policy);
        EnvAdds(w, s.policy.before);
        if live.Some? {
          var rec := mem.rec.(action := Some(a.(disposition := live)));
          PutAdds(w1, mem.rv, rec, s.recorded);
          AddsTransitive(w, w1, PutRecord(w1, mem.rv, rec, s.recorded).0, {Outside});
        }
      } else if a.auditAction.Some? && !a.auditAction.value.ExecutionError? {
        var event := EventOf(if a.completedAt.Some? then a else a.(completedAt := Some(w.clock)));
        var (w1, reply) := RecordAudit(w, event, s.audit);
        RecordAuditIsCalm(w, event, s.audit);
        if reply.Stored? {
          var rec := mem.rec.(action := Some(a.(auditPhase := Recorded)));
          PutAdds(w1, mem.rv, rec, s.recorded);
          AddsTransitive(w, w1, PutRecord(w1, mem.rv, rec, s.recorded).0, {Outside});
        }
      }
    }
  }

  lemma CompleteAdds(w: LiveWorld, mem: Mem, d: Decision, s: Script)
    requires mem.rec.action.Some?
    ensures Adds(w, Complete(w, mem, d, s), {Outside})
  {
    hide RecordError, PendingAudit;
    var w1 := Tick(w, s.elapsed);
    var done := mem.rec.action.value.(phase := Applied, completedAt := Some(w1.clock), auditPhase := Pending);
    var mem1 := mem.(rec := mem.rec.(failures := 0, action := Some(done), view := ViewOf(d)));
    var (w2, reply) := PutRecord(w1, mem1.rv, mem1.rec, s.outcome);
    PutAdds(w1, mem1.rv, mem1.rec, s.outcome);
    if reply.Ok? {
      PendingAuditAdds(w2, mem1.(rv := |w2.recs| - 1), s);
      AddsTransitive(w1, w2, Complete(w, mem, d, s), {Outside});
    } else if reply.Error? {
      ErrorAdds(w2, Some(done), RuleName(d), s);
      AddsTransitive(w1, w2, Complete(w, mem, d, s), {Outside});
    }
  }

  lemma FailAdds(w: LiveWorld, mem: Mem, stale: bool, s: Script)
    requires mem.rec.action.Some?
    ensures Adds(w, Fail(w, mem, stale, s), {Outside})
  {
    hide RecordError;
    var failed := mem.rec.action.value.(phase := Failed, completedAt := None);
    var rec := mem.rec.(failures := mem.rec.failures + 1, action := Some(failed),
                        snapshot := if stale then None else mem.rec.snapshot);
    var (w1, reply) := RecordError(w, Some(failed), "", s);
    ErrorAdds(w, Some(failed), "", s);
    PutAdds(w1, mem.rv, rec, s.outcome);
    AddsTransitive(w, w1, PutRecord(w1, mem.rv, rec, s.outcome).0, {Outside});
  }

  lemma CaptureAdds(w: LiveWorld, mem: Mem, s: Script)
    requires mem.rv < |w.recs|
    ensures var r := CaptureSnapshot(w, mem, s);
            Adds(w, r.w, {Outside}) && (r.Go? ==> r.mem.rv < |r.w.recs|)
  {
    hide CaptureFailed;
    if !mem.rec.SnapshotReady() {
      EnvAdds(w, s.capture.before);
      var (w1, read) := ReadWorkload(w, s.capture);
      if read.Accepted? {
        var mem1 := mem.(rec := mem.rec.(snapshot := Some(SnapshotOf(w1.kind, w1.hist[s.capture.at].load, s.capture.at))));
        var (w2, reply) := PutRecord(w1, mem1.rv, mem1.rec, s.snapshot);
        PutAdds(w1, mem1.rv, mem1.rec, s.snapshot);
        AddsTransitive(w, w1, w2, {Outside});
        CaptureFailedAdds(w2, mem1, s);
        AddsTransitive(w, w2, CaptureFailed(w2, mem1, s), {Outside});
      } else {
        CaptureFailedAdds(w1, mem, s);
        AddsTransitive(w, w1, CaptureFailed(w1, mem, s), {Outside});
      }
    }
  }

  lemma CaptureFailedAdds(w: LiveWorld, mem: Mem, s: Script)
    ensures Adds(w, CaptureFailed(w, mem, s), {Outside})
  {
    hide RecordError;
    var rec := mem.rec.(failures := mem.rec.failures + 1);
    var (w1, reply) := PutRecord(w, mem.rv, rec, s.captureFailed);
    PutAdds(w, mem.rv, rec, s.captureFailed);
    ErrorAdds(w1, None, "", s);
    AddsTransitive(w, w1, RecordError(w1, None, "", s).0, {Outside});
  }

  lemma BeginAdds(w: LiveWorld, mem: Mem, d: Decision, s: Script)
    requires Acts(d) && mem.rv < |w.recs|
    ensures var r := BeginAction(w, mem, d, s);
            && Adds(w, r.w, {Outside})
            && (r.Go? ==> r.mem.rec.snapshot == mem.rec.snapshot && mem.rv == |w.recs| - 1 && r.mem.rec.action.Some?)
  {
    var (w1, live) := LiveDisposition(w, s.policy);
    EnvAdds(w, s.policy.before);
    if live.Some? {
      var w2 := Tick(w1, s.elapsed);
      var key := KeyOf(d);
      var intent := Action(d.desired.value, key, InProgress, Some(w2.clock), None, mem.rec.retryToken,
                           Some(EventId(key, Some(w2.clock))), Unset, Some(ActionFor(d.desired.value)), RuleName(d), live);
      var rec := mem.rec.(action := Some(intent));
      PutAdds(w2, mem.rv, rec, s.intent);
      var saved := Save(w2, mem.(rec := rec), s.intent);
      AddsTransitive(w, w1, saved.w, {Outside});
      EnvAdds(saved.w, s.verify.before);
      AddsTransitive(w, saved.w, Env(saved.w, s.verify.before), {Outside});
    }
  }

  // ---------------------------------------------------------------- writes follow the decision

  lemma PutWorkloadAdds(w: LiveWorld, at: nat, load: Workload, writer: Writer, c: Call)
    ensures Adds(w, PutWorkload(w, at, load, writer, c).0, {Outside, writer})
  {
    EnvAdds(w, c.before);
  }

  lemma ExecuteAdds(w: LiveWorld, mem: Mem, d: Decision, s: Script)
    ensures Adds(w, Execute(w, mem, d, s), {Outside, AuraOff})
  {
    hide Complete, Fail;
    if mem.rec.action.Some? {
      if !mem.rec.SnapshotReady() {
        FailAdds(w, mem, false, s);
      } else {
        var (w1, reply) := PowerDown(w, mem.rec.snapshot.value, s.get, s.put);
        EnvAdds(w, s.get.before);
        var v := Env(w, s.get.before);
        if s.get.at < |v.hist| {
          PutWorkloadAdds(v, s.get.at, v.hist[s.get.at].load.PoweredDown(w.kind), AuraOff, s.put);
        }
        assert Adds(w, w1, {Outside, AuraOff});
        CompleteAdds(w1, mem, d, s);
        FailAdds(w1, mem, true, s);
        FailAdds(w1, mem, false, s);
        match reply
        case Accepted => AddsThen(w, w1, Complete(w1, mem, d, s), AuraOff);
        case Stale => AddsThen(w, w1, Fail(w1, mem, true, s), AuraOff);
        case Broken => AddsThen(w, w1, Fail(w1, mem, false, s), AuraOff);
        case Killed =>
      }
    }
  }

  lemma AddsThen(a: LiveWorld, b: LiveWorld, c: LiveWorld, writer: Writer)
    requires Adds(a, b, {Outside, writer}) && Adds(b, c, {Outside})
    ensures Adds(a, c, {Outside, writer})
  {
  }

  /** The restore write, and it writes the level held by the snapshot in memory. */
  lemma RestoreAdds(w: LiveWorld, snapshot: Snapshot, s: Script)
    ensures var r := Restore(w, snapshot, s.get, s.put).0;
            && Adds(w, r, {Outside, AuraOn})
            && forall i :: |w.hist| <= i < |r.hist| && r.hist[i].writer.AuraOn? ==>
                 Restorable(w.kind, snapshot) && Saves(w.kind, snapshot, r.hist[i].load)
  {
    if Restorable(w.kind, snapshot) {
      EnvAdds(w, s.get.before);
      var v := Env(w, s.get.before);
      if s.get.at < |v.hist| {
        EnvAdds(v, s.put.before);
        PutWorkloadAdds(v, s.get.at, Restored(w.kind, v.hist[s.get.at].load, snapshot), AuraOn, s.put);
      }
    }
  }

  lemma ExecuteRestoreAdds(w: LiveWorld, mem: Mem, d: Decision, s: Script)
    ensures var r := ExecuteRestore(w, mem, d, s);
            && Adds(w, r, {Outside, AuraOn})
            && forall i :: |w.hist| <= i < |r.hist| && r.hist[i].writer.AuraOn? ==>
                 mem.rec.SnapshotReady() && Saves(w.kind, mem.rec.snapshot.value, r.hist[i].load)
  {
    hide Complete, Fail, Restore;
    if mem.rec.action.Some? {
      if !mem.rec.SnapshotReady() {
        FailAdds(w, mem, false, s);
      } else {
        var (w1, reply) := Restore(w, mem.rec.snapshot.value, s.get, s.put);
        RestoreAdds(w, mem.rec.snapshot.value, s);
        CompleteAdds(w1, mem, d, s);
        FailAdds(w1, mem, false, s);
        match reply
        case Accepted => AddsThen(w, w1, Complete(w1, mem, d, s), AuraOn);
        case Killed =>
        case _ => AddsThen(w, w1, Fail(w1, mem, false, s), AuraOn);
      }
    }
  }

  lemma PowerDownPathAdds(w: LiveWorld, mem: Mem, d: Decision, s: Script)
    requires Acts(d) && mem.rv < |w.recs|
    ensures Adds(w, PowerDownPath(w, mem, d, s), {Outside, AuraOff})
  {
    hide CaptureSnapshot, BeginAction, Execute;
    CaptureAdds(w, mem, s);
    var captured := CaptureSnapshot(w, mem, s);
    if captured.Go? {
      if !s.hpa.Admitted? {
        var rec := captured.mem.rec.(view := captured.mem.rec.view.(blocked := true),
                                     failures := captured.mem.rec.failures + if s.hpa.Unverified? then 1 else 0);
        PutAdds(captured.w, captured.mem.rv, rec, s.hpaWrite);
        AddsTransitive(w, captured.w, PowerDownPath(w, mem, d, s), {Outside, AuraOff});
      } else {
        BeginAdds(captured.w, captured.mem, d, s);
        var begun := BeginAction(captured.w, captured.mem, d, s);
        AddsTransitive(w, captured.w, begun.w, {Outside});
        if begun.Go? {
          ExecuteAdds(begun.w, begun.mem, d, s);
          AddsTransitive(w, begun.w, PowerDownPath(w, mem, d, s), {Outside, AuraOff});
        }
      }
    }
  }

  lemma RestorePathAdds(w: LiveWorld, mem: Mem, d: Decision, s: Script)
    requires Acts(d) && mem.rv < |w.recs|
    ensures var r := RestorePath(w, mem, d, s);
            && Adds(w, r, {Outside, AuraOn})
            && forall i :: |w.hist| <= i < |r.hist| && r.hist[i].writer.AuraOn? ==>
                 mem.rv == |w.recs| - 1 && mem.rec.SnapshotReady() && Saves(w.kind, mem.rec.snapshot.value, r.hist[i].load)
  {
    hide BeginAction, ExecuteRestore;
    BeginAdds(w, mem, d, s);
    var begun := BeginAction(w, mem, d, s);
    if begun.Go? {
      ExecuteRestoreAdds(begun.w, begun.mem, d, s);
      AddsTransitive(w, begun.w, RestorePath(w, mem, d, s), {Outside, AuraOn});
    }
  }

  /** The writers a pass with this decision may add. */
  function Allowed(d: Decision): set<Writer> {
    if !Acts(d) then {Outside} else if d.desired.value.On? then {Outside, AuraOn} else {Outside, AuraOff}
  }

  lemma ActAdds(w: LiveWorld, mem: Mem, was: Record, d: Decision, s: Script)
    requires mem.rv < |w.recs|
    ensures var r := Act(w, mem, was, d, s);
            && Adds(w, r, Allowed(d))
            && forall i :: |w.hist| <= i < |r.hist| && r.hist[i].writer.AuraOn? ==>
                 mem.rv == |w.recs| - 1 && ObservedPower(w, mem.rec).Off?
                 && mem.rec.SnapshotReady() && Saves(w.kind, mem.rec.snapshot.value, r.hist[i].load)
  {
    hide PowerDownPath, RestorePath;
    if !Acts(d) {
      PutAdds(w, mem.rv, mem.rec, s.final);
    } else {
      var existing := ExistingAction(w, mem, d, s);
      ExistingAdds(w, mem, d, s);
      if existing.Go? {
        PowerDownPathAdds(existing.w, existing.mem, d, s);
        RestorePathAdds(existing.w, existing.mem, d, s);
        PutAdds(existing.w, existing.mem.rv, existing.mem.rec, s.final);
      }
    }
  }

  lemma ExistingAdds(w: LiveWorld, mem: Mem, d: Decision, s: Script)
    requires Acts(d)
    ensures var r := ExistingAction(w, mem, d, s);
            && Adds(w, r.w, {Outside})
            && (r.Go? ==> r.w == w && r.mem.rv == mem.rv)
            && (r.Go? && ObservedPower(w, mem.rec).Off? ==> r.mem.rec.snapshot == mem.rec.snapshot)
  {
    var observed := ObservedPower(w, mem.rec);
    var rec := AfterRestoredElsewhere(w, mem.rec, d);
    if SameAttempt(rec, d) {
      var a := rec.action.value;
      var named := if a.auditId.Some? then a else
        a.(auditId := Some(EventId(a.key, a.attemptedAt)), auditAction := Some(ActionFor(d.desired.value)), auditRule := RuleName(d));
      var done := named.(phase := Applied, completedAt := Some(w.clock), auditPhase := Pending);
      PutAdds(w, mem.rv, rec.(action := Some(done)), s.existing);
      PutAdds(w, mem.rv, rec.(action := Some(a.(phase := Contended, completedAt := None))), s.existing);
    }
  }

  /** Whatever happens to its calls, a pass adds workload versions only as the decision
      allows: a power-down only for a managed, unblocked "off", a restore only for "on". */
  lemma WritesObeyDecision(w: LiveWorld, d: Decision, readAt: nat, s: Script)
    requires readAt < |w.recs|
    ensures Adds(w, Reconcile(w, d, readAt, s), Allowed(d))
  {
    hide Act, PendingAudit;
    if w.uid != "" {
      var was := w.recs[readAt];
      var w0 := Tick(w, s.elapsed);
      PutAdds(w0, readAt, was.(tag := LabelOf(d)), s.relabel);
      var projected := ProjectDecision(w0, Mem(was, readAt), d, s);
      if projected.Go? {
        PendingAuditAdds(projected.w, projected.mem, s);
        var audited := PendingAudit(projected.w, projected.mem, s);
        AddsTransitive(w0, projected.w, audited.w, {Outside});
        if audited.Go? {
          PendingAuditGo(projected.w, projected.mem, s);
          ActAdds(audited.w, audited.mem, was, d, s);
          AddsTransitive(w0, audited.w, Act(audited.w, audited.mem, was, d, s), Allowed(d));
        }
      }
    }
  }

  /** Any restore written by a pass that starts while Aura's own power-down is in force
      gives back exactly the level that power-down overwrote. */
  lemma RestoreWritesOverwritten(w: LiveWorld, d: Decision, readAt: nat, s: Script, k: nat)
    requires readAt < |w.recs| && Inv(w) && OffAt(w, k)
    ensures var r := Reconcile(w, d, readAt, s);
            && w.hist <= r.hist
            && forall i :: |w.hist| <= i < |r.hist| && r.hist[i].writer.AuraOn? ==>
                 r.hist[i].load.SameLevel(w.kind, Overwritten(w, k))
  {
    hide Act, PendingAudit;
    WritesObeyDecision(w, d, readAt, s);
    if w.uid != "" {
      var was := w.recs[readAt];
      var w0 := Tick(w, s.elapsed);
      PutAdds(w0, readAt, was.(tag := LabelOf(d)), s.relabel);
      var projected := ProjectDecision(w0, Mem(was, readAt), d, s);
      if projected.Go? {
        PendingAuditAdds(projected.w, projected.mem, s);
        var audited := PendingAudit(projected.w, projected.mem, s);
        if audited.Go? {
          PendingAuditGo(projected.w, projected.mem, s);
          ActAdds(audited.w, audited.mem, was, d, s);
        }
      }
    }
  }

  /** In the whole history, a restore that meets a power-down still in force, however many
      versions lie between, gives back what the power-down found. */
  ghost predicate RoundTrips(w: LiveWorld) {
    forall i, k :: 0 < k < i < |w.hist| && w.hist[i].writer.AuraOn? && OffIn(w.kind, w.hist[..i], k) ==>
      w.hist[i].load.SameLevel(w.kind, w.hist[k - 1].load)
  }

  lemma OffPrefix(kind: Kind, hist: seq<Version>, k: nat, n: nat)
    requires OffIn(kind, hist, k) && k < n <= |hist|
    ensures OffIn(kind, hist[..n], k)
  {
  }

  lemma PassKeepsRoundTrips(w: LiveWorld, d: Decision, readAt: nat, s: Script)
    requires Inv(w) && RoundTrips(w) && readAt < |w.recs|
    ensures RoundTrips(Reconcile(w, d, readAt, s))
  {
    hide Reconcile, Inv;
    var r := Reconcile(w, d, readAt, s);
    WritesObeyDecision(w, d, readAt, s);
    forall i, k | 0 < k < i < |r.hist| && r.hist[i].writer.AuraOn? && OffIn(r.kind, r.hist[..i], k)
      ensures r.hist[i].load.SameLevel(r.kind, r.hist[k - 1].load)
    {
      if i < |w.hist| {
        assert r.hist[..i] == w.hist[..i];
      } else {
        assert r.hist[i].writer in Allowed(d) && r.hist[..i][k] == r.hist[k];
        OffPrefix(w.kind, r.hist[..i], k, |w.hist|);
        assert r.hist[..i][..|w.hist|] == w.hist;
        RestoreWritesOverwritten(w, d, readAt, s, k);
      }
    }
  }

  /** Off and on again is the identity on the replica count or suspend flag, over every
      run that stays sheltered, whatever fails, dies or interferes. */
  lemma {:induction false} ShelteredRunsRoundTrip(w: LiveWorld, run: seq<Step>)
    requires Inv(w) && RoundTrips(w) && Sheltered(w, run)
    ensures RoundTrips(After(w, run))
    decreases |run|
  {
    hide Inv, RoundTrips, Reconcile;
    if run != [] {
      match run[0]
      case Pass(d, readAt, s) =>
        if readAt < |w.recs| {
          ReconcileKeeps(w, d, readAt, s);
          PassKeepsRoundTrips(w, d, readAt, s);
        }
        ShelteredRunsRoundTrip(Take(w, run[0]), run[1..]);
      case Others(steps) =>
        OthersKeep(w, steps);
        OthersRoundTrip(w, steps);
        ShelteredRunsRoundTrip(Take(w, run[0]), run[1..]);
    }
  }

  /** Both laws in every world that fresh-enough runs reach. */
  lemma ReachableWorldsRoundTrip(w: LiveWorld, run: seq<Step>)
    requires Start(w) && FreshEnough(w, run)
    ensures Safe(After(w, run)) && RoundTrips(After(w, run))
  {
    FreshRunKeepsSnapshots(w, run);
    ShelteredRunsRoundTrip(w, run);
  }

  lemma OthersRoundTrip(w: LiveWorld, steps: seq<EnvStep>)
    requires RoundTrips(w)
    ensures RoundTrips(Env(w, steps))
  {
    var r := Env(w, steps);
    EnvIsCalm(w, steps);
    forall i, k | 0 < k < i < |r.hist| && r.hist[i].writer.AuraOn? && OffIn(r.kind, r.hist[..i], k)
      ensures r.hist[i].load.SameLevel(r.kind, r.hist[k - 1].load)
    {
      assert r.hist[..i] == w.hist[..i];
    }
  }

  lemma PendingAuditGo(w: LiveWorld, mem: Mem, s: Script)
    ensures PendingAudit(w, mem, s).Go? ==> PendingAudit(w, mem, s) == Go(w, mem)
  {
  }

  // ---------------------------------------------------------------- a stale read writes nothing

  lemma StalePut(w: LiveWorld, rv: nat, rec: Record, c: Call)
    requires rv < |w.recs| - 1
    ensures Calm(w, PutRecord(w, rv, rec, c).0) && !PutRecord(w, rv, rec, c).1.Ok?
  {
    EnvIsCalm(w, c.before);
  }

  lemma StaleAudit(w: LiveWorld, mem: Mem, s: Script)
    requires mem.rv < |w.recs| - 1
    ensures Calm(w, PendingAudit(w, mem, s).w)
  {
    hide RecordAudit;
    if mem.rec.AuditPending() && mem.rec.action.value.auditId.Some? {
      var a := mem.rec.action.value;
      if a.disposition.None? {
        var (w1, live) := LiveDisposition(w, s.policy);
        EnvIsCalm(w, s.policy.before);
        if live.Some? {
          var rec := mem.rec.(action := Some(a.(disposition := live)));
          StalePut(w1, mem.rv, rec, s.recorded);
          CalmTransitive(w, w1, PutRecord(w1, mem.rv, rec, s.recorded).0);
        }
      } else if a.auditAction.Some? && !a.auditAction.value.ExecutionError? {
        var event := EventOf(if a.completedAt.Some? then a else a.(completedAt := Some(w.clock)));
        var (w1, reply) := RecordAudit(w, event, s.audit);
        RecordAuditIsCalm(w, event, s.audit);
        var rec := mem.rec.(action := Some(a.(auditPhase := Recorded)));
        StalePut(w1, mem.rv, rec, s.recorded);
        CalmTransitive(w, w1, PutRecord(w1, mem.rv, rec, s.recorded).0);
      }
    }
  }

  lemma StaleBegin(w: LiveWorld, mem: Mem, d: Decision, s: Script)
    requires Acts(d) && mem.rv < |w.recs| - 1
    ensures BeginAction(w, mem, d, s).Halt? && Calm(w, BeginAction(w, mem, d, s).w)
  {
    var (w1, live) := LiveDisposition(w, s.policy);
    EnvIsCalm(w, s.policy.before);
    if live.Some? {
      var w2 := Tick(w1, s.elapsed);
      var key := KeyOf(d);
      var intent := Action(d.desired.value, key, InProgress, Some(w2.clock), None, mem.rec.retryToken,
                           Some(EventId(key, Some(w2.clock))), Unset, Some(ActionFor(d.desired.value)), RuleName(d), live);
      var rec := mem.rec.(action := Some(intent));
      StalePut(w2, mem.rv, rec, s.intent);
      CalmTransitive(w, w2, PutRecord(w2, mem.rv, rec, s.intent).0);
    }
  }

  lemma StaleCapture(w: LiveWorld, mem: Mem, s: Script)
    requires mem.rv < |w.recs| - 1
    ensures var r := CaptureSnapshot(w, mem, s); Calm(w, r.w) && (r.Go? ==> r == Go(w, mem))
  {
    hide RecordError;
    if !mem.rec.SnapshotReady() {
      EnvIsCalm(w, s.capture.before);
      var (w1, read) := ReadWorkload(w, s.capture);
      if read.Accepted? {
        var mem1 := mem.(rec := mem.rec.(snapshot := Some(SnapshotOf(w1.kind, w1.hist[s.capture.at].load, s.capture.at))));
        StalePut(w1, mem1.rv, mem1.rec, s.snapshot);
        var w2 := PutRecord(w1, mem1.rv, mem1.rec, s.snapshot).0;
        CalmTransitive(w, w1, w2);
        StaleCaptureFailed(w, w2, mem1, s);
      } else {
        StaleCaptureFailed(w, w1, mem, s);
      }
    }
  }

  lemma StaleCaptureFailed(w: LiveWorld, r: LiveWorld, mem: Mem, s: Script)
    requires Calm(w, r) && mem.rv < |w.recs| - 1
    ensures Calm(w, CaptureFailed(r, mem, s))
  {
    hide RecordError;
    var rec := mem.rec.(failures := mem.rec.failures + 1);
    StalePut(r, mem.rv, rec, s.captureFailed);
    var (w1, reply) := PutRecord(r, mem.rv, rec, s.captureFailed);
    CalmTransitive(w, r, w1);
    ErrorAdds(w1, None, "", s);
    CalmTransitive(w, w1, RecordError(w1, None, "", s).0);
  }

  lemma StaleAct(w: LiveWorld, mem: Mem, was: Record, d: Decision, s: Script)
    requires mem.rv < |w.recs| - 1
    ensures Calm(w, Act(w, mem, was, d, s))
  {
    hide CaptureSnapshot, BeginAction, Execute, ExecuteRestore;
    if !Acts(d) {
      StalePut(w, mem.rv, mem.rec, s.final);
    } else {
      StaleExisting(w, mem, d, s);
      var existing := ExistingAction(w, mem, d, s);
      if existing.Go? {
        StaleCapture(w, existing.mem, s);
        StaleBegin(w, existing.mem, d, s);
        StalePut(w, existing.mem.rv, existing.mem.rec, s.final);
        var rec := existing.mem.rec.(view := existing.mem.rec.view.(blocked := true),
                                     failures := existing.mem.rec.failures + if s.hpa.Unverified? then 1 else 0);
        StalePut(w, mem.rv, rec, s.hpaWrite);
      }
    }
  }

  lemma StaleExisting(w: LiveWorld, mem: Mem, d: Decision, s: Script)
    requires Acts(d) && mem.rv < |w.recs| - 1
    ensures var r := ExistingAction(w, mem, d, s); Calm(w, r.w) && (r.Go? ==> r.w == w && r.mem.rv == mem.rv)
  {
    var rec := AfterRestoredElsewhere(w, mem.rec, d);
    if SameAttempt(rec, d) {
      var a := rec.action.value;
      var named := if a.auditId.Some? then a else
        a.(auditId := Some(EventId(a.key, a.attemptedAt)), auditAction := Some(ActionFor(d.desired.value)), auditRule := RuleName(d));
      StalePut(w, mem.rv, rec.(action := Some(named.(phase := Applied, completedAt := Some(w.clock), auditPhase := Pending))), s.existing);
      StalePut(w, mem.rv, rec.(action := Some(a.(phase := Contended, completedAt := None))), s.existing);
    }
  }

  /** A pass over a superseded record version changes neither the workload nor the
      record: only the other writers do. */
  lemma StalePassWritesNothing(w: LiveWorld, d: Decision, readAt: nat, s: Script)
    requires readAt < |w.recs| - 1
    ensures Calm(w, Reconcile(w, d, readAt, s))
  {
    hide Act, PendingAudit;
    if w.uid != "" {
      var was := w.recs[readAt];
      var w0 := Tick(w, s.elapsed);
      StalePut(w0, readAt, was.(tag := LabelOf(d)), s.relabel);
      var projected := ProjectDecision(w0, Mem(was, readAt), d, s);
      if projected.Go? {
        StaleAudit(projected.w, projected.mem, s);
        PendingAuditGo(projected.w, projected.mem, s);
        StaleAct(projected.w, projected.mem, was, d, s);
      }
    }
  }

  // ---------------------------------------------------------------- settled actions stay settled

  /** The mutation for `key` was accepted and is now being watched. */
  predicate Settled(rec: Record, key: DecisionKey) {
    && rec.action.Some? && rec.action.value.key == key && rec.action.value.desired == key.desired
    && (rec.action.value.phase.Applied? || rec.action.value.phase.Converged? || rec.action.value.phase.Contended?)
  }

  /** The pass is about the settled action: same rule, same retry annotation. */
  predicate Watching(rec: Record, d: Decision, key: DecisionKey) {
    Settled(rec, key) && (Acts(d) ==> KeyOf(d) == key && rec.retryToken == rec.action.value.retryToken)
  }

  lemma CalmSettled(w: LiveWorld, r: LiveWorld, key: DecisionKey)
    requires Calm(w, r) && Settled(w.Rec(), key)
    ensures Settled(r.Rec(), key) && Adds(w, r, {Outside})
  {
    if |r.recs| == |w.recs| {
      assert r.recs == w.recs;
    }
  }

  lemma PutSettled(w: LiveWorld, rv: nat, rec: Record, c: Call, key: DecisionKey)
    requires Settled(w.Rec(), key) && Settled(rec, key)
    ensures var r := PutRecord(w, rv, rec, c).0; Settled(r.Rec(), key) && Adds(w, r, {Outside})
  {
    EnvIsCalm(w, c.before);
    CalmSettled(w, Env(w, c.before), key);
    PutAdds(w, rv, rec, c);
  }

  lemma AuditSettled(w: LiveWorld, mem: Mem, s: Script, key: DecisionKey)
    requires Settled(w.Rec(), key) && Settled(mem.rec, key)
    ensures Settled(PendingAudit(w, mem, s).w.Rec(), key)
  {
    hide RecordAudit;
    if mem.rec.AuditPending() && mem.rec.action.value.auditId.Some? {
      var a := mem.rec.action.value;
      if a.disposition.None? {
        var (w1, live) := LiveDisposition(w, s.policy);
        EnvIsCalm(w, s.policy.before);
        CalmSettled(w, w1, key);
        PutSettled(w1, mem.rv, mem.rec.(action := Some(a.(disposition := live))), s.recorded, key);
      } else if a.auditAction.Some? && !a.auditAction.value.ExecutionError? {
        var event := EventOf(if a.completedAt.Some? then a else a.(completedAt := Some(w.clock)));
        var w1 := RecordAudit(w, event, s.audit).0;
        RecordAuditIsCalm(w, event, s.audit);
        CalmSettled(w, w1, key);
        PutSettled(w1, mem.rv, mem.rec.(action := Some(a.(auditPhase := Recorded))), s.recorded, key);
      }
    }
  }

  lemma SameAdds(w: LiveWorld)
    ensures Adds(w, w, {Outside})
  {
  }

  lemma ActSettled(w: LiveWorld, mem: Mem, was: Record, d: Decision, s: Script, key: DecisionKey)
    requires Settled(w.Rec(), key) && Watching(mem.rec, d, key)
    ensures var r := Act(w, mem, was, d, s); Settled(r.Rec(), key) && Adds(w, r, {Outside})
  {
    hide PowerDownPath, RestorePath, PutRecord, Adds;
    if !Acts(d) {
      SameAdds(w);
      PutSettled(w, mem.rv, mem.rec, s.final, key);
    } else {
      SameAdds(w);
      var rec := AfterRestoredElsewhere(w, mem.rec, d);
      assert SameAttempt(rec, d) && Settled(rec, key);
      var a := rec.action.value;
      var seen := if a.phase.Converged? then rec else rec.(action := Some(a.(phase := Converged, completedAt := Some(w.clock))));
      PutSettled(w, mem.rv, seen, s.final, key);
      PutSettled(w, mem.rv, rec.(action := Some(a.(phase := Contended, completedAt := None))), s.existing, key);
    }
  }

  lemma SettledPass(w: LiveWorld, d: Decision, readAt: nat, s: Script, key: DecisionKey)
    requires readAt < |w.recs| && Watching(w.Rec(), d, key)
    ensures var r := Reconcile(w, d, readAt, s); Settled(r.Rec(), key) && Adds(w, r, {Outside})
  {
    hide Act, PendingAudit;
    if readAt < |w.recs| - 1 {
      StalePassWritesNothing(w, d, readAt, s);
      CalmSettled(w, Reconcile(w, d, readAt, s), key);
    } else if w.uid != "" {
      var was := w.Rec();
      var w0 := Tick(w, s.elapsed);
      PutSettled(w0, readAt, was.(tag := LabelOf(d)), s.relabel, key);
      var projected := ProjectDecision(w0, Mem(was, readAt), d, s);
      if projected.Go? {
        AuditSettled(projected.w, projected.mem, s, key);
        PendingAuditAdds(projected.w, projected.mem, s);
        PendingAuditGo(projected.w, projected.mem, s);
        var audited := PendingAudit(projected.w, projected.mem, s);
        AddsTransitive(w0, projected.w, audited.w, {Outside});
        if audited.Go? {
          ActSettled(audited.w, audited.mem, was, d, s, key);
          AddsTransitive(w0, audited.w, Act(audited.w, audited.mem, was, d, s), {Outside});
        }
      }
    }
  }

  /** Every pass of the run decides by the same rule under the same retry annotation. */
  predicate SameRule(w: LiveWorld, run: seq<Step>, key: DecisionKey)
    decreases |run|
  {
    run == [] ||
    (&& (run[0].Pass? ==> Watching(w.Rec(), run[0].d, key))
     && SameRule(Take(w, run[0]), run[1..], key))
  }

  /** Applied, Converged and Contended are closed under every run, and the controller
      writes the workload no more, until the rule or the retry annotation changes. */
  lemma {:induction false} SettledForGood(w: LiveWorld, run: seq<Step>, key: DecisionKey)
    requires Settled(w.Rec(), key) && SameRule(w, run, key)
    ensures Settled(After(w, run).Rec(), key) && Adds(w, After(w, run), {Outside})
    decreases |run|
  {
    if run != [] {
      var w1 := Take(w, run[0]);
      match run[0] {
        case Pass(d, readAt, s) =>
          if readAt < |w.recs| {
            SettledPass(w, d, readAt, s, key);
          }
        case Others(steps) =>
          EnvIsCalm(w, steps);
          CalmSettled(w, w1, key);
      }
      SettledForGood(w1, run[1..], key);
      AddsTransitive(w, w1, After(w, run), {Outside});
    }
  }
}
