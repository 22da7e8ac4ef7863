/** What stands between a decision and the workload, whatever fails, dies or interferes: the
    gates a pass must go through before it writes, and how little a write changes. */
module Gates {
  import opened Domain
  import opened Cluster
  import opened ReconcileSpec
  import opened SnapshotSafety
  import opened WorkloadWrites

  // ---------------------------------------------------------------- gates

  /** The notification policy was read, the intent written and read back, each without a
      failure. */
  predicate IntentIsDurable(s: Script) {
    s.policy.readable && s.policy.namespaceUid != "" && s.intent.fate.Done? && s.verify.fate.Done?
  }

  lemma BeginNeedsDurableIntent(w: LiveWorld, mem: Mem, d: Decision, s: Script)
    requires Acts(d) && BeginAction(w, mem, d, s).Go?
    ensures IntentIsDurable(s)
  {
  }

  lemma PathGates(w: LiveWorld, mem: Mem, d: Decision, s: Script)
    requires Acts(d) && mem.rv < |w.recs|
    ensures !IntentIsDurable(s) || s.hpa != Admitted ==> Adds(w, PowerDownPath(w, mem, d, s), {Outside})
    ensures !IntentIsDurable(s) ==> Adds(w, RestorePath(w, mem, d, s), {Outside})
  {
    hide CaptureSnapshot, BeginAction, Execute, ExecuteRestore, Adds, PutRecord, IntentIsDurable;
    BeginAdds(w, mem, d, s);
    if BeginAction(w, mem, d, s).Go? {
      BeginNeedsDurableIntent(w, mem, d, s);
    }
    CaptureAdds(w, mem, s);
    var captured := CaptureSnapshot(w, mem, s);
    if captured.Go? {
      if !s.hpa.Admitted? {
        var rec := captured.mem.rec.(view := captured.mem.rec.view.(blocked := true),
                                     failures := captured.mem.rec.failures + if s.hpa.Unverified? then 1 else 0);
        PutAdds(captured.w, captured.mem.rv, rec, s.hpaWrite);
        AddsTransitive(w, captured.w, PutRecord(captured.w, captured.mem.rv, rec, s.hpaWrite).0, {Outside});
      } else {
        BeginAdds(captured.w, captured.mem, d, s);
        var begun := BeginAction(captured.w, captured.mem, d, s);
        AddsTransitive(w, captured.w, begun.w, {Outside});
        if begun.Go? {
          BeginNeedsDurableIntent(captured.w, captured.mem, d, s);
        }
      }
    }
  }

  lemma ActGates(w: LiveWorld, mem: Mem, was: Record, d: Decision, s: Script)
    requires mem.rv < |w.recs|
    ensures !IntentIsDurable(s) ==> Adds(w, Act(w, mem, was, d, s), {Outside})
    ensures s.hpa != Admitted ==> Adds(w, Act(w, mem, was, d, s), {Outside, AuraOn})
  {
    hide PowerDownPath, RestorePath, ExistingAction, IntentIsDurable;
    if !Acts(d) {
      PutAdds(w, mem.rv, mem.rec, s.final);
    } else {
      ExistingAdds(w, mem, d, s);
      var existing := ExistingAction(w, mem, d, s);
      if existing.Go? {
        PathGates(w, existing.mem, d, s);
        RestorePathAdds(w, existing.mem, d, s);
        PutAdds(w, existing.mem.rv, existing.mem.rec, s.final);
      }
    }
  }

  /** A pass writes the workload only after the notification policy was readable and the intent
      was written and read back, and switches it off only when the autoscaler check admitted
      it. */
  lemma PassGates(w: LiveWorld, d: Decision, readAt: nat, s: Script)
    requires readAt < |w.recs|
    ensures !IntentIsDurable(s) ==> Adds(w, Reconcile(w, d, readAt, s), {Outside})
    ensures s.hpa != Admitted ==> Adds(w, Reconcile(w, d, readAt, s), {Outside, AuraOn})
  {
    hide Act, PendingAudit, IntentIsDurable;
    if w.uid != "" {
      var was := w.recs[readAt];
      var w0 := Tick(w, s.elapsed);
      PutAdds(w0, readAt, was.(tag := LabelOf(d)), s.relabel);
      var projected := ProjectDecision(w0, Mem(was, readAt), d, s);
      if projected.Go? {
        PendingAuditAdds(projected.w, projected.mem, s);
        var audited := PendingAudit(projected.w, projected.mem, s);
        AddsTransitive(w0, projected.w, audited.w, {Outside});
        if audited.Go? {
          PendingAuditGo(projected.w, projected.mem, s);
          ActGates(audited.w, audited.mem, was, d, s);
        }
      }
    }
  }

  // ---------------------------------------------------------------- only the level changes

  /** Version `i` is the one before it but for the field its writer is there to set, and
      belongs to the workload the record is bound to. */
  predicate OnlyLevel(kind: Kind, uid: string, hist: seq<Version>, i: nat)
    requires 0 < i < |hist|
  {
    var v, before := hist[i], hist[i - 1].load;
    match v.writer
    case Outside => true
    case AuraOff => v.load.uid == uid && v.load == if kind.CronJob? then before.(suspended := true) else before.(replicas := 0)
    case AuraOn => v.load.uid == uid && v.load == if kind.CronJob? then before.(suspended := v.load.suspended) else before.(replicas := v.load.replicas)
  }

  predicate LevelsOnly(w: LiveWorld) {
    w.hist[0].writer.Outside? && forall i :: 0 < i < |w.hist| ==> OnlyLevel(w.kind, w.uid, w.hist, i)
  }

  lemma OutsideKeepsLevels(w: LiveWorld, r: LiveWorld)
    requires LevelsOnly(w) && Adds(w, r, {Outside})
    ensures LevelsOnly(r)
  {
    forall i | 0 < i < |r.hist|
      ensures OnlyLevel(r.kind, r.uid, r.hist, i)
    {
      if i < |w.hist| {
        assert OnlyLevel(w.kind, w.uid, w.hist, i);
        assert r.hist[i] == w.hist[i] && r.hist[i - 1] == w.hist[i - 1];
      }
    }
  }

  lemma AppendKeepsLevels(w: LiveWorld, v: Version)
    requires LevelsOnly(w) && OnlyLevel(w.kind, w.uid, w.hist + [v], |w.hist|)
    ensures LevelsOnly(w.(hist := w.hist + [v]))
  {
    var r: LiveWorld := w.(hist := w.hist + [v]);
    forall i | 0 < i < |r.hist|
      ensures OnlyLevel(r.kind, r.uid, r.hist, i)
    {
      if i < |w.hist| {
        assert OnlyLevel(w.kind, w.uid, w.hist, i);
      }
    }
  }

  lemma MutationKeepsLevels(w: LiveWorld, snapshot: Snapshot, s: Script)
    requires LevelsOnly(w)
    ensures LevelsOnly(PowerDown(w, snapshot, s.get, s.put).0) && LevelsOnly(Restore(w, snapshot, s.get, s.put).0)
  {
    hide LevelsOnly, Adds, Env;
    EnvAdds(w, s.get.before);
    var w1 := Env(w, s.get.before);
    OutsideKeepsLevels(w, w1);
    EnvAdds(w1, s.put.before);
    var w2 := Env(w1, s.put.before);
    OutsideKeepsLevels(w1, w2);
    SamePrefix(w1, w2);
    if s.get.at == |w2.hist| - 1 && s.get.at < |w1.hist| && w1.hist[s.get.at].load.uid == w.uid {
      var load := w1.hist[s.get.at].load;
      AppendKeepsLevels(w2, Version(load.PoweredDown(w.kind), AuraOff));
      if Restorable(w.kind, snapshot) {
        AppendKeepsLevels(w2, Version(Restored(w.kind, load, snapshot), AuraOn));
      }
    }
  }

  lemma SamePrefix(w: LiveWorld, r: LiveWorld)
    requires Adds(w, r, {Outside})
    ensures r.kind == w.kind && r.uid == w.uid && forall i :: 0 <= i < |w.hist| ==> |w.hist| <= |r.hist| && r.hist[i] == w.hist[i]
  {
  }

  lemma ExecuteKeepsLevels(w: LiveWorld, mem: Mem, d: Decision, s: Script)
    requires LevelsOnly(w)
    ensures LevelsOnly(Execute(w, mem, d, s)) && LevelsOnly(ExecuteRestore(w, mem, d, s))
  {
    hide LevelsOnly, Complete, Fail, PowerDown, Restore;
    if mem.rec.action.Some? {
      if !mem.rec.SnapshotReady() {
        FailAdds(w, mem, false, s);
        OutsideKeepsLevels(w, Fail(w, mem, false, s));
      } else {
        var snapshot := mem.rec.snapshot.value;
        MutationKeepsLevels(w, snapshot, s);
        EndKeepsLevels(PowerDown(w, snapshot, s.get, s.put).0, mem, d, s);
        EndKeepsLevels(Restore(w, snapshot, s.get, s.put).0, mem, d, s);
      }
    }
  }

  lemma EndKeepsLevels(w: LiveWorld, mem: Mem, d: Decision, s: Script)
    requires LevelsOnly(w) && mem.rec.action.Some?
    ensures LevelsOnly(Complete(w, mem, d, s)) && LevelsOnly(Fail(w, mem, true, s)) && LevelsOnly(Fail(w, mem, false, s))
  {
    hide LevelsOnly, Complete, Fail, Adds;
    CompleteAdds(w, mem, d, s);
    OutsideKeepsLevels(w, Complete(w, mem, d, s));
    FailAdds(w, mem, true, s);
    OutsideKeepsLevels(w, Fail(w, mem, true, s));
    FailAdds(w, mem, false, s);
    OutsideKeepsLevels(w, Fail(w, mem, false, s));
  }

  lemma BegunKeepsLevels(w: LiveWorld, mem: Mem, d: Decision, s: Script)
    requires Acts(d) && mem.rv < |w.recs| && LevelsOnly(w)
    ensures var begun := BeginAction(w, mem, d, s);
            && LevelsOnly(begun.w)
            && (begun.Go? ==> LevelsOnly(Execute(begun.w, begun.mem, d, s)) && LevelsOnly(ExecuteRestore(begun.w, begun.mem, d, s)))
  {
    hide LevelsOnly, BeginAction, Execute, ExecuteRestore, Adds;
    BeginAdds(w, mem, d, s);
    var begun := BeginAction(w, mem, d, s);
    OutsideKeepsLevels(w, begun.w);
    if begun.Go? {
      ExecuteKeepsLevels(begun.w, begun.mem, d, s);
    }
  }

  lemma PathsKeepLevels(w: LiveWorld, mem: Mem, d: Decision, s: Script)
    requires Acts(d) && mem.rv < |w.recs| && LevelsOnly(w)
    ensures LevelsOnly(PowerDownPath(w, mem, d, s)) && LevelsOnly(RestorePath(w, mem, d, s))
  {
    hide LevelsOnly, CaptureSnapshot, BeginAction, Execute, ExecuteRestore, Adds, PutRecord;
    BegunKeepsLevels(w, mem, d, s);
    CaptureAdds(w, mem, s);
    var captured := CaptureSnapshot(w, mem, s);
    OutsideKeepsLevels(w, captured.w);
    if captured.Go? {
      var rec := captured.mem.rec.(view := captured.mem.rec.view.(blocked := true),
                                   failures := captured.mem.rec.failures + if s.hpa.Unverified? then 1 else 0);
      PutAdds(captured.w, captured.mem.rv, rec, s.hpaWrite);
      OutsideKeepsLevels(captured.w, PutRecord(captured.w, captured.mem.rv, rec, s.hpaWrite).0);
      BegunKeepsLevels(captured.w, captured.mem, d, s);
    }
  }

  lemma ActKeepsLevels(w: LiveWorld, mem: Mem, was: Record, d: Decision, s: Script)
    requires mem.rv < |w.recs| && LevelsOnly(w)
    ensures LevelsOnly(Act(w, mem, was, d, s))
  {
    hide LevelsOnly, PowerDownPath, RestorePath, ExistingAction, Adds, PutRecord;
    PutAdds(w, mem.rv, mem.rec, s.final);
    OutsideKeepsLevels(w, PutRecord(w, mem.rv, mem.rec, s.final).0);
    if Acts(d) {
      ExistingAdds(w, mem, d, s);
      var existing := ExistingAction(w, mem, d, s);
      OutsideKeepsLevels(w, existing.w);
      if existing.Go? {
        PathsKeepLevels(w, existing.mem, d, s);
        PutAdds(w, existing.mem.rv, existing.mem.rec, s.final);
        OutsideKeepsLevels(w, PutRecord(w, existing.mem.rv, existing.mem.rec, s.final).0);
      }
    }
  }

  lemma PassKeepsLevels(w: LiveWorld, d: Decision, readAt: nat, s: Script)
    requires readAt < |w.recs| && LevelsOnly(w)
    ensures LevelsOnly(Reconcile(w, d, readAt, s))
  {
    if w.uid != "" {
      var was := w.recs[readAt];
      var w0 := Tick(w, s.elapsed);
      assert LevelsOnly(w0);
      hide Act, PendingAudit, LevelsOnly;
      PutAdds(w0, readAt, was.(tag := LabelOf(d)), s.relabel);
      var projected := ProjectDecision(w0, Mem(was, readAt), d, s);
      OutsideKeepsLevels(w0, projected.w);
      if projected.Go? {
        PendingAuditAdds(projected.w, projected.mem, s);
        var audited := PendingAudit(projected.w, projected.mem, s);
        OutsideKeepsLevels(projected.w, audited.w);
        if audited.Go? {
          PendingAuditGo(projected.w, projected.mem, s);
          ActKeepsLevels(audited.w, audited.mem, was, d, s);
        }
      }
    }
  }

  /** Over every run, every write of the controller is the version it replaced but for the
      replica count or the suspend flag, and is of the workload the record is bound to. */
  lemma {:induction false} RunsChangeOnlyLevels(w: LiveWorld, run: seq<Step>)
    requires LevelsOnly(w)
    ensures LevelsOnly(After(w, run))
    decreases |run|
  {
    hide LevelsOnly, Reconcile;
    if run != [] {
      match run[0] {
        case Pass(d, readAt, s) =>
          if readAt < |w.recs| {
            PassKeepsLevels(w, d, readAt, s);
          }
        case Others(steps) =>
          EnvAdds(w, steps);
          OutsideKeepsLevels(w, Env(w, steps));
      }
      RunsChangeOnlyLevels(Take(w, run[0]), run[1..]);
    }
  }

  lemma ReachableWritesChangeOnlyLevels(w: LiveWorld, run: seq<Step>)
    requires Start(w)
    ensures LevelsOnly(After(w, run))
  {
    assert LevelsOnly(w);
    RunsChangeOnlyLevels(w, run);
  }
}
