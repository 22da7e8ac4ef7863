/** Suppressed notifications stay suppressed, also for the execution errors a pass records
    under generated names: once an action with a suppressed disposition has begun, the rest
    of the pass hands nothing to the notifier, and a run that only ever reads "disabled"
    queues nothing at all. */
module Silence {
  import opened Domain
  import opened Cluster
  import opened ReconcileSpec
  import opened SnapshotSafety

  /** Nothing recorded on behalf of this action would be announced. */
  predicate Muted(a: Option<Action>, s: Script) {
    if a.Some? && a.value.disposition.Some? then a.value.disposition.value.suppressed else s.policy.disabled
  }

  predicate Quiet(a: Option<Action>) {
    a.Some? && a.value.disposition.Some? ==> a.value.disposition.value.suppressed
  }

  /** Every stored version is quiet. */
  predicate Hushed(w: LiveWorld) {
    forall i :: 0 <= i < |w.recs| ==> Quiet(w.recs[i].action)
  }

  /** Nothing was announced, and no version that could be was added. */
  predicate Silent(w: LiveWorld, r: LiveWorld) {
    r.queue == w.queue && w.recs <= r.recs && (Hushed(w) ==> Hushed(r))
  }

  lemma SilentChain(a: LiveWorld, b: LiveWorld, c: LiveWorld)
    requires Silent(a, b) && Silent(b, c)
    ensures Silent(a, c)
  {
  }

  lemma EnvSilent(w: LiveWorld, steps: seq<EnvStep>)
    ensures Silent(w, Env(w, steps))
  {
    EnvIsCalm(w, steps);
    CalmSilent(w, Env(w, steps));
  }

  lemma CalmSilent(w: LiveWorld, r: LiveWorld)
    requires Calm(w, r) && r.queue == w.queue
    ensures Silent(w, r)
  {
    if Hushed(w) {
      forall i | 0 <= i < |r.recs|
        ensures Quiet(r.recs[i].action)
      {
        assert Quiet(w.recs[|w.recs| - 1].action);
        if i < |w.recs| {
          assert r.recs[i] == w.recs[i];
        }
      }
    }
  }

  lemma PutSilent(w: LiveWorld, rv: nat, rec: Record, c: Call)
    requires Quiet(rec.action)
    ensures Silent(w, PutRecord(w, rv, rec, c).0)
  {
    EnvSilent(w, c.before);
  }

  /** A suppressed event is recorded without being announced. */
  lemma RecordSilent(w: LiveWorld, e: AuditEvent, c: AuditCalls)
    requires e.disposition.suppressed
    ensures Silent(w, RecordAudit(w, e, c).0)
  {
    RecordAuditIsCalm(w, e, c);
    RecordKeepsQueue(w, e, c);
    CalmSilent(w, RecordAudit(w, e, c).0);
  }

  lemma RecordKeepsQueue(w: LiveWorld, e: AuditEvent, c: AuditCalls)
    requires e.disposition.suppressed
    ensures RecordAudit(w, e, c).0.queue == w.queue
  {
    hide Env;
  }

  lemma ErrorSilent(w: LiveWorld, a: Option<Action>, rule: string, s: Script)
    requires Muted(a, s)
    ensures Silent(w, RecordError(w, a, rule, s).0)
  {
    hide RecordAudit, Silent;
    if a.Some? && a.value.disposition.Some? {
      RecordSilent(w, AuditEvent(None, w.clock, ExecutionError, Failure, rule, a.value.disposition.value), s.audit);
    } else {
      EnvSilent(w, s.policy.before);
      var (w1, live) := LiveDisposition(w, s.policy);
      if live.Some? {
        var e := AuditEvent(None, w1.clock, ExecutionError, Failure, rule, live.value);
        RecordSilent(w1, e, s.audit);
        SilentChain(w, w1, RecordAudit(w1, e, s.audit).0);
      }
    }
  }

  lemma NothingIsSilent(w: LiveWorld, elapsed: nat)
    ensures Silent(w, w) && Silent(w, Tick(w, elapsed))
  {
  }

  lemma SaveSilent(w: LiveWorld, w1: LiveWorld, mem: Mem, c: Call)
    requires Silent(w, w1) && Quiet(mem.rec.action)
    ensures Silent(w, Save(w1, mem, c).w)
  {
    hide PutRecord, Silent;
    PutSilent(w1, mem.rv, mem.rec, c);
    SilentChain(w, w1, PutRecord(w1, mem.rv, mem.rec, c).0);
  }

  lemma PendingAuditSilent(w: LiveWorld, mem: Mem, s: Script)
    requires Muted(mem.rec.action, s)
    ensures Silent(w, PendingAudit(w, mem, s).w)
    ensures PendingAudit(w, mem, s).Go? ==> PendingAudit(w, mem, s) == Go(w, mem)
  {
    hide RecordAudit, Silent, Save;
    NothingIsSilent(w, 0);
    if mem.rec.AuditPending() && mem.rec.action.value.auditId.Some? {
      var a := mem.rec.action.value;
      if a.disposition.None? {
        EnvSilent(w, s.policy.before);
        var (w1, live) := LiveDisposition(w, s.policy);
        if live.Some? {
          SaveSilent(w, w1, mem.(rec := mem.rec.(action := Some(a.(disposition := live)))), s.recorded);
        }
      } else if a.auditAction.Some? && !a.auditAction.value.ExecutionError? {
        var event := EventOf(if a.completedAt.Some? then a else a.(completedAt := Some(w.clock)));
        RecordSilent(w, event, s.audit);
        var w1 := RecordAudit(w, event, s.audit).0;
        SaveSilent(w, w1, mem.(rec := mem.rec.(action := Some(a.(auditPhase := Recorded)))), s.recorded);
      }
    }
  }

  /** The accepted mutation is checkpointed and recorded without an announcement. */
  lemma CompleteSilent(w: LiveWorld, mem: Mem, d: Decision, s: Script)
    requires mem.rec.action.Some? && Muted(mem.rec.action, s)
    ensures Silent(w, Complete(w, mem, d, s))
  {
    hide RecordError, PendingAudit, PutRecord, Silent;
    var w1 := Tick(w, s.elapsed);
    var done := mem.rec.action.value.(phase := Applied, completedAt := Some(w1.clock), auditPhase := Pending);
    var mem1 := mem.(rec := mem.rec.(failures := 0, action := Some(done), view := ViewOf(d)));
    NothingIsSilent(w, s.elapsed);
    PutSilent(w1, mem1.rv, mem1.rec, s.outcome);
    var (w2, reply) := PutRecord(w1, mem1.rv, mem1.rec, s.outcome);
    SilentChain(w, w1, w2);
    if reply.Ok? {
      PendingAuditSilent(w2, mem1.(rv := |w2.recs| - 1), s);
      SilentChain(w, w2, Complete(w, mem, d, s));
    } else if reply.Error? {
      ErrorSilent(w2, Some(done), RuleName(d), s);
      SilentChain(w, w2, Complete(w, mem, d, s));
    }
  }

  /** The failed mutation is recorded as an execution error without an announcement. */
  lemma FailSilent(w: LiveWorld, mem: Mem, stale: bool, s: Script)
    requires mem.rec.action.Some? && Muted(mem.rec.action, s)
    ensures Silent(w, Fail(w, mem, stale, s))
  {
    hide RecordError, Silent, Save;
    var failed := mem.rec.action.value.(phase := Failed, completedAt := None);
    var mem1 := mem.(rec := mem.rec.(failures := mem.rec.failures + 1, action := Some(failed),
                                     snapshot := if stale then None else mem.rec.snapshot));
    ErrorSilent(w, Some(failed), "", s);
    SaveSilent(w, RecordError(w, Some(failed), "", s).0, mem1, s.outcome);
  }

  lemma MutationSilent(w: LiveWorld, snapshot: Snapshot, s: Script)
    ensures Silent(w, PowerDown(w, snapshot, s.get, s.put).0) && Silent(w, Restore(w, snapshot, s.get, s.put).0)
  {
    hide Silent, Env;
    NothingIsSilent(w, 0);
    EnvSilent(w, s.get.before);
    var w1 := Env(w, s.get.before);
    EnvSilent(w1, s.put.before);
    var w2 := Env(w1, s.put.before);
    SilentChain(w, w1, w2);
    forall v: Version
      ensures Silent(w, w2.(hist := w2.hist + [v]))
    {
      HistSilent(w, w2, v);
    }
  }

  lemma HistSilent(w: LiveWorld, r: LiveWorld, v: Version)
    requires Silent(w, r)
    ensures Silent(w, r.(hist := r.hist + [v]))
  {
  }

  /** Once an action with a suppressed disposition has begun, the mutation, its checkpoint,
      its audit and any execution error leave the notifier's queue as it was. */
  lemma BegunActionIsSilent(w: LiveWorld, mem: Mem, d: Decision, s: Script)
    requires Muted(mem.rec.action, s)
    ensures Silent(w, Execute(w, mem, d, s)) && Silent(w, ExecuteRestore(w, mem, d, s))
  {
    hide Silent, Complete, Fail, PowerDown, Restore;
    NothingIsSilent(w, 0);
    if mem.rec.action.Some? {
      if !mem.rec.SnapshotReady() {
        FailSilent(w, mem, false, s);
      } else {
        var snapshot := mem.rec.snapshot.value;
        MutationSilent(w, snapshot, s);
        EndSilent(w, PowerDown(w, snapshot, s.get, s.put).0, mem, d, s);
        EndSilent(w, Restore(w, snapshot, s.get, s.put).0, mem, d, s);
      }
    }
  }

  lemma EndSilent(w: LiveWorld, r: LiveWorld, mem: Mem, d: Decision, s: Script)
    requires Silent(w, r) && mem.rec.action.Some? && Muted(mem.rec.action, s)
    ensures Silent(w, Complete(r, mem, d, s)) && Silent(w, Fail(r, mem, true, s)) && Silent(w, Fail(r, mem, false, s))
  {
    hide Silent, Complete, Fail;
    CompleteSilent(r, mem, d, s);
    SilentChain(w, r, Complete(r, mem, d, s));
    FailSilent(r, mem, true, s);
    SilentChain(w, r, Fail(r, mem, true, s));
    FailSilent(r, mem, false, s);
    SilentChain(w, r, Fail(r, mem, false, s));
  }

  // ---------------------------------------------------------------- a whole pass

  lemma BeginSilent(w: LiveWorld, mem: Mem, d: Decision, s: Script)
    requires Acts(d) && s.policy.disabled
    ensures var r := BeginAction(w, mem, d, s); Silent(w, r.w) && (r.Go? ==> Muted(r.mem.rec.action, s))
  {
    hide Silent, PutRecord, ActionIntentPersisted;
    EnvSilent(w, s.policy.before);
    var (w1, live) := LiveDisposition(w, s.policy);
    if live.Some? {
      var w2 := Tick(w1, s.elapsed);
      NothingIsSilent(w1, s.elapsed);
      SilentChain(w, w1, w2);
      var key := KeyOf(d);
      var intent := Action(d.desired.value, key, InProgress, Some(w2.clock), None, mem.rec.retryToken,
                           Some(EventId(key, Some(w2.clock))), Unset, Some(ActionFor(d.desired.value)), RuleName(d), live);
      var mem1 := mem.(rec := mem.rec.(action := Some(intent)));
      SaveSilent(w, w2, mem1, s.intent);
      var saved := Save(w2, mem1, s.intent);
      if saved.Go? {
        EnvSilent(saved.w, s.verify.before);
        SilentChain(w, saved.w, Env(saved.w, s.verify.before));
      }
    }
  }

  lemma CaptureFailedSilent(w: LiveWorld, mem: Mem, s: Script)
    requires Quiet(mem.rec.action) && s.policy.disabled
    ensures Silent(w, CaptureFailed(w, mem, s))
  {
    hide Silent, PutRecord, RecordError;
    var rec := mem.rec.(failures := mem.rec.failures + 1);
    PutSilent(w, mem.rv, rec, s.captureFailed);
    var w1 := PutRecord(w, mem.rv, rec, s.captureFailed).0;
    ErrorSilent(w1, None, "", s);
    SilentChain(w, w1, RecordError(w1, None, "", s).0);
  }

  lemma CaptureSilent(w: LiveWorld, mem: Mem, s: Script)
    requires Quiet(mem.rec.action) && s.policy.disabled
    ensures var r := CaptureSnapshot(w, mem, s); Silent(w, r.w) && (r.Go? ==> r.mem.rec.action == mem.rec.action)
  {
    hide Silent, PutRecord, CaptureFailed, Env;
    NothingIsSilent(w, 0);
    if !mem.rec.SnapshotReady() {
      EnvSilent(w, s.capture.before);
      var (w1, read) := ReadWorkload(w, s.capture);
      if read.Accepted? {
        var mem1 := mem.(rec := mem.rec.(snapshot := Some(SnapshotOf(w1.kind, w1.hist[s.capture.at].load, s.capture.at))));
        PutSilent(w1, mem1.rv, mem1.rec, s.snapshot);
        var w2 := PutRecord(w1, mem1.rv, mem1.rec, s.snapshot).0;
        SilentChain(w, w1, w2);
        CaptureFailedSilent(w2, mem1, s);
        SilentChain(w, w2, CaptureFailed(w2, mem1, s));
      } else {
        CaptureFailedSilent(w1, mem, s);
        SilentChain(w, w1, CaptureFailed(w1, mem, s));
      }
    }
  }

  lemma PathsSilent(w: LiveWorld, mem: Mem, d: Decision, s: Script)
    requires Acts(d) && Quiet(mem.rec.action) && s.policy.disabled
    ensures Silent(w, PowerDownPath(w, mem, d, s)) && Silent(w, RestorePath(w, mem, d, s))
  {
    hide Silent, CaptureSnapshot, BeginAction, Execute, ExecuteRestore, Save;
    BegunSilent(w, w, mem, d, s);
    CaptureSilent(w, mem, s);
    var captured := CaptureSnapshot(w, mem, s);
    if captured.Go? {
      var blocked := captured.mem.(rec := captured.mem.rec.(
        view := captured.mem.rec.view.(blocked := true),
        failures := captured.mem.rec.failures + if s.hpa.Unverified? then 1 else 0));
      SaveSilent(w, captured.w, blocked, s.hpaWrite);
      BegunSilent(w, captured.w, captured.mem, d, s);
    }
  }

  /** Begin and what follows it. */
  lemma BegunSilent(w: LiveWorld, w1: LiveWorld, mem: Mem, d: Decision, s: Script)
    requires Acts(d) && (Silent(w, w1) || w1 == w) && s.policy.disabled
    ensures var begun := BeginAction(w1, mem, d, s);
            && Silent(w, begun.w)
            && (begun.Go? ==> Silent(w, Execute(begun.w, begun.mem, d, s)) && Silent(w, ExecuteRestore(begun.w, begun.mem, d, s)))
  {
    hide Silent, BeginAction, Execute, ExecuteRestore;
    NothingIsSilent(w, 0);
    BeginSilent(w1, mem, d, s);
    var begun := BeginAction(w1, mem, d, s);
    SilentChain(w, w1, begun.w);
    if begun.Go? {
      BegunActionIsSilent(begun.w, begun.mem, d, s);
      SilentChain(w, begun.w, Execute(begun.w, begun.mem, d, s));
      SilentChain(w, begun.w, ExecuteRestore(begun.w, begun.mem, d, s));
    }
  }

  lemma ExistingSilent(w: LiveWorld, mem: Mem, d: Decision, s: Script)
    requires Acts(d) && Quiet(mem.rec.action)
    ensures var r := ExistingAction(w, mem, d, s); Silent(w, r.w) && (r.Go? ==> r.w == w && Quiet(r.mem.rec.action))
  {
    hide Silent, Save;
    NothingIsSilent(w, 0);
    var rec := AfterRestoredElsewhere(w, mem.rec, d);
    if SameAttempt(rec, d) {
      var a := rec.action.value;
      var named := if a.auditId.Some? then a else
        a.(auditId := Some(EventId(a.key, a.attemptedAt)), auditAction := Some(ActionFor(d.desired.value)), auditRule := RuleName(d));
      SaveSilent(w, w, mem.(rec := rec.(action := Some(named.(phase := Applied, completedAt := Some(w.clock), auditPhase := Pending)))), s.existing);
      SaveSilent(w, w, mem.(rec := rec.(action := Some(a.(phase := Contended, completedAt := None)))), s.existing);
    }
  }

  lemma ActSilent(w: LiveWorld, mem: Mem, was: Record, d: Decision, s: Script)
    requires Quiet(mem.rec.action) && s.policy.disabled
    ensures Silent(w, Act(w, mem, was, d, s))
  {
    hide Silent, Save, ExistingAction, PowerDownPath, RestorePath;
    NothingIsSilent(w, 0);
    SaveSilent(w, w, mem, s.final);
    if Acts(d) {
      ExistingSilent(w, mem, d, s);
      var existing := ExistingAction(w, mem, d, s);
      if existing.Go? {
        SaveSilent(w, w, existing.mem, s.final);
        PathsSilent(w, existing.mem, d, s);
      }
    }
  }

  /** A pass that reads "disabled" announces nothing, unless it records what an earlier,
      unsuppressed action still owes. */
  lemma DisabledPassIsSilent(w: LiveWorld, d: Decision, readAt: nat, s: Script)
    requires readAt < |w.recs| && Quiet(w.recs[readAt].action) && s.policy.disabled
    ensures Silent(w, Reconcile(w, d, readAt, s))
  {
    hide Silent, PutRecord, PendingAudit, Act;
    NothingIsSilent(w, s.elapsed);
    if w.uid != "" {
      var was := w.recs[readAt];
      var w0 := Tick(w, s.elapsed);
      SaveSilent(w, w0, Mem(was.(tag := LabelOf(d)), readAt), s.relabel);
      var projected := ProjectDecision(w0, Mem(was, readAt), d, s);
      if projected.Go? {
        PendingAuditSilent(projected.w, projected.mem, s);
        var audited := PendingAudit(projected.w, projected.mem, s);
        SilentChain(w, projected.w, audited.w);
        if audited.Go? {
          ActSilent(audited.w, audited.mem, was, d, s);
          SilentChain(w, audited.w, Act(audited.w, audited.mem, was, d, s));
        }
      }
    }
  }

  // ---------------------------------------------------------------- every run

  /** A run whose passes all read "disabled" queues nothing, whatever fails, dies or
      interferes. */
  lemma {:induction false} DisabledRunQueuesNothing(w: LiveWorld, run: seq<Step>)
    requires Hushed(w) && forall i :: 0 <= i < |run| && run[i].Pass? ==> run[i].s.policy.disabled
    ensures After(w, run).queue == w.queue && Hushed(After(w, run))
    decreases |run|
  {
    hide Reconcile, Quiet;
    if run != [] {
      match run[0] {
        case Pass(d, readAt, s) =>
          if readAt < |w.recs| {
            DisabledPassIsSilent(w, d, readAt, s);
          }
        case Others(steps) =>
          EnvSilent(w, steps);
      }
      DisabledRunQueuesNothing(Take(w, run[0]), run[1..]);
    }
  }
}
