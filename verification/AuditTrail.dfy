/** The audit side of the power-action saga: an accepted mutation owes one audit record,
    and the action cannot be replaced before that record exists.

    `ActionStep` is the life cycle of an action as its durable versions show it; every
    version any run commits is such a step from the version before. */
module AuditTrail {
  import opened Domain
  import opened Cluster
  import opened ReconcileSpec
  import opened SnapshotSafety

  predicate IsPending(a: Option<Action>) {
    a.Some? && a.value.auditPhase.Pending?
  }

  predicate ActionStep(prev: Option<Action>, next: Option<Action>) {
    || next == prev
    || (next.Some? && next.value.phase.InProgress? && !IsPending(prev))
    || (next.Some? && next.value.phase.Converged? && next.value.auditId.None? && next.value.auditPhase.Unset? && !IsPending(prev))
    || (prev.Some? && next.Some? &&
        var (p, n) := (prev.value, next.value);
        || (p.phase.InProgress? && n == p.(phase := Applied, completedAt := n.completedAt, auditPhase := Pending))
        || (p.phase.InProgress? && n == p.(phase := Failed, completedAt := None))
        || (p.auditPhase.Pending? && n == p.(auditPhase := Recorded))
        || (!p.auditPhase.Pending? && (p.phase.Applied? || p.phase.Contended?)
            && n == p.(phase := Converged, completedAt := n.completedAt))
        || (!p.auditPhase.Pending? && (p.phase.Applied? || p.phase.Converged?)
            && n == p.(phase := Contended, completedAt := None)))
  }

  // ---------------------------------------------------------------- the invariant

  /** Carries everything its audit record will need. */
  predicate Named(a: Action) {
    && a.auditId.Some? && a.auditAction == Some(ActionFor(a.desired))
    && a.disposition.Some? && a.disposition.value.Valid()
  }

  predicate Shaped(a: Action, clock: int) {
    && (a.auditId.Some? ==> a.auditId.value.attemptedAt.Some? && a.auditId.value.attemptedAt.value <= clock)
    && (a.phase.InProgress? ==> Named(a) && a.auditPhase.Unset?)
    && (a.phase.Failed? ==> a.auditPhase.Unset?)
    && (a.auditPhase.Pending? ==> Named(a) && a.phase.Applied? && a.completedAt.Some?)
    && (a.auditPhase.Recorded? ==> Named(a))
  }

  /** The stored audit record tells of this action. */
  predicate Witnessed(audits: map<EventId, AuditEvent>, a: Action) {
    && a.auditId.Some? && a.auditId.value in audits
    && a.disposition.Some? && a.auditAction.Some?
    && var e := audits[a.auditId.value];
       e.action == a.auditAction.value && e.result.Success? && e.rule == a.auditRule && e.disposition == a.disposition.value
  }

  predicate PendingFor(a: Option<Action>, id: EventId) {
    IsPending(a) && a.value.auditId == Some(id)
  }

  /** What holds of one stored version, whatever its age. */
  predicate RecOk(w: LiveWorld, a: Option<Action>) {
    a.Some? ==>
      && Shaped(a.value, w.clock)
      && (a.value.auditPhase.Recorded? ==> Witnessed(w.audits, a.value))
      && (a.value.auditPhase.Pending? && a.value.auditId.value in w.audits ==>
            w.audits[a.value.auditId.value] == EventOf(a.value))
      && (a.value.auditId.Some? && a.value.auditId.value in w.audits ==>
            a.value.disposition == Some(w.audits[a.value.auditId.value].disposition))
  }

  /** Versions under one identifier carry one disposition. */
  predicate SameDisposition(a: Option<Action>, b: Option<Action>) {
    a.Some? && b.Some? && a.value.auditId.Some? && a.value.auditId == b.value.auditId ==> a.value.disposition == b.value.disposition
  }

  predicate Carries(a: Option<Action>, id: EventId) {
    a.Some? && a.value.auditId == Some(id)
  }

  /** No version carries this identifier. */
  ghost predicate NewId(w: LiveWorld, id: EventId) {
    forall i :: 0 <= i < |w.recs| ==> !Carries(w.recs[i].action, id)
  }

  /** No record and no owed event carries this identifier. */
  ghost predicate Unused(w: LiveWorld, id: EventId) {
    id !in w.audits && forall i :: 0 <= i < |w.recs| ==> !PendingFor(w.recs[i].action, id)
  }

  predicate EventOk(w: LiveWorld, e: AuditEvent) {
    && !e.disposition.suppressed
    && (e.id.Some? ==> e.id.value in w.audits && w.audits[e.id.value] == e)
  }

  /** Versions that owe an event under one identifier owe the same event. */
  predicate SameOwedEvent(a: Option<Action>, b: Option<Action>) {
    IsPending(a) && IsPending(b) && a.value.auditId == b.value.auditId ==>
      && a.value.completedAt == b.value.completedAt && a.value.auditAction == b.value.auditAction
      && a.value.auditRule == b.value.auditRule && a.value.disposition == b.value.disposition
  }

  ghost predicate Inv(w: LiveWorld) {
    && (forall i :: 0 <= i < |w.recs| ==> RecOk(w, w.recs[i].action))
    && (forall i, j | 0 <= i < |w.recs| && 0 <= j < |w.recs| :: SameOwedEvent(w.recs[i].action, w.recs[j].action))
    && (forall i, j | 0 <= i < |w.recs| && 0 <= j < |w.recs| :: SameDisposition(w.recs[i].action, w.recs[j].action))
    && (forall i :: 0 <= i < |w.recs| - 1 ==> ActionStep(w.recs[i].action, w.recs[i + 1].action))
    && (w.Rec().action.Some? && w.Rec().action.value.phase.InProgress? ==> Unused(w, w.Rec().action.value.auditId.value))
    && (forall id :: id in w.audits ==> id.attemptedAt.Some? && id.attemptedAt.value <= w.clock && w.audits[id].id == Some(id))
    && (forall e :: e in w.queue ==> EventOk(w, e))
  }

  /** Appending a version with action `a` would keep the invariant. */
  ghost predicate Appendable(w: LiveWorld, a: Option<Action>) {
    && ActionStep(w.Rec().action, a) && RecOk(w, a)
    && (a.Some? && a != w.Rec().action && (a.value.phase.InProgress? || a.value.auditPhase.Pending?) ==>
          a.value.auditId.Some? && Unused(w, a.value.auditId.value))
    && (a.Some? && a.value.auditId.Some? ==>
          (Carries(w.Rec().action, a.value.auditId.value) && SameDisposition(w.Rec().action, a)) || NewId(w, a.value.auditId.value))
  }

  lemma AppendKeepsDispositions(w: LiveWorld, rec: Record)
    requires Inv(w) && Appendable(w, rec.action)
    ensures var recs := w.recs + [rec];
            forall i, j | 0 <= i < |recs| && 0 <= j < |recs| :: SameDisposition(recs[i].action, recs[j].action)
  {
    var recs := w.recs + [rec];
    forall i, j | 0 <= i < |recs| && 0 <= j < |recs|
      ensures SameDisposition(recs[i].action, recs[j].action)
    {
      forall k | 0 <= k < |w.recs|
        ensures SameDisposition(w.recs[k].action, rec.action)
      {
        if rec.action.Some? && rec.action.value.auditId.Some? && Carries(w.recs[k].action, rec.action.value.auditId.value) {
          assert SameDisposition(w.recs[k].action, w.recs[|w.recs| - 1].action);
        }
      }
    }
  }

  lemma AppendKeeps(w: LiveWorld, rec: Record)
    requires Inv(w) && Appendable(w, rec.action)
    ensures Inv(w.(recs := w.recs + [rec]))
  {
    var r: LiveWorld := w.(recs := w.recs + [rec]);
    AppendKeepsDispositions(w, rec);
    hide SameDisposition, NewId;
    forall i | 0 <= i < |r.recs|
      ensures RecOk(r, r.recs[i].action)
    {
      assert i < |w.recs| ==> RecOk(w, w.recs[i].action);
    }
    forall i, j | 0 <= i < |r.recs| && 0 <= j < |r.recs|
      ensures SameOwedEvent(r.recs[i].action, r.recs[j].action)
    {
      if rec.action == w.Rec().action {
        var i' := if i < |w.recs| then i else |w.recs| - 1;
        var j' := if j < |w.recs| then j else |w.recs| - 1;
        assert r.recs[i].action == w.recs[i'].action && r.recs[j].action == w.recs[j'].action;
        assert SameOwedEvent(w.recs[i'].action, w.recs[j'].action);
      } else if i < |w.recs| && j < |w.recs| {
        assert SameOwedEvent(w.recs[i].action, w.recs[j].action);
      } else if IsPending(rec.action) {
        assert Unused(w, rec.action.value.auditId.value);
        assert i < |w.recs| ==> !PendingFor(w.recs[i].action, rec.action.value.auditId.value);
        assert j < |w.recs| ==> !PendingFor(w.recs[j].action, rec.action.value.auditId.value);
      }
    }
    forall i | 0 <= i < |r.recs| - 1
      ensures ActionStep(r.recs[i].action, r.recs[i + 1].action)
    {
      if i == |w.recs| - 1 {
        assert r.recs[i] == w.Rec();
      } else {
        assert ActionStep(w.recs[i].action, w.recs[i + 1].action);
      }
    }
    if rec.action.Some? && rec.action.value.phase.InProgress? {
      var id := rec.action.value.auditId.value;
      assert Unused(w, id);
      forall i | 0 <= i < |r.recs|
        ensures !PendingFor(r.recs[i].action, id)
      {
        assert i < |w.recs| ==> !PendingFor(w.recs[i].action, id);
      }
    }
  }

  lemma TickKeeps(w: LiveWorld, elapsed: nat)
    requires Inv(w)
    ensures Inv(Tick(w, elapsed))
  {
    hide ActionStep, SameOwedEvent, SameDisposition;
    var r := Tick(w, elapsed);
    forall i | 0 <= i < |r.recs|
      ensures RecOk(r, r.recs[i].action)
    {
      assert RecOk(w, w.recs[i].action);
    }
    assert forall id :: Unused(w, id) ==> Unused(r, id);
  }

  lemma SameActionAppendable(w: LiveWorld)
    requires Inv(w)
    ensures Appendable(w, w.Rec().action)
  {
    assert RecOk(w, w.recs[|w.recs| - 1].action);
  }

  // ---------------------------------------------------------------- one pass, step by step

  /** The action in memory is the one stored at the version memory stands for. */
  predicate Same(w: LiveWorld, mem: Mem) {
    mem.rv < |w.recs| && mem.rec.action == w.recs[mem.rv].action
  }

  /** What memory would write is a legal next version, if it can be written at all. */
  ghost predicate Next(w: LiveWorld, mem: Mem) {
    mem.rv < |w.recs| && (mem.rv == |w.recs| - 1 ==> Appendable(w, mem.rec.action))
  }

  /** The audit records of `w` are still there, unchanged, in `r`. */
  predicate Grown(w: LiveWorld, r: LiveWorld) {
    && w.recs <= r.recs
    && forall id :: id in w.audits ==> id in r.audits && r.audits[id] == w.audits[id]
  }

  lemma GrownTransitive(a: LiveWorld, b: LiveWorld, c: LiveWorld)
    requires Grown(a, b) && Grown(b, c)
    ensures Grown(a, c)
  {
  }

  lemma SameGrown(w: LiveWorld, r: LiveWorld, mem: Mem)
    requires Grown(w, r) && Same(w, mem)
    ensures Same(r, mem)
  {
  }

  lemma SameIsNext(w: LiveWorld, mem: Mem)
    requires Inv(w) && Same(w, mem)
    ensures Next(w, mem)
  {
    SameActionAppendable(w);
  }

  lemma EnvKeeps(w: LiveWorld, steps: seq<EnvStep>)
    requires Inv(w)
    ensures Inv(Env(w, steps)) && Grown(w, Env(w, steps))
    decreases |steps|
  {
    if steps != [] {
      var w1 := EnvOne(w, steps[0]);
      SameActionAppendable(w);
      if |w1.recs| > |w.recs| {
        AppendKeeps(w, w1.Rec());
        assert w1 == w.(recs := w.recs + [w1.Rec()]);
      }
      assert Inv(w1);
      EnvKeeps(w1, steps[1..]);
    }
  }

  lemma EnvNext(w: LiveWorld, steps: seq<EnvStep>, mem: Mem)
    requires Inv(w) && Next(w, mem)
    ensures Next(Env(w, steps), mem) && Inv(Env(w, steps)) && Grown(w, Env(w, steps))
  {
    EnvKeeps(w, steps);
    var r := Env(w, steps);
    if mem.rv == |r.recs| - 1 {
      assert r.recs == w.recs;
      AppendableFrame(w, r, mem.rec.action);
    }
  }

  lemma AppendableFrame(w: LiveWorld, r: LiveWorld, a: Option<Action>)
    requires Appendable(w, a) && r.recs == w.recs && r.audits == w.audits && r.clock >= w.clock
    ensures Appendable(r, a)
  {
    if a.Some? && a.value.auditId.Some? {
      assert Unused(w, a.value.auditId.value) ==> Unused(r, a.value.auditId.value);
      assert NewId(w, a.value.auditId.value) ==> NewId(r, a.value.auditId.value);
    }
  }

  lemma PutKeeps(w: LiveWorld, mem: Mem, c: Call)
    requires Inv(w) && Next(w, mem)
    ensures var r := PutRecord(w, mem.rv, mem.rec, c);
            && Inv(r.0) && Grown(w, r.0)
            && (r.1.Ok? ==> r.0.Rec() == mem.rec && mem.rv == |w.recs| - 1)
  {
    EnvNext(w, c.before, mem);
    var w1 := Env(w, c.before);
    if mem.rv == |w1.recs| - 1 {
      AppendKeeps(w1, mem.rec);
    }
  }

  // ---------------------------------------------------------------- the recorder

  /** `e` has a generated name, or it is the event some stored version owes. */
  predicate Owed(w: LiveWorld, e: AuditEvent, i: nat) {
    e.id.None? ||
    (&& i < |w.recs| && IsPending(w.recs[i].action) && Shaped(w.recs[i].action.value, w.clock)
     && e == EventOf(w.recs[i].action.value))
  }

  lemma CreateKeeps(w: LiveWorld, e: AuditEvent, i: nat)
    requires Inv(w) && Owed(w, e, i) && (e.id.Some? ==> e.id.value !in w.audits)
    ensures Inv(CreateAudit(w, e)) && Grown(w, CreateAudit(w, e))
  {
    hide ActionStep;
    var r := CreateAudit(w, e);
    if e.id.Some? {
      var id := e.id.value;
      forall k | 0 <= k < |r.recs|
        ensures RecOk(r, r.recs[k].action)
      {
        CreatedMeets(w, e, i, k);
      }
      hide RecOk, SameOwedEvent, SameDisposition;
      if w.Rec().action.Some? && w.Rec().action.value.phase.InProgress? {
        var last := w.Rec().action.value.auditId.value;
        assert PendingFor(w.recs[i].action, id);
        assert Unused(w, last);
        assert last != id;
        assert Unused(r, last);
      }
      assert forall q :: q in w.queue ==> EventOk(r, q);
    } else {
      LooseKeeps(w, e);
    }
  }

  lemma CreatedMeets(w: LiveWorld, e: AuditEvent, i: nat, k: nat)
    requires Inv(w) && Owed(w, e, i) && e.id.Some? && e.id.value !in w.audits && k < |w.recs|
    ensures RecOk(CreateAudit(w, e), w.recs[k].action)
  {
    assert RecOk(w, w.recs[k].action);
    OwedMeets(w, e, i, k);
    hide Inv;
  }

  lemma LooseKeeps(w: LiveWorld, e: AuditEvent)
    requires Inv(w)
    ensures Inv(w.(loose := w.loose + [e]))
  {
    hide ActionStep, SameOwedEvent, SameDisposition;
    var r: LiveWorld := w.(loose := w.loose + [e]);
    assert forall k :: 0 <= k < |r.recs| ==> (RecOk(w, w.recs[k].action) ==> RecOk(r, r.recs[k].action));
    assert forall q :: Unused(w, q) ==> Unused(r, q);
    assert forall q :: q in w.queue ==> (EventOk(w, q) ==> EventOk(r, q));
  }

  /** What version `i` owes agrees with every version of that identifier. */
  lemma OwedMeets(w: LiveWorld, e: AuditEvent, i: nat, k: nat)
    requires Inv(w) && Owed(w, e, i) && e.id.Some? && k < |w.recs|
    ensures Carries(w.recs[k].action, e.id.value) ==> w.recs[k].action.value.disposition == Some(e.disposition)
    ensures PendingFor(w.recs[k].action, e.id.value) ==> RecOk(w, w.recs[k].action) && e == EventOf(w.recs[k].action.value)
  {
    assert RecOk(w, w.recs[k].action);
    assert SameOwedEvent(w.recs[i].action, w.recs[k].action);
    assert SameDisposition(w.recs[i].action, w.recs[k].action);
  }

  lemma EnqueueKeeps(w: LiveWorld, e: AuditEvent)
    requires Inv(w) && EventOk(w, e)
    ensures Inv(w.(queue := w.queue + [e]))
  {
    hide ActionStep, SameOwedEvent, SameDisposition;
    var r: LiveWorld := w.(queue := w.queue + [e]);
    assert forall k :: 0 <= k < |r.recs| ==> (RecOk(w, w.recs[k].action) ==> RecOk(r, r.recs[k].action));
    assert forall q :: Unused(w, q) ==> Unused(r, q);
    assert forall q :: q in w.queue ==> (EventOk(w, q) ==> EventOk(r, q));
    assert EventOk(r, e);
  }

  lemma VerifyKeeps(w: LiveWorld, e: AuditEvent, c: AuditCalls)
    requires Inv(w) && (e.id.Some? ==> e.id.value in w.audits && w.audits[e.id.value] == e)
    ensures var r := VerifyAndEnqueue(w, e, c); Inv(r.0) && Grown(w, r.0) && !r.1.Mismatch? && !r.1.Invalid?
  {
    EnvKeeps(w, c.verify.before);
    var w1 := Env(w, c.verify.before);
    if !e.disposition.suppressed {
      EnqueueKeeps(w1, e);
    }
  }

  /** Recording the event a stored version owes, however old that version is, never
      meets a record with different semantics and never changes one that exists. */
  lemma OwedEventNeverMismatches(w: LiveWorld, e: AuditEvent, i: nat, c: AuditCalls)
    requires Inv(w) && Owed(w, e, i)
    ensures var r := RecordAudit(w, e, c);
            && Inv(r.0) && Grown(w, r.0) && r.0.clock == w.clock
            && !r.1.Mismatch? && (e.id.Some? ==> !r.1.Invalid?)
            && (r.1.Stored? && e.id.Some? ==> e.id.value in r.0.audits && r.0.audits[e.id.value] == e)
            && (e.id.None? ==> r.0.audits == w.audits)
  {
    hide VerifyAndEnqueue, Inv;
    if e.disposition.Valid() {
      EnvKeeps(w, c.create.before);
      var w1 := Env(w, c.create.before);
      assert Owed(w1, e, i);
      if e.id.Some? && e.id.value in w1.audits {
        EnvKeeps(w1, c.existing.before);
        var w2 := Env(w1, c.existing.before);
        StoredIsOwed(w2, e, i);
        VerifyKeeps(w2, e, c);
        VerifyFrame(w2, e, c);
      } else {
        CreateKeeps(w1, e, i);
        if c.create.fate.Done? {
          VerifyKeeps(CreateAudit(w1, e), e, c);
          VerifyFrame(CreateAudit(w1, e), e, c);
        }
      }
    }
  }

  lemma StoredIsOwed(w: LiveWorld, e: AuditEvent, i: nat)
    requires Inv(w) && Owed(w, e, i) && e.id.Some? && e.id.value in w.audits
    ensures w.audits[e.id.value] == e
  {
    assert RecOk(w, w.recs[i].action);
  }

  lemma VerifyFrame(w: LiveWorld, e: AuditEvent, c: AuditCalls)
    requires e.id.Some? ==> e.id.value in w.audits
    ensures var r := VerifyAndEnqueue(w, e, c).0; r.audits == w.audits && r.clock == w.clock
  {
  }

  lemma ErrorKeeps(w: LiveWorld, a: Option<Action>, rule: string, s: Script)
    requires Inv(w)
    ensures var r := RecordError(w, a, rule, s).0;
            Inv(r) && Grown(w, r) && r.audits == w.audits && r.clock == w.clock
  {
    hide RecordAudit, Inv;
    if a.Some? && a.value.disposition.Some? {
      OwedEventNeverMismatches(w, AuditEvent(None, w.clock, ExecutionError, Failure, rule, a.value.disposition.value), 0, s.audit);
    } else {
      EnvKeeps(w, s.policy.before);
      var (w1, live) := LiveDisposition(w, s.policy);
      if live.Some? {
        OwedEventNeverMismatches(w1, AuditEvent(None, w1.clock, ExecutionError, Failure, rule, live.value), 0, s.audit);
      }
    }
  }

  // ---------------------------------------------------------------- stages

  lemma PendingAuditKeeps(w: LiveWorld, mem: Mem, s: Script)
    requires Inv(w) && Same(w, mem)
    ensures var r := PendingAudit(w, mem, s);
            Inv(r.w) && Grown(w, r.w) && (r.Go? ==> r == Go(w, mem) && !IsPending(mem.rec.action))
  {
    hide RecordAudit, Inv, PutRecord;
    StoredIsOk(w, mem);
    if IsPending(mem.rec.action) {
      var a := mem.rec.action.value;
      var event := EventOf(a);
      OwedEventNeverMismatches(w, event, mem.rv, s.audit);
      var (w1, reply) := RecordAudit(w, event, s.audit);
      if reply.Stored? {
        var mem1 := mem.(rec := mem.rec.(action := Some(a.(auditPhase := Recorded))));
        RecordedIsNext(w1, mem);
        SaveKeeps(w1, mem1, s.recorded);
      }
    }
  }

  lemma RecordedIsNext(w: LiveWorld, mem: Mem)
    requires Inv(w) && Same(w, mem) && IsPending(mem.rec.action) && Named(mem.rec.action.value)
    requires Witnessed(w.audits, mem.rec.action.value)
    ensures Next(w, mem.(rec := mem.rec.(action := Some(mem.rec.action.value.(auditPhase := Recorded)))))
  {
    StoredIsOk(w, mem);
  }

  lemma CompleteKeeps(w: LiveWorld, mem: Mem, d: Decision, s: Script)
    requires Inv(w) && Same(w, mem) && mem.rec.action.Some? && mem.rec.action.value.phase.InProgress?
    ensures Inv(Complete(w, mem, d, s)) && Grown(w, Complete(w, mem, d, s))
  {
    hide RecordError, PendingAudit, Inv, Appendable, PutRecord;
    var w1 := Tick(w, s.elapsed);
    TickKeeps(w, s.elapsed);
    var done := mem.rec.action.value.(phase := Applied, completedAt := Some(w1.clock), auditPhase := Pending);
    var mem1 := mem.(rec := mem.rec.(failures := 0, action := Some(done), view := ViewOf(d)));
    AcceptIsNext(w1, mem, done);
    PutKeeps(w1, mem1, s.outcome);
    var (w2, reply) := PutRecord(w1, mem1.rv, mem1.rec, s.outcome);
    if reply.Ok? {
      PendingAuditKeeps(w2, mem1.(rv := |w2.recs| - 1), s);
    } else if reply.Error? {
      ErrorKeeps(w2, Some(done), RuleName(d), s);
    }
  }

  /** From a durable intent, the accepted and the failed action are legal next versions. */
  lemma AcceptIsNext(w: LiveWorld, mem: Mem, next: Action)
    requires Inv(w) && Same(w, mem) && mem.rec.action.Some? && mem.rec.action.value.phase.InProgress?
    requires || next == mem.rec.action.value.(phase := Applied, completedAt := next.completedAt, auditPhase := Pending)
             || next == mem.rec.action.value.(phase := Failed, completedAt := None)
    requires next.phase.Applied? ==> next.completedAt.Some?
    ensures mem.rv == |w.recs| - 1 ==> Appendable(w, Some(next))
  {
    assert RecOk(w, w.recs[mem.rv].action);
  }

  lemma FailKeeps(w: LiveWorld, mem: Mem, stale: bool, s: Script)
    requires Inv(w) && Same(w, mem) && mem.rec.action.Some? && mem.rec.action.value.phase.InProgress?
    ensures Inv(Fail(w, mem, stale, s)) && Grown(w, Fail(w, mem, stale, s))
  {
    hide RecordError, Inv, Appendable, PutRecord;
    var failed := mem.rec.action.value.(phase := Failed, completedAt := None);
    var mem1 := mem.(rec := mem.rec.(failures := mem.rec.failures + 1, action := Some(failed),
                                     snapshot := if stale then None else mem.rec.snapshot));
    ErrorKeeps(w, Some(failed), "", s);
    var (w1, reply) := RecordError(w, Some(failed), "", s);
    assert Same(w1, mem);
    AcceptIsNext(w1, mem, failed);
    PutKeeps(w1, mem1, s.outcome);
  }

  lemma ExecKeeps(w: LiveWorld, snapshot: Snapshot, s: Script)
    requires Inv(w)
    ensures var r := PowerDown(w, snapshot, s.get, s.put).0; Inv(r) && Grown(w, r)
    ensures var r := Restore(w, snapshot, s.get, s.put).0; Inv(r) && Grown(w, r)
  {
    EnvKeeps(w, s.get.before);
    var w1 := Env(w, s.get.before);
    EnvKeeps(w1, s.put.before);
    var w2 := Env(w1, s.put.before);
    forall load: Workload, writer: Writer
      ensures Inv(w2.(hist := w2.hist + [Version(load, writer)]))
    {
      HistKeeps(w2, w2.hist + [Version(load, writer)]);
    }
  }

  lemma HistKeeps(w: LiveWorld, hist: seq<Version>)
    requires Inv(w) && |hist| > 0
    ensures Inv(w.(hist := hist))
  {
    hide ActionStep, SameOwedEvent, SameDisposition;
    var r: LiveWorld := w.(hist := hist);
    assert forall k :: 0 <= k < |r.recs| ==> (RecOk(w, w.recs[k].action) ==> RecOk(r, r.recs[k].action));
    assert forall q :: Unused(w, q) ==> Unused(r, q);
    assert forall q :: q in w.queue ==> (EventOk(w, q) ==> EventOk(r, q));
  }

  lemma ExecuteKeeps(w: LiveWorld, mem: Mem, d: Decision, s: Script)
    requires Inv(w) && Same(w, mem) && mem.rec.action.Some? && mem.rec.action.value.phase.InProgress?
    ensures Inv(Execute(w, mem, d, s)) && Grown(w, Execute(w, mem, d, s))
    ensures Inv(ExecuteRestore(w, mem, d, s)) && Grown(w, ExecuteRestore(w, mem, d, s))
  {
    hide Complete, Fail, PowerDown, Restore, Inv, Grown;
    if !mem.rec.SnapshotReady() {
      FailKeeps(w, mem, false, s);
    } else {
      var snapshot := mem.rec.snapshot.value;
      ExecKeeps(w, snapshot, s);
      EndKeeps(w, PowerDown(w, snapshot, s.get, s.put).0, mem, d, s);
      EndKeeps(w, Restore(w, snapshot, s.get, s.put).0, mem, d, s);
    }
  }

  lemma EndKeeps(w: LiveWorld, r: LiveWorld, mem: Mem, d: Decision, s: Script)
    requires Inv(r) && Grown(w, r) && Same(w, mem) && mem.rec.action.Some? && mem.rec.action.value.phase.InProgress?
    ensures Inv(Complete(r, mem, d, s)) && Grown(w, Complete(r, mem, d, s))
    ensures Inv(Fail(r, mem, true, s)) && Grown(w, Fail(r, mem, true, s))
    ensures Inv(Fail(r, mem, false, s)) && Grown(w, Fail(r, mem, false, s))
  {
    hide Complete, Fail, Inv, Grown;
    SameGrown(w, r, mem);
    CompleteKeeps(r, mem, d, s);
    GrownTransitive(w, r, Complete(r, mem, d, s));
    FailKeeps(r, mem, true, s);
    GrownTransitive(w, r, Fail(r, mem, true, s));
    FailKeeps(r, mem, false, s);
    GrownTransitive(w, r, Fail(r, mem, false, s));
  }

  lemma BeginKeeps(w: LiveWorld, mem: Mem, d: Decision, s: Script)
    requires Acts(d) && Inv(w) && Same(w, mem) && !IsPending(mem.rec.action)
    ensures var r := BeginAction(w, mem, d, s);
            && Inv(r.w) && Grown(w, r.w)
            && (r.Go? ==> Same(r.w, r.mem) && r.mem.rec.action.Some? && r.mem.rec.action.value.phase.InProgress?)
  {
    hide Inv, Appendable, PutRecord;
    var (w1, live) := LiveDisposition(w, s.policy);
    EnvKeeps(w, s.policy.before);
    if live.Some? {
      var w2 := Tick(w1, s.elapsed);
      TickKeeps(w1, s.elapsed);
      var key := KeyOf(d);
      var intent := Action(d.desired.value, key, InProgress, Some(w2.clock), None, mem.rec.retryToken,
                           Some(EventId(key, Some(w2.clock))), Unset, Some(ActionFor(d.desired.value)), RuleName(d), live);
      var mem1 := mem.(rec := mem.rec.(action := Some(intent)));
      IntentIsNext(w1, w2, mem, intent);
      SaveKeeps(w2, mem1, s.intent);
      var saved := Save(w2, mem1, s.intent);
      if saved.Go? {
        EnvKeeps(saved.w, s.verify.before);
      }
    }
  }

  lemma SaveKeeps(w: LiveWorld, mem: Mem, c: Call)
    requires Inv(w) && Next(w, mem)
    ensures var r := Save(w, mem, c);
            Inv(r.w) && Grown(w, r.w) && (r.Go? ==> Same(r.w, r.mem) && r.mem.rec == mem.rec)
  {
    hide Inv, Next;
    PutKeeps(w, mem, c);
  }

  lemma IntentIsNext(w: LiveWorld, r: LiveWorld, mem: Mem, intent: Action)
    requires Inv(w) && r.recs == w.recs && r.audits == w.audits && r.clock > w.clock
    requires Same(w, mem) && !IsPending(mem.rec.action)
    requires intent.phase.InProgress? && intent.auditPhase.Unset? && Named(intent)
    requires intent.auditId.value.attemptedAt == Some(r.clock)
    ensures Next(r, mem.(rec := mem.rec.(action := Some(intent))))
  {
    FreshIdentifier(w, r, intent.auditId.value);
  }

  lemma FreshIdentifier(w: LiveWorld, r: LiveWorld, id: EventId)
    requires Inv(w) && r.recs == w.recs && r.audits == w.audits && id.attemptedAt.Some? && id.attemptedAt.value > w.clock
    ensures Unused(r, id) && NewId(r, id)
  {
    forall i | 0 <= i < |r.recs|
      ensures !PendingFor(r.recs[i].action, id) && !Carries(r.recs[i].action, id)
    {
      assert RecOk(w, w.recs[i].action);
    }
  }

  lemma CaptureKeeps(w: LiveWorld, mem: Mem, s: Script)
    requires Inv(w) && Same(w, mem)
    ensures var r := CaptureSnapshot(w, mem, s);
            && Inv(r.w) && Grown(w, r.w)
            && (r.Go? ==> Same(r.w, r.mem) && r.mem.rec.action == mem.rec.action)
  {
    hide CaptureFailed, Inv, Next;
    if !mem.rec.SnapshotReady() {
      EnvKeeps(w, s.capture.before);
      var (w1, read) := ReadWorkload(w, s.capture);
      if read.Accepted? {
        var mem1 := mem.(rec := mem.rec.(snapshot := Some(SnapshotOf(w1.kind, w1.hist[s.capture.at].load, s.capture.at))));
        SameIsNext(w1, mem1);
        PutKeeps(w1, mem1, s.snapshot);
        CaptureFailedKeeps(PutRecord(w1, mem1.rv, mem1.rec, s.snapshot).0, mem1, s);
      } else {
        CaptureFailedKeeps(w1, mem, s);
      }
    }
  }

  lemma CaptureFailedKeeps(w: LiveWorld, mem: Mem, s: Script)
    requires Inv(w) && Same(w, mem)
    ensures Inv(CaptureFailed(w, mem, s)) && Grown(w, CaptureFailed(w, mem, s))
  {
    hide RecordError, Inv, Next;
    var mem1 := mem.(rec := mem.rec.(failures := mem.rec.failures + 1));
    SameIsNext(w, mem1);
    PutKeeps(w, mem1, s.captureFailed);
    ErrorKeeps(PutRecord(w, mem1.rv, mem1.rec, s.captureFailed).0, None, "", s);
  }

  lemma ExistingKeeps(w: LiveWorld, mem: Mem, d: Decision, s: Script)
    requires Acts(d) && Inv(w) && Same(w, mem) && !IsPending(mem.rec.action)
    ensures var r := ExistingAction(w, mem, d, s);
            && Inv(r.w) && Grown(w, r.w)
            && (r.Go? ==> r.w == w && Next(w, r.mem) && r.mem.rv == mem.rv
                          && (ObservedPower(w, mem.rec) != d.desired.value ==> r.mem.rec.action == mem.rec.action))
  {
    hide Inv, Next, PutRecord;
    StoredIsOk(w, mem);
    var observed := ObservedPower(w, mem.rec);
    var rec := AfterRestoredElsewhere(w, mem.rec, d);
    SameIsNext(w, mem);
    RestoredElsewhereIsNext(w, mem, d);
    if SameAttempt(rec, d) {
      var a := rec.action.value;
      if observed == d.desired.value && a.phase.InProgress? {
        var done := a.(phase := Applied, completedAt := Some(w.clock), auditPhase := Pending);
        AcceptIsNext(w, mem, done);
        ActionIsNext(w, mem, rec.(action := Some(done)));
        PutKeeps(w, mem.(rec := rec.(action := Some(done))), s.existing);
      } else if observed == d.desired.value && (a.phase.Applied? || a.phase.Contended?) && rec == mem.rec {
        ObservedIsNext(w, mem, a.(phase := Converged, completedAt := Some(w.clock)));
      } else if observed != d.desired.value && (a.phase.Applied? || a.phase.Converged?) {
        ObservedIsNext(w, mem, a.(phase := Contended, completedAt := None));
        PutKeeps(w, mem.(rec := rec.(action := Some(a.(phase := Contended, completedAt := None)))), s.existing);
      }
    }
  }

  lemma StoredIsOk(w: LiveWorld, mem: Mem)
    requires Inv(w) && Same(w, mem)
    ensures RecOk(w, mem.rec.action)
  {
  }

  lemma ActionIsNext(w: LiveWorld, mem: Mem, rec: Record)
    requires mem.rv < |w.recs| && (mem.rv == |w.recs| - 1 ==> Appendable(w, rec.action))
    ensures Next(w, mem.(rec := rec))
  {
  }

  /** The settled action may converge or be contended. */
  lemma ObservedIsNext(w: LiveWorld, mem: Mem, next: Action)
    requires Inv(w) && Same(w, mem) && mem.rec.action.Some? && !IsPending(mem.rec.action)
    requires var a := mem.rec.action.value;
             || ((a.phase.Applied? || a.phase.Contended?) && next == a.(phase := Converged, completedAt := next.completedAt))
             || ((a.phase.Applied? || a.phase.Converged?) && next == a.(phase := Contended, completedAt := None))
    ensures Next(w, mem.(rec := mem.rec.(action := Some(next))))
  {
    StoredIsOk(w, mem);
  }

  lemma RestoredElsewhereIsNext(w: LiveWorld, mem: Mem, d: Decision)
    requires Acts(d) && Inv(w) && Same(w, mem) && !IsPending(mem.rec.action)
    ensures Next(w, mem.(rec := AfterRestoredElsewhere(w, mem.rec, d)))
  {
    SameIsNext(w, mem);
  }

  lemma ActKeeps(w: LiveWorld, mem: Mem, was: Record, d: Decision, s: Script)
    requires Inv(w) && Same(w, mem) && !IsPending(mem.rec.action)
    ensures Inv(Act(w, mem, was, d, s)) && Grown(w, Act(w, mem, was, d, s))
  {
    hide ExistingAction, PowerDownPath, RestorePath, Inv, Next;
    SameIsNext(w, mem);
    if !Acts(d) {
      PutKeeps(w, mem, s.final);
    } else {
      ExistingKeeps(w, mem, d, s);
      var existing := ExistingAction(w, mem, d, s);
      var observed := ObservedPower(w, mem.rec);
      if existing.Go? {
        if d.desired.value.Off? && observed.On? {
          PowerDownPathKeeps(w, existing.mem, d, s);
        } else if d.desired.value.On? && observed.Off? {
          RestorePathKeeps(w, existing.mem, d, s);
        } else {
          PutKeeps(w, existing.mem, s.final);
        }
      }
    }
  }

  lemma RestorePathKeeps(w: LiveWorld, mem: Mem, d: Decision, s: Script)
    requires Acts(d) && Inv(w) && Same(w, mem) && !IsPending(mem.rec.action)
    ensures Inv(RestorePath(w, mem, d, s)) && Grown(w, RestorePath(w, mem, d, s))
  {
    hide BeginAction, ExecuteRestore, Inv;
    BeginKeeps(w, mem, d, s);
    var begun := BeginAction(w, mem, d, s);
    if begun.Go? {
      ExecuteKeeps(begun.w, begun.mem, d, s);
    }
  }

  lemma PowerDownPathKeeps(w: LiveWorld, mem: Mem, d: Decision, s: Script)
    requires Acts(d) && Inv(w) && Same(w, mem) && !IsPending(mem.rec.action)
    ensures Inv(PowerDownPath(w, mem, d, s)) && Grown(w, PowerDownPath(w, mem, d, s))
  {
    hide CaptureSnapshot, BeginAction, Execute, Inv, Next;
    CaptureKeeps(w, mem, s);
    var captured := CaptureSnapshot(w, mem, s);
    if captured.Go? {
      if !s.hpa.Admitted? {
        var blocked := captured.mem.(rec := captured.mem.rec.(
          view := captured.mem.rec.view.(blocked := true),
          failures := captured.mem.rec.failures + if s.hpa.Unverified? then 1 else 0));
        SameIsNext(captured.w, blocked);
        PutKeeps(captured.w, blocked, s.hpaWrite);
      } else {
        BeginKeeps(captured.w, captured.mem, d, s);
        var begun := BeginAction(captured.w, captured.mem, d, s);
        if begun.Go? {
          ExecuteKeeps(begun.w, begun.mem, d, s);
        }
      }
    }
  }

  lemma ProjectKeeps(w: LiveWorld, mem: Mem, d: Decision, s: Script)
    requires Inv(w) && Same(w, mem)
    ensures var r := ProjectDecision(w, mem, d, s);
            Inv(r.w) && Grown(w, r.w) && (r.Go? ==> Same(r.w, r.mem))
  {
    hide Inv;
    var relabelled := mem.(rec := mem.rec.(tag := LabelOf(d)));
    SameIsNext(w, relabelled);
    PutKeeps(w, relabelled, s.relabel);
  }

  /** Every pass keeps the invariant, whatever fails, dies or interferes. */
  lemma PassKeepsTrail(w: LiveWorld, d: Decision, readAt: nat, s: Script)
    requires Inv(w) && readAt < |w.recs|
    ensures Inv(Reconcile(w, d, readAt, s)) && Grown(w, Reconcile(w, d, readAt, s))
  {
    hide Act, PendingAudit, Inv, ProjectDecision;
    if w.uid != "" {
      var was := w.recs[readAt];
      var w0 := Tick(w, s.elapsed);
      TickKeeps(w, s.elapsed);
      ProjectKeeps(w0, Mem(was, readAt), d, s);
      var projected := ProjectDecision(w0, Mem(was, readAt), d, s);
      if projected.Go? {
        PendingAuditKeeps(projected.w, projected.mem, s);
        var audited := PendingAudit(projected.w, projected.mem, s);
        if audited.Go? {
          ActKeeps(audited.w, audited.mem, was, d, s);
        }
      }
    }
  }

  // ---------------------------------------------------------------- every run

  lemma {:induction false} RunKeepsTrail(w: LiveWorld, run: seq<Step>)
    requires Inv(w)
    ensures Inv(After(w, run)) && Grown(w, After(w, run))
    decreases |run|
  {
    if run != [] {
      match run[0] {
        case Pass(d, readAt, s) =>
          if readAt < |w.recs| {
            PassKeepsTrail(w, d, readAt, s);
          }
        case Others(steps) =>
          EnvKeeps(w, steps);
      }
      RunKeepsTrail(Take(w, run[0]), run[1..]);
    }
  }

  /** A version that owes an audit record is followed by a different action only once
      exactly that record exists. */
  lemma {:induction false} ReplacedOnlyAfterAudit(w: LiveWorld, i: nat, j: nat)
    requires Inv(w) && i <= j < |w.recs| && IsPending(w.recs[i].action)
    ensures w.recs[i].action.value.auditId.Some?
    ensures w.recs[j].action != w.recs[i].action ==> Witnessed(w.audits, w.recs[i].action.value)
    decreases j - i
  {
    assert RecOk(w, w.recs[i].action);
    if i < j {
      assert ActionStep(w.recs[i].action, w.recs[i + 1].action);
      if w.recs[i + 1].action == w.recs[i].action {
        ReplacedOnlyAfterAudit(w, i + 1, j);
      } else {
        assert RecOk(w, w.recs[i + 1].action);
      }
    }
  }

  /** No event of an action whose notifications were suppressed before the workload
      write, at whatever stage its version is, is ever handed to the notifier. */
  lemma SuppressedActionStaysSilent(w: LiveWorld, i: nat, e: AuditEvent)
    requires Inv(w) && i < |w.recs| && e in w.queue
    requires w.recs[i].action.Some? && w.recs[i].action.value.auditId.Some?
    requires w.recs[i].action.value.disposition.Some? && w.recs[i].action.value.disposition.value.suppressed
    ensures e.id != w.recs[i].action.value.auditId
  {
    assert RecOk(w, w.recs[i].action) && EventOk(w, e);
  }

  /** All of it in every world any run reaches. */
  lemma ReachableTrail(w: LiveWorld, run: seq<Step>, i: nat, j: nat, e: AuditEvent)
    requires Start(w)
    ensures var r := After(w, run);
            && (i <= j < |r.recs| && IsPending(r.recs[i].action) && r.recs[j].action != r.recs[i].action ==>
                  Witnessed(r.audits, r.recs[i].action.value))
            && (i < |r.recs| && e in r.queue && r.recs[i].action.Some? && e.id.Some? && e.id == r.recs[i].action.value.auditId ==>
                  !e.disposition.suppressed && r.recs[i].action.value.disposition == Some(e.disposition))
  {
    hide After;
    assert Inv(w);
    RunKeepsTrail(w, run);
    var r := After(w, run);
    if i <= j < |r.recs| && IsPending(r.recs[i].action) {
      ReplacedOnlyAfterAudit(r, i, j);
    }
    if i < |r.recs| && e in r.queue {
      assert RecOk(r, r.recs[i].action) && EventOk(r, e);
    }
  }

  /** A version that owes or has an audit record names what was done: powered down for "off",
      restored for "on". */
  lemma RecordNamesTheAction(w: LiveWorld, i: nat)
    requires Inv(w) && i < |w.recs| && w.recs[i].action.Some?
    requires w.recs[i].action.value.auditPhase.Pending? || w.recs[i].action.value.auditPhase.Recorded?
    ensures var a := w.recs[i].action.value;
            && (a.auditAction == Some(WorkloadPoweredDown) <==> a.desired == Off)
            && (a.auditAction == Some(WorkloadRestored) <==> a.desired == On)
            && (a.auditPhase.Recorded? ==> a.auditId.Some? && a.auditId.value in w.audits && Some(w.audits[a.auditId.value].action) == a.auditAction)
  {
    assert RecOk(w, w.recs[i].action);
  }

  // ---------------------------------------------------------------- an owed record delays a restore by one pass

  lemma SmoothRecord(w: LiveWorld, e: AuditEvent, i: nat, at: nat)
    requires Inv(w) && Owed(w, e, i) && e.id.Some?
    ensures var c := AuditCalls(Calls(at), Calls(at), Calls(at), true);
            var (r, reply) := RecordAudit(w, e, c);
            reply.Stored? && r.hist == w.hist && r.recs == w.recs && r.kind == w.kind && r.uid == w.uid
  {
    if e.id.value in w.audits {
      StoredIsOwed(w, e, i);
    }
  }

  lemma SmoothProject(w: LiveWorld, d: Decision, at: nat) returns (projected: Flow)
    requires Inv(w)
    ensures projected == ProjectDecision(Tick(w, 0), Mem(w.Rec(), |w.recs| - 1), d, Smooth(at)) && projected.Go?
    ensures Inv(projected.w) && Same(projected.w, projected.mem) && projected.mem.rv == |projected.w.recs| - 1
    ensures projected.w.hist == w.hist && projected.w.kind == w.kind && projected.w.uid == w.uid
    ensures projected.mem.rec.(tag := w.Rec().tag, view := w.Rec().view) == w.Rec()
  {
    hide Inv;
    TickKeeps(w, 0);
    ProjectKeeps(Tick(w, 0), Mem(w.Rec(), |w.recs| - 1), d, Smooth(at));
    projected := ProjectDecision(Tick(w, 0), Mem(w.Rec(), |w.recs| - 1), d, Smooth(at));
  }

  /** The undisturbed pass over a record that owes its audit stores it and leaves the rest. */
  lemma SmoothPendingPass(w: LiveWorld, d: Decision, at: nat) returns (r: LiveWorld)
    requires Inv(w) && w.uid != "" && IsPending(w.Rec().action)
    ensures r == PassNow(w, d, Smooth(at))
    ensures r.hist == w.hist && r.kind == w.kind && r.uid == w.uid
    ensures r.Rec().(tag := w.Rec().tag, view := w.Rec().view) == w.Rec().(action := Some(w.Rec().action.value.(auditPhase := Recorded)))
  {
    hide Inv, RecordAudit, Act, ProjectDecision, Env;
    var s := Smooth(at);
    var projected := SmoothProject(w, d, at);
    var a := projected.mem.rec.action.value;
    StoredIsOk(projected.w, projected.mem);
    SmoothRecord(projected.w, EventOf(a), projected.mem.rv, at);
    var w1 := RecordAudit(projected.w, EventOf(a), s.audit).0;
    var mem1 := projected.mem.(rec := projected.mem.rec.(action := Some(a.(auditPhase := Recorded))));
    SmoothSave(w1, mem1, at);
    r := Save(w1, mem1, s.recorded).w;
    hide Save;
    assert PendingAudit(projected.w, projected.mem, s) == Halt(r);
  }

  lemma SmoothSave(w: LiveWorld, mem: Mem, at: nat)
    requires mem.rv == |w.recs| - 1
    ensures var r := Save(w, mem, Calls(at)).w; r == w.(recs := w.recs + [mem.rec])
  {
  }

  /** At most two undisturbed passes after the decision to switch on, the workload has back
      exactly what was overwritten, whether or not an audit record was still owed. */
  lemma RestoredWithinTwoPasses(w: LiveWorld, d: Decision, k: nat)
    requires Inv(w) && SnapshotSafety.Inv(w) && OffAt(w, k) && w.uid != "" && w.Load().uid == w.uid && RestoreDue(w, w.Rec(), d)
    ensures var s := Smooth(|w.hist| - 1);
            var r := if IsPending(w.Rec().action) then PassNow(PassNow(w, d, s), d, s) else PassNow(w, d, s);
            && |r.hist| == |w.hist| + 1 && w.hist <= r.hist && r.hist[|w.hist|].writer.AuraOn?
            && r.Load().SameLevel(w.kind, Overwritten(w, k)) && r.Load().Running(w.kind)
  {
    hide Inv, Reconcile, SnapshotSafety.Inv, PassNow;
    if IsPending(w.Rec().action) {
      var r := SmoothPendingPass(w, d, |w.hist| - 1);
      StillDue(w, r, d);
      RestoreGivesBack(r, d, k);
    } else {
      RestoreGivesBack(w, d, k);
    }
  }

  lemma StillDue(w: LiveWorld, r: LiveWorld, d: Decision)
    requires SnapshotSafety.Inv(w) && RestoreDue(w, w.Rec(), d) && IsPending(w.Rec().action)
    requires r.hist == w.hist && r.kind == w.kind && r.uid == w.uid
    requires r.Rec().(tag := w.Rec().tag, view := w.Rec().view) == w.Rec().(action := Some(w.Rec().action.value.(auditPhase := Recorded)))
    ensures SnapshotSafety.Inv(r) && RestoreDue(r, r.Rec(), d) && !IsPending(r.Rec().action)
  {
    hide OffIn;
  }
}
