/** What an approval can promise.  A finalised change always agrees with its one audit
    record, whatever crashes, fails or interferes; with current reads it was in effect on
    the live resource when it was approved; and with no other writer besides, a change
    whose resource write committed can only move on to approved, exactly when no record of
    a rejection was left behind. */
module ApprovalSafety {
  import opened Domain
  import opened Faults
  import opened PendingRow
  import opened ApprovalSpec

  // ---------------------------------------------------------------- agreement, in every run

  /** Some version of the resource, `from` or later, had the change in effect. */
  ghost predicate HeldSince(w: LiveWorld, change: Change, from: nat) {
    exists i :: from <= i < |w.res| && Meets(change, w.res[i])
  }

  ghost predicate Agrees(w: LiveWorld, change: Change) {
    && (w.row.status.Approved? ==> w.audit == Some(Success) && HeldSince(w, change, 0))
    && (w.row.status.Rejected? ==> w.audit == Some(Blocked))
  }

  /** Nothing but more resource versions, and the audit record only if absent before. */
  predicate Grows(w: LiveWorld, r: LiveWorld) {
    w.res <= r.res && (w.audit.Some? ==> r.audit == w.audit)
  }

  lemma GrowsKeepsHeld(w: LiveWorld, r: LiveWorld, change: Change, from: nat)
    requires Grows(w, r) && HeldSince(w, change, from)
    ensures HeldSince(r, change, from)
  {
    var i :| from <= i < |w.res| && Meets(change, w.res[i]);
    assert r.res[i] == w.res[i];
  }

  lemma GetGrows(w: LiveWorld, c: Call, change: Change, from: nat)
    requires c.at >= from
    ensures var r := Get(w, c);
            && Grows(w, r.0) && r.0.row == w.row && r.0.audit == w.audit
            && (r.1.NotFound? && change.kind.Delete? ==> HeldSince(r.0, change, from))
            && (r.1.Found? && !change.kind.Delete? && r.1.spec == change.spec ==> HeldSince(r.0, change, from))
  {
    var (w1, got) := Get(w, c);
    if got.NotFound? || got.Found? {
      assert Meets(change, w1.res[c.at]) ==> HeldSince(w1, change, from);
    }
  }

  lemma PutGrows(w: LiveWorld, value: Option<string>, fits: bool, fate: Fate, change: Change, from: nat)
    requires Meets(change, value) && from <= |w.res|
    ensures var r := Put(w, value, fits, fate);
            && Grows(w, r.0) && r.0.row == w.row && r.0.audit == w.audit
            && (r.1.Ok? ==> HeldSince(r.0, change, from))
  {
    var r := Put(w, value, fits, fate).0;
    if fits && fate.Commits() {
      assert Meets(change, r.res[|r.res| - 1]);
    }
  }

  /** Reads that return version `from` or later find the change in effect only if it was
      since then. */
  lemma ApplyGrows(w: LiveWorld, change: Change, s: Script, from: nat)
    requires from <= |w.res| && s.read.at >= from && s.reread.at >= from
    ensures var r := Apply(w, change, s);
            && Grows(w, r.0) && r.0.row == w.row && r.0.audit == w.audit
            && (r.1.InEffect? ==> HeldSince(r.0, change, from))
  {
    hide Get, Put, HeldSince;
    if change.inNamespace && change.valid {
      GetGrows(w, s.read, change, from);
      var (w1, got) := Get(w, s.read);
      var w2 := Others(w1, s.write);
      match change.kind
      case Delete => WriteGrows(w1, change, w2.Live().Some? && |w2.res| - 1 == change.version, s, from);
      case Create => WriteGrows(w1, change, w2.Live().None?, s, from);
      case Update => WriteGrows(w1, change, got.Found? && |w2.res| - 1 == got.version, s, from);
    }
  }

  /** The write, and the read that follows an unclear reply. */
  lemma WriteGrows(w: LiveWorld, change: Change, fits: bool, s: Script, from: nat)
    requires from <= |w.res| && s.reread.at >= from
    ensures var value := if change.kind.Delete? then None else Some(change.spec);
            var (w1, reply) := Put(Others(w, s.write), value, fits, s.write.fate);
            var (w2, again) := Get(w1, s.reread);
            && Grows(w, w1) && w1.row == w.row && w1.audit == w.audit
            && (reply.Ok? ==> HeldSince(w1, change, from))
            && Grows(w, w2) && w2.row == w.row && w2.audit == w.audit
            && (again.NotFound? && change.kind.Delete? ==> HeldSince(w2, change, from))
            && (again.Found? && !change.kind.Delete? && again.spec == change.spec ==> HeldSince(w2, change, from))
  {
    hide Get, Put, HeldSince;
    var value := if change.kind.Delete? then None else Some(change.spec);
    PutGrows(Others(w, s.write), value, fits, s.write.fate, change, from);
    GetGrows(Put(Others(w, s.write), value, fits, s.write.fate).0, s.reread, change, from);
  }

  lemma RecordGrows(w: LiveWorld, outcome: Outcome, s: Script)
    ensures var r := RecordDecision(w, outcome, s);
            Grows(w, r.0) && r.0.row == w.row && (r.1.Ok? ==> r.0.audit == Some(outcome))
  {
  }

  /** Neither handler can take a finalised row, or a finalised row's record, away. */
  lemma StepAgrees(w: LiveWorld, change: Change, step: Step)
    requires Agrees(w, change)
    ensures Agrees(Take(w, change, step), change) && Grows(w, Take(w, change, step))
  {
    hide Apply, RecordDecision;
    match step
    case Approves(reviewer, s) =>
      if change.inNamespace && change.requester != reviewer {
        var (w1, begun) := PutRow(w, Begun(w.row, reviewer, Approve, s.now), CanBegin(w.row, Approve, s.now), s.begin);
        if HeldSince(w, change, 0) {
          GrowsKeepsHeld(w, w1, change, 0);
        }
        if begun.Ok? {
          var (w2, applied) := Apply(w1, change, s);
          ApplyGrows(w1, change, s, 0);
          if applied.InEffect? {
            var (w3, recorded) := RecordDecision(w2, Success, s);
            RecordGrows(w2, Success, s);
            GrowsKeepsHeld(w2, w3, change, 0);
            GrowsKeepsHeld(w3, Take(w, change, step), change, 0);
          }
        }
      }
    case Rejects(reviewer, s) =>
      if change.inNamespace {
        var (w1, begun) := PutRow(w, Begun(w.row, reviewer, Reject, s.now), CanBegin(w.row, Reject, s.now), s.begin);
        if HeldSince(w, change, 0) {
          GrowsKeepsHeld(w, w1, change, 0);
        }
        if begun.Ok? {
          RecordGrows(w1, Blocked, s);
        }
      }
  }

  /** In every run, with crashes, lost replies, stale or failing reads and other writers:
      approved means the record says success and the resource once had the change in effect;
      rejected means the record says blocked. */
  lemma {:induction false} FinalisedAgreesWithAudit(w: LiveWorld, change: Change, run: seq<Step>)
    requires Agrees(w, change)
    ensures Agrees(After(w, change, run), change) && Grows(w, After(w, change, run))
    decreases |run|
  {
    hide Take, Agrees;
    if run != [] {
      StepAgrees(w, change, run[0]);
      FinalisedAgreesWithAudit(Take(w, change, run[0]), change, run[1..]);
    }
  }

  // ---------------------------------------------------------------- in effect when applied

  /** An approval whose reads return version `from` or later is given only if the change
      was in effect since then. */
  lemma ApprovedWasHeld(w: LiveWorld, change: Change, reviewer: string, s: Script, from: nat)
    requires !w.row.status.Approved? && from <= |w.res| && s.read.at >= from && s.reread.at >= from
    ensures var r := HandleApprove(w, change, reviewer, s);
            Grows(w, r) && (r.row.status.Approved? ==> HeldSince(r, change, from))
  {
    hide Apply, RecordDecision, HeldSince;
    if change.inNamespace && change.requester != reviewer {
      var (w1, begun) := PutRow(w, Begun(w.row, reviewer, Approve, s.now), CanBegin(w.row, Approve, s.now), s.begin);
      if begun.Ok? {
        var (w2, applied) := Apply(w1, change, s);
        ApplyGrows(w1, change, s, from);
        if applied.InEffect? {
          var (w3, recorded) := RecordDecision(w2, Success, s);
          RecordGrows(w2, Success, s);
          GrowsKeepsHeld(w2, w3, change, from);
          GrowsKeepsHeld(w3, HandleApprove(w, change, reviewer, s), change, from);
        }
      }
    }
  }

  /** Both reads return the version that was live when the handler started, or a later one. */
  predicate CurrentReads(w: LiveWorld, s: Script) {
    s.read.at >= |w.res| - 1 && s.reread.at >= |w.res| - 1
  }

  predicate CurrentRun(w: LiveWorld, change: Change, run: seq<Step>)
    decreases |run|
  {
    run == [] || (CurrentReads(w, run[0].s) && CurrentRun(Take(w, change, run[0]), change, run[1..]))
  }

  /** Step `j` of the run approved the change, and while it ran the live resource had the
      change in effect. */
  ghost predicate AppliedAt(w: LiveWorld, change: Change, run: seq<Step>, j: nat) {
    && j < |run|
    && var v := After(w, change, run[..j]);
       var r := Take(v, change, run[j]);
       r.row.status.Approved? && HeldSince(r, change, |v.res| - 1)
  }

  lemma RejectNeverApproves(w: LiveWorld, change: Change, reviewer: string, s: Script)
    requires !w.row.status.Approved?
    ensures !HandleReject(w, change, reviewer, s).row.status.Approved?
  {
  }

  /** With current reads, and any other writers, an approved change was in effect on the
      live resource while the approving handler ran. */
  lemma {:induction false} ApprovedMeansApplied(w: LiveWorld, change: Change, run: seq<Step>)
    requires !w.row.status.Approved? && CurrentRun(w, change, run)
    ensures After(w, change, run).row.status.Approved? ==> exists j :: AppliedAt(w, change, run, j)
    decreases |run|
  {
    hide HandleApprove, HandleReject, HeldSince;
    if run != [] && After(w, change, run).row.status.Approved? {
      var w1 := Take(w, change, run[0]);
      if w1.row.status.Approved? {
        FirstStepApplied(w, change, run);
      } else {
        ApprovedMeansApplied(w1, change, run[1..]);
        var j :| AppliedAt(w1, change, run[1..], j);
        LaterStepApplied(w, change, run, j);
      }
    }
  }

  lemma FirstStepApplied(w: LiveWorld, change: Change, run: seq<Step>)
    requires run != [] && !w.row.status.Approved? && CurrentReads(w, run[0].s)
    requires Take(w, change, run[0]).row.status.Approved?
    ensures AppliedAt(w, change, run, 0)
  {
    hide HandleApprove, HandleReject;
    assert run[..0] == [];
    match run[0]
    case Approves(reviewer, s) => ApprovedWasHeld(w, change, reviewer, s, |w.res| - 1);
    case Rejects(reviewer, s) => RejectNeverApproves(w, change, reviewer, s);
  }

  lemma LaterStepApplied(w: LiveWorld, change: Change, run: seq<Step>, j: nat)
    requires run != [] && AppliedAt(Take(w, change, run[0]), change, run[1..], j)
    ensures AppliedAt(w, change, run, j + 1)
  {
    hide Take, HeldSince;
    assert run[..j + 1][0] == run[0] && run[..j + 1][1..] == run[1..][..j];
    assert run[1..][j] == run[j + 1];
  }

  /** A stale read of version `i`, which had the change in effect, approves the change and
      leaves the resource as it is. */
  lemma StaleReadApproves(w: LiveWorld, change: Change, reviewer: string, now: int, i: nat) returns (s: Script)
    requires Approvable(w, change, reviewer, now) && i < |w.res| && Meets(change, w.res[i])
    ensures s == Smooth(now, i)
    ensures var r := HandleApprove(w, change, reviewer, s); r.row.status.Approved? && r.res == w.res && r.writes == w.writes
  {
    s := Smooth(now, i);
    var (w1, begun) := PutRow(w, Begun(w.row, reviewer, Approve, now), CanBegin(w.row, Approve, now), s.begin);
    assert Others(w, s.begin) == w && begun.Ok?;
    assert Others(w1, s.read) == w1;
    assert Apply(w1, change, s) == (w1, InEffect);
    assert w.audit.None? || w.audit.value.Success?;
    assert Others(w1, s.audit) == w1;
    var (w3, recorded) := RecordDecision(w1, Success, s);
    assert w3.res == w.res && recorded.Ok?;
  }

  /** Nothing but the resource stands in the way of an approval by this reviewer. */
  predicate Approvable(w: LiveWorld, change: Change, reviewer: string, now: int) {
    && Sound(change) && reviewer != change.requester
    && CanBegin(w.row, Approve, now) && (w.row.status.Open? || w.row.reviewedBy.Some?)
    && w.audit != Some(Blocked)
  }

  /** Whatever happens to its calls, an approval whose reads return version `from` or later
      is given only while the change is in effect. */
  ghost predicate AppliesWhenApproved(w: LiveWorld, change: Change, reviewer: string, from: nat) {
    forall s: Script :: s.read.at >= from && s.reread.at >= from && HandleApprove(w, change, reviewer, s).row.status.Approved? ==>
      HeldSince(HandleApprove(w, change, reviewer, s), change, |w.res| - 1)
  }

  /** With a cache no older than version `from`, every approval is given only while the
      change is in effect exactly when it is in effect now, or was in no version the cache
      may still return. */
  lemma AppliesExactlyWhen(w: LiveWorld, change: Change, reviewer: string, now: int, from: nat)
    requires Approvable(w, change, reviewer, now) && from < |w.res|
    ensures AppliesWhenApproved(w, change, reviewer, from) <==>
              Meets(change, w.Live()) || forall i :: from <= i < |w.res| ==> !Meets(change, w.res[i])
  {
    hide HandleApprove;
    if Meets(change, w.Live()) || forall i :: from <= i < |w.res| ==> !Meets(change, w.res[i]) {
      forall s: Script | s.read.at >= from && s.reread.at >= from && HandleApprove(w, change, reviewer, s).row.status.Approved?
        ensures HeldSince(HandleApprove(w, change, reviewer, s), change, |w.res| - 1)
      {
        var r := HandleApprove(w, change, reviewer, s);
        ApprovedWasHeld(w, change, reviewer, s, from);
        var i :| from <= i < |r.res| && Meets(change, r.res[i]);
        if i < |w.res| {
          assert r.res[i] == w.res[i] && r.res[|w.res| - 1] == w.Live();
        }
      }
    } else {
      var i :| from <= i < |w.res| && Meets(change, w.res[i]);
      var s := StaleReadApproves(w, change, reviewer, now, i);
    }
  }

  /** The input: a delete, approved on a read from before the resource existed. */
  lemma StaleDeleteIsApproved()
    ensures var w: LiveWorld := World(CANCELLED, [None, Some("x")], None, 0);
            var change := Change(Delete, "", 1, "author", true, true, true);
            var r := HandleApprove(w, change, "reviewer", Smooth(0, 0));
            r.row.status.Approved? && r.audit == Some(Success) && r.writes == 0 && r.res == w.res && !HeldSince(r, change, 1)
  {
    var w: LiveWorld := World(CANCELLED, [None, Some("x")], None, 0);
    var change := Change(Delete, "", 1, "author", true, true, true);
    var s := StaleReadApproves(w, change, "reviewer", 0, 0);
    StepAgrees(w, change, Approves("reviewer", s));
  }

  // ---------------------------------------------------------------- committed changes, with clean reads

  /** The first read succeeds, reads are current, and nobody else writes the resource.  Every
      write, of the resource, the audit record or the row, may still be refused, lost or
      fatal, and so may the reads that follow an unclear reply. */
  predicate Clean(w: LiveWorld, s: Script) {
    && s.begin.before == s.read.before == s.write.before == s.reread.before == []
    && s.audit.before == s.auditRead.before == s.cancel.before == s.finalize.before == []
    && s.read.fate.Done? && s.read.at == |w.res| - 1
    && (s.write.fate.Lost? ==> s.reread.at == |w.res|) && (s.write.fate.Refused? ==> s.reread.at == |w.res| - 1)
  }

  /** The request passes the checks that do not depend on the world. */
  predicate Sound(change: Change) {
    change.inNamespace && change.valid && (change.kind.Delete? || change.decodes)
  }

  /** One write at most; once it is in, the change is in effect and on its way to approved. */
  predicate Committed(w: LiveWorld, change: Change) {
    && w.writes <= 1
    && (w.writes == 1 ==> Sound(change) && Meets(change, w.Live()) && (w.row.status.Approving? || w.row.status.Approved?))
  }

  /** What an attempt with clean reads leaves behind. */
  predicate CleanOutcome(w: LiveWorld, r: (LiveWorld, Applied), change: Change) {
    && r.0.row == w.row && r.0.audit == w.audit && r.0.writes <= 1
    && (r.0.writes == 1 ==> Sound(change) && Meets(change, r.0.Live()) && !r.1.NotApplied?)
    && (w.writes == 1 ==> r.0 == w)
  }

  lemma CleanDelete(w: LiveWorld, change: Change, got: Got, s: Script)
    requires Clean(w, s) && Committed(w, change) && change.kind.Delete? && Sound(change) && got == Get(w, s.read).1
    ensures CleanOutcome(w, ApplyDelete(w, change, got, s), change)
  {
  }

  lemma CleanCreate(w: LiveWorld, change: Change, got: Got, s: Script)
    requires Clean(w, s) && Committed(w, change) && change.kind.Create? && Sound(change) && got == Get(w, s.read).1
    ensures CleanOutcome(w, ApplyCreate(w, change, got, s), change)
  {
  }

  lemma CleanUpdate(w: LiveWorld, change: Change, got: Got, s: Script)
    requires Clean(w, s) && Committed(w, change) && change.kind.Update? && Sound(change) && got == Get(w, s.read).1
    ensures CleanOutcome(w, ApplyUpdate(w, change, got, s), change)
  {
  }

  lemma CleanApply(w: LiveWorld, change: Change, s: Script)
    requires Clean(w, s) && Committed(w, change)
    ensures CleanOutcome(w, Apply(w, change, s), change)
  {
    hide ApplyDelete, ApplyCreate, ApplyUpdate;
    assert Others(w, s.read) == w;
    var got := Get(w, s.read).1;
    if Sound(change) {
      match change.kind
      case Delete => CleanDelete(w, change, got, s);
      case Create => CleanCreate(w, change, got, s);
      case Update => CleanUpdate(w, change, got, s);
    }
  }

  lemma CleanStep(w: LiveWorld, change: Change, step: Step)
    requires Committed(w, change) && Clean(w, step.s)
    ensures var r := Take(w, change, step);
            Committed(r, change) && w.writes <= r.writes
  {
    hide Apply;
    match step
    case Approves(reviewer, s) =>
      var (w1, begun) := PutRow(w, Begun(w.row, reviewer, Approve, s.now), CanBegin(w.row, Approve, s.now), s.begin);
      if begun.Ok? {
        assert w1.res == w.res && Clean(w1, s) && Committed(w1, change);
        CleanApply(w1, change, s);
      }
    case Rejects(reviewer, s) =>
  }

  /** Clean reads at every step of the run. */
  predicate CleanRun(w: LiveWorld, change: Change, run: seq<Step>)
    decreases |run|
  {
    run == [] || (Clean(w, run[0].s) && CleanRun(Take(w, change, run[0]), change, run[1..]))
  }

  /** A change whose resource write committed is never cancelled back to pending or
      rejected, and the resource is written at most once in the whole run. */
  lemma {:induction false} CommittedNeverUndone(w: LiveWorld, change: Change, run: seq<Step>)
    requires Committed(w, change) && CleanRun(w, change, run)
    ensures Committed(After(w, change, run), change) && w.writes <= After(w, change, run).writes
    decreases |run|
  {
    hide Take, Committed;
    if run != [] {
      CleanStep(w, change, run[0]);
      CommittedNeverUndone(Take(w, change, run[0]), change, run[1..]);
    }
  }

  // ---------------------------------------------------------------- when the replay succeeds

  function Calls(at: nat): Call {
    Call([], Done, at)
  }

  function Smooth(now: int, at: nat): Script {
    var c := Calls(at);
    Script(now, c, c, c, c, c, c, c, c)
  }

  /** Any other reviewer's undisturbed retry after the lease takes a committed change to
      approved without another resource write, exactly when the audit record does not
      already report a rejection. */
  lemma ReplayApprovesExactlyWhenNotBlocked(w: LiveWorld, change: Change, reviewer: string, now: int)
    requires Committed(w, change) && w.writes == 1
    requires w.row.status.Approving? && w.row.reviewedBy.Some?
    requires w.row.reviewedAt.Some? && w.row.reviewedAt.value < now - LEASE && reviewer != change.requester
    ensures var r := HandleApprove(w, change, reviewer, Smooth(now, |w.res| - 1));
            && r.writes == 1 && r.row.reviewedBy == w.row.reviewedBy
            && (r.row.status.Approved? <==> w.audit != Some(Blocked))
  {
    hide Apply;
    var s := Smooth(now, |w.res| - 1);
    var (w1, begun) := PutRow(w, Begun(w.row, reviewer, Approve, now), CanBegin(w.row, Approve, now), s.begin);
    assert Others(w, s.begin) == w;
    assert begun.Ok? && w1.row == Row(Approving, w.row.reviewedBy, Some(now)) && w1.audit == w.audit;
    CommittedIsInEffect(w1, change, s);
    var (w3, recorded) := RecordDecision(w1, Success, s);
    assert w.audit.None? || w.audit.value.Success? || w.audit.value.Blocked?;
    assert recorded.Ok? <==> w.audit != Some(Blocked);
    assert CanFinalize(w3.row, Owner(w1.row, reviewer), Approve);
  }

  lemma CommittedIsInEffect(w: LiveWorld, change: Change, s: Script)
    requires w.writes == 1 && Meets(change, w.Live()) && Sound(change)
    requires s.read == Calls(|w.res| - 1)
    ensures Apply(w, change, s) == (w, InEffect)
  {
    assert Others(w, s.read) == w;
  }

  /** Once the record reports a rejection no run approves the change any more. */
  lemma BlockedRecordNeverApproves(w: LiveWorld, change: Change, run: seq<Step>)
    requires Agrees(w, change) && w.audit == Some(Blocked)
    ensures !After(w, change, run).row.status.Approved?
  {
    FinalisedAgreesWithAudit(w, change, run);
  }

  const SAMPLE := Change(Update, "new", 0, "author", true, true, true)

  function SampleStart(): LiveWorld {
    World(CANCELLED, [Some("old")], None, 0)
  }

  /** A rejection whose audit write commits but is reported as failed is cancelled; the
      approval that follows writes the resource and then finds the rejection's record. */
  function StrandingRun(): seq<Step> {
    var lost := Smooth(0, 0).(audit := Call([], Lost, 0));
    [Rejects("first", lost), Approves("second", Smooth(1, 0))]
  }

  /** So the record of a rejection can meet a committed write: reads are clean throughout,
      the resource is written, and the change stays short of approved for good. */
  lemma CommittedChangeCanBeStranded(run: seq<Step>)
    ensures CleanRun(SampleStart(), SAMPLE, StrandingRun()) && Sound(SAMPLE)
    ensures var w := After(SampleStart(), SAMPLE, StrandingRun());
            && w.writes == 1 && w.row.status.Approving? && w.audit == Some(Blocked)
            && !After(w, SAMPLE, run).row.status.Approved?
  {
    var run0 := StrandingRun();
    var w0 := SampleStart();
    assert Others(w0, Calls(0)) == w0;
    var w1 := Take(w0, SAMPLE, run0[0]);
    assert w1 == World(CANCELLED, [Some("old")], Some(Blocked), 0);
    var w2 := Take(w1, SAMPLE, run0[1]);
    assert w2.writes == 1 && w2.row.status.Approving? && w2.audit == Some(Blocked);
    assert run0[1..][1..] == [] && run0[1..][0] == run0[1];
    assert After(w2, SAMPLE, []) == w2;
    assert After(w1, SAMPLE, run0[1..]) == w2;
    BlockedRecordNeverApproves(w2, SAMPLE, run);
  }

  // ---------------------------------------------------------------- undisturbed decisions do their work

  /** The live resource is the one the change was requested against. */
  predicate Expected(w: LiveWorld, change: Change) {
    match change.kind
    case Create => w.Live().None?
    case Update => w.Live().Some? && |w.res| - 1 == change.version
    case Delete => w.Live().Some? && |w.res| - 1 == change.version
  }

  /** An undisturbed application of a change not yet in effect adds the one version that puts
      it in effect, exactly when the live resource is the expected one. */
  lemma UndisturbedApply(w: LiveWorld, change: Change, now: int)
    requires Sound(change) && !Meets(change, w.Live())
    ensures var (r, applied) := Apply(w, change, Smooth(now, |w.res| - 1));
            && r.row == w.row && r.audit == w.audit
            && if Expected(w, change) then
                 && applied.InEffect? && |r.res| == |w.res| + 1 && w.res <= r.res && r.writes == w.writes + 1
                 && Meets(change, r.Live())
               else applied.NotApplied? && r == w
  {
    var s := Smooth(now, |w.res| - 1);
    assert Others(w, s.read) == w && Others(w, s.write) == w;
  }

  /** Who the row names once this reviewer's decision has begun. */
  function Decider(row: Row, reviewer: string): Option<string> {
    if row.status.Open? then Some(reviewer) else row.reviewedBy
  }

  lemma UndisturbedBegin(w: LiveWorld, reviewer: string, verdict: Verdict, now: int, at: nat)
    requires CanBegin(w.row, verdict, now)
    ensures PutRow(w, Begun(w.row, reviewer, verdict, now), CanBegin(w.row, verdict, now), Calls(at))
            == (w.(row := Row(if verdict.Approve? then Approving else Rejecting, Decider(w.row, reviewer), Some(now))), Ok)
  {
    assert Others(w, Calls(at)) == w;
  }

  lemma UndisturbedRecord(w: LiveWorld, outcome: Outcome, now: int, at: nat)
    ensures var (r, reply) := RecordDecision(w, outcome, Smooth(now, at));
            if w.audit.None? || w.audit == Some(outcome) then r == w.(audit := Some(outcome)) && reply.Ok?
            else r == w && reply.Error?
  {
    var s := Smooth(now, at);
    assert Others(w, s.audit) == w && Others(w, s.auditRead) == w;
  }

  lemma UndisturbedRow(w: LiveWorld, row: Row, fits: bool, at: nat)
    ensures PutRow(w, row, fits, Calls(at)).0 == if fits then w.(row := row) else w
  {
    assert Others(w, Calls(at)) == w;
  }

  /** From a world where nothing but the resource stands in the way, an undisturbed approval
      of a change that is not yet in effect writes it once, approves it in the reviewer's (or
      the lease holder's) name and records success, exactly when the live resource is the
      one the change expects; otherwise the change goes back to pending and nothing is
      written. */
  lemma ApprovalDoesItsWork(w: LiveWorld, change: Change, reviewer: string, now: int)
    requires Approvable(w, change, reviewer, now) && !Meets(change, w.Live())
    ensures var r := HandleApprove(w, change, reviewer, Smooth(now, |w.res| - 1));
            if Expected(w, change) then
              && |r.res| == |w.res| + 1 && w.res <= r.res && Meets(change, r.Live()) && r.writes == w.writes + 1
              && r.row == Row(Approved, Decider(w.row, reviewer), Some(now)) && r.audit == Some(Success)
            else r.res == w.res && r.writes == w.writes && r.audit == w.audit && r.row == Row(Open, None, None)
  {
    hide Apply, RecordDecision, PutRow;
    var at := |w.res| - 1;
    var s := Smooth(now, at);
    UndisturbedBegin(w, reviewer, Approve, now, at);
    var w1: LiveWorld := w.(row := Row(Approving, Decider(w.row, reviewer), Some(now)));
    UndisturbedApply(w1, change, now);
    var (w2, applied) := Apply(w1, change, s);
    UndisturbedRow(w2, CANCELLED, CanCancel(w2.row, Owner(w1.row, reviewer)), at);
    if applied.InEffect? {
      assert w.audit.None? || w.audit.value.Success?;
      UndisturbedRecord(w2, Success, now, at);
      var w3 := RecordDecision(w2, Success, s).0;
      UndisturbedRow(w3, Finalized(w3.row, Approve, now), CanFinalize(w3.row, Owner(w1.row, reviewer), Approve), at);
    }
  }

  /** An undisturbed rejection ends rejected with a blocked record and leaves the resource
      alone, exactly when no record of success exists; otherwise the change goes back to
      pending. */
  lemma RejectionDoesItsWork(w: LiveWorld, change: Change, reviewer: string, now: int, at: nat)
    requires change.inNamespace && CanBegin(w.row, Reject, now) && (w.row.status.Open? || w.row.reviewedBy.Some?)
    ensures var r := HandleReject(w, change, reviewer, Smooth(now, at));
            && r.res == w.res && r.writes == w.writes
            && if w.audit != Some(Success)
               then r.row == Row(Rejected, Decider(w.row, reviewer), Some(now)) && r.audit == Some(Blocked)
               else r.row == Row(Open, None, None) && r.audit == Some(Success)
  {
    hide RecordDecision, PutRow;
    var s := Smooth(now, at);
    UndisturbedBegin(w, reviewer, Reject, now, at);
    var w1: LiveWorld := w.(row := Row(Rejecting, Decider(w.row, reviewer), Some(now)));
    UndisturbedRecord(w1, Blocked, now, at);
    var w2 := RecordDecision(w1, Blocked, s).0;
    UndisturbedRow(w2, CANCELLED, CanCancel(w2.row, Owner(w1.row, reviewer)), at);
    UndisturbedRow(w2, Finalized(w2.row, Reject, now), CanFinalize(w2.row, Owner(w1.row, reviewer), Reject), at);
    assert w.audit.None? || w.audit.value.Success? || w.audit.value.Blocked?;
  }

  /** Whatever happens to the calls, nobody approves a change of their own, and changes outside
      the namespace are not touched. */
  lemma NobodyApprovesTheirOwn(w: LiveWorld, change: Change, reviewer: string, s: Script)
    ensures change.requester == reviewer || !change.inNamespace ==> HandleApprove(w, change, reviewer, s) == w
    ensures !change.inNamespace ==> HandleReject(w, change, reviewer, s) == w
  {
  }

  /** A request that fails its checks is never applied, whatever happens to the calls, and an
      undisturbed approval puts it back to pending. */
  lemma UnsoundIsNotApplied(w: LiveWorld, change: Change, reviewer: string, s: Script, now: int)
    requires !Sound(change)
    ensures HandleApprove(w, change, reviewer, s).writes == w.writes
    ensures change.inNamespace && change.requester != reviewer && CanBegin(w.row, Approve, now) && (w.row.status.Open? || w.row.reviewedBy.Some?) ==>
              HandleApprove(w, change, reviewer, Smooth(now, |w.res| - 1)) == w.(row := Row(Open, None, None))
  {
    hide ApplyDelete, ApplyCreate, ApplyUpdate, RecordDecision;
    RecordKeepsWrites(s, w);
    if CanBegin(w.row, Approve, now) {
      var at := |w.res| - 1;
      UndisturbedBegin(w, reviewer, Approve, now, at);
      var w1: LiveWorld := w.(row := Row(Approving, Decider(w.row, reviewer), Some(now)));
      assert Others(w1, Smooth(now, at).read) == w1;
      UndisturbedRow(w1, CANCELLED, CanCancel(w1.row, Owner(w1.row, reviewer)), at);
    }
  }

  lemma RecordKeepsWrites(s: Script, w: LiveWorld)
    ensures forall v: LiveWorld, outcome: Outcome :: RecordDecision(v, outcome, s).0.writes == v.writes
  {
  }
}
