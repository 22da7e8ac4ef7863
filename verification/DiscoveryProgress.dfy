/** Undisturbed, discovery does its work: every managed workload it lists has a record that
    shows it as it is, records of earlier releases move under the new name, exempt workloads
    are switched on again and let go. */
module DiscoveryProgress {
  import opened Domain
  import opened Faults
  import opened DiscoverySpec
  import opened DiscoverySafety

  /** The record is bound to the workload and shows it as listed. */
  predicate Shows(t: PowerTarget, wl: Listed) {
    && t.ref.uid == wl.ref.uid && t.ref.kind == wl.ref.kind
    && t.status.seen == wl.seen && t.status.facts == wl.facts
    && t.status.power == Some(if wl.IsOff() then Off else On)
  }

  /** The same records, but for the one under this name. */
  predicate OnlyChanges(h: Hub, r: Hub, n: Name) {
    n in r.targets && r.targets == h.targets[n := r.targets[n]] && r.restores == h.restores
  }

  predicate Managed(system: seq<string>, wl: Listed) {
    wl.ref.namespace !in system && !wl.exempt
  }

  // ---------------------------------------------------------------- one turn

  /** A workload without a record gets one: bound to it, showing it, and empty otherwise. */
  lemma NewWorkloadIsRecorded(system: seq<string>, h: Hub, wl: Listed)
    requires Managed(system, wl) && Bound(wl.ref) !in h.targets && !LegacyPresent(h, wl.ref)
    ensures var (r, outcome) := EnsurePowerTarget(system, h, wl, ALL_DONE);
            && outcome == Created && OnlyChanges(h, r, Bound(wl.ref))
            && var t := r.targets[Bound(wl.ref)];
               Shows(t, wl) && t.ref == wl.ref && t.status.snapshot == None && t.status.execution == ""
  {
    var h1 := CreateTarget(h, Bound(wl.ref), PowerTarget(wl.ref, EMPTY), Done).0;
    var h2 := WriteStatus(h1, Bound(wl.ref), Refreshed(EMPTY, wl), Done).0;
    assert NewPowerTarget(h, wl, None, ALL_DONE) == (h2, Ok);
  }

  /** A record of the workload is brought up to date and keeps its snapshot and execution
      state. */
  lemma RecordIsRefreshed(system: seq<string>, h: Hub, wl: Listed)
    requires Managed(system, wl) && Bound(wl.ref) in h.targets
    requires h.targets[Bound(wl.ref)].ref.uid == wl.ref.uid && h.targets[Bound(wl.ref)].ref.kind == wl.ref.kind
    requires h.targets[Bound(wl.ref)].status.power.Some? || !LegacyPresent(h, wl.ref)
    ensures var (r, outcome) := EnsurePowerTarget(system, h, wl, ALL_DONE);
            && outcome == Kept && OnlyChanges(h, r, Bound(wl.ref))
            && var t, t' := h.targets[Bound(wl.ref)], r.targets[Bound(wl.ref)];
               Shows(t', wl) && t'.ref == t.ref && t'.status.snapshot == t.status.snapshot && t'.status.execution == t.status.execution
  {
    var st := h.targets[Bound(wl.ref)].status;
    if Refreshed(st, wl) == st {
      assert h.targets == h.targets[Bound(wl.ref) := h.targets[Bound(wl.ref)]];
    }
  }

  /** A record of another identity is emptied and bound to this one. */
  lemma RecreatedIsRebound(system: seq<string>, h: Hub, wl: Listed)
    requires Managed(system, wl) && Bound(wl.ref) in h.targets
    requires h.targets[Bound(wl.ref)].ref.uid != wl.ref.uid || h.targets[Bound(wl.ref)].ref.kind != wl.ref.kind
    requires h.targets[Bound(wl.ref)].status.power.Some? || !LegacyPresent(h, wl.ref)
    ensures var (r, outcome) := EnsurePowerTarget(system, h, wl, ALL_DONE);
            && outcome == Kept && OnlyChanges(h, r, Bound(wl.ref))
            && var t := r.targets[Bound(wl.ref)];
               Shows(t, wl) && t.ref == wl.ref && t.status.snapshot == None && t.status.execution == ""
  {
    var h1 := WriteStatus(h, Bound(wl.ref), EMPTY, Done).0;
    var h2 := WriteRef(h1, Bound(wl.ref), wl.ref, Done).0;
    var h3 := WriteStatus(h2, Bound(wl.ref), Refreshed(EMPTY, wl), Done).0;
    assert EnsurePowerTarget(system, h, wl, ALL_DONE) == (h3, Kept);
  }

  /** A legacy record, unless refused as ambiguous, is replaced: the new record shows the
      workload and carries the old snapshot and execution state exactly when the old record
      has the workload's UID, or proves without one that it was switched off. */
  lemma LegacyIsReplaced(system: seq<string>, h: Hub, wl: Listed)
    requires Managed(system, wl) && LegacyPresent(h, wl.ref) && !Ambiguous(h.targets[LegacyName(wl.ref)], wl)
    requires Bound(wl.ref) in h.targets ==> h.targets[Bound(wl.ref)] == PowerTarget(wl.ref, EMPTY)
    ensures var r := EnsurePowerTarget(system, h, wl, ALL_DONE).0;
            && Bound(wl.ref) in r.targets && LegacyName(wl.ref) !in r.targets && r.restores == h.restores
            && var t, old' := r.targets[Bound(wl.ref)], h.targets[LegacyName(wl.ref)];
               && Shows(t, wl) && t.ref == wl.ref
               && if (old'.ref.uid != "" && old'.ref.uid == wl.ref.uid) || (old'.ref.uid == "" && wl.IsOff() && Evidence(old', wl.ref.kind))
                  then t.status.snapshot == old'.status.snapshot && t.status.execution == old'.status.execution
                  else t.status.snapshot == None && t.status.execution == ""
  {
    var legacy := h.targets[LegacyName(wl.ref)];
    var previous := Inherited(legacy, wl);
    var st := if previous.Some? then previous.value else EMPTY;
    if Bound(wl.ref) in h.targets {
      var h1 := WriteStatus(h, Bound(wl.ref), Refreshed(st, wl), Done).0;
      assert EnsurePowerTarget(system, h, wl, ALL_DONE).0 == DeleteTarget(h1, LegacyName(wl.ref), Done).0;
    } else {
      var h1 := CreateTarget(h, Bound(wl.ref), PowerTarget(wl.ref, EMPTY), Done).0;
      var h2 := WriteStatus(h1, Bound(wl.ref), Refreshed(st, wl), Done).0;
      assert NewPowerTarget(h, wl, previous, ALL_DONE) == (h2, Ok);
      assert EnsurePowerTarget(system, h, wl, ALL_DONE).0 == DeleteTarget(h2, LegacyName(wl.ref), Done).0;
    }
  }

  /** What counts as evidence that an earlier release switched a workload off: an available
      snapshot with a capture time on a record last seen off, that holds a suspend flag for a
      CronJob and a positive replica count for the others. */
  predicate Evidence(t: PowerTarget, kind: Kind) {
    && t.status.power == Some(Off) && t.status.snapshot.Some?
    && t.status.snapshot.value.available && t.status.snapshot.value.captured
    && match kind
       case CronJob => t.status.snapshot.value.suspended.Some?
       case Deployment => t.status.snapshot.value.replicas.Some? && t.status.snapshot.value.replicas.value > 0
       case StatefulSet => t.status.snapshot.value.replicas.Some? && t.status.snapshot.value.replicas.value > 0
  }

  /** Whichever calls fail: while a workload is down, a legacy record whose snapshot is neither
      its own by UID nor, without one, evidence about it, is left alone together with the rest
      of the store. */
  lemma UnprovenIsLeftAlone(system: seq<string>, h: Hub, wl: Listed, s: Ensure)
    requires wl.IsOff() && !wl.exempt && LegacyPresent(h, wl.ref) && h.targets[LegacyName(wl.ref)].status.snapshot.Some?
    requires Bound(wl.ref) in h.targets ==> h.targets[Bound(wl.ref)].status.power.None?
    requires var t := h.targets[LegacyName(wl.ref)]; if t.ref.uid == "" then !Evidence(t, wl.ref.kind) else t.ref.uid != wl.ref.uid
    ensures EnsurePowerTarget(system, h, wl, s).0 == h
  {
    assert Ambiguous(h.targets[LegacyName(wl.ref)], wl);
  }

  /** An exempt workload that is down is restored from its record's snapshot and keeps the
      record; one that runs loses the record. */
  lemma ExemptIsRestoredThenReleased(system: seq<string>, h: Hub, wl: Listed)
    requires wl.ref.namespace !in system && wl.exempt && wl.ref.uid != "" && Bound(wl.ref) in h.targets
    requires WellBound(wl.ref, h.targets[Bound(wl.ref)]) && h.targets[Bound(wl.ref)].status.power.Some?
    ensures var r, t := EnsurePowerTarget(system, h, wl, ALL_DONE).0, h.targets[Bound(wl.ref)];
            if wl.IsOff() && t.status.HasSnapshot() then
              r.targets == h.targets &&
              (Restorable(wl.ref.kind, t.status.snapshot.value) ==> r.restores == h.restores + [Restore(wl.ref, t.status.snapshot.value)])
            else r.targets == h.targets - {Bound(wl.ref)} && r.restores == h.restores
  {
  }

  /** The same for a legacy record: evidence that the workload was switched off restores it. */
  lemma ExemptLegacyIsRestoredThenReleased(system: seq<string>, h: Hub, wl: Listed)
    requires wl.ref.namespace !in system && wl.exempt && Bound(wl.ref) !in h.targets && LegacyPresent(h, wl.ref)
    requires h.targets[LegacyName(wl.ref)].ref.uid == "" || h.targets[LegacyName(wl.ref)].ref.uid == wl.ref.uid
    ensures var r, t := EnsurePowerTarget(system, h, wl, ALL_DONE).0, h.targets[LegacyName(wl.ref)];
            && (!wl.IsOff() ==> r.targets == h.targets - {LegacyName(wl.ref)} && r.restores == h.restores)
            && (wl.IsOff() ==> r.targets == h.targets)
            && (wl.IsOff() ==> r.restores == h.restores + if Evidence(t, wl.ref.kind) then [Restore(wl.ref, t.status.snapshot.value)] else [])
  {
  }

  // ---------------------------------------------------------------- a whole cycle

  /** Discovery declines to decide whose snapshot an old record holds. */
  predicate Refused(h: Hub, wl: Listed) {
    && LegacyPresent(h, wl.ref) && Ambiguous(h.targets[LegacyName(wl.ref)], wl)
    && !(Bound(wl.ref) in h.targets && h.targets[Bound(wl.ref)].status.power.Some?)
  }

  predicate Shown(h: Hub, wl: Listed) {
    Bound(wl.ref) in h.targets && Shows(h.targets[Bound(wl.ref)], wl)
  }

  lemma UndisturbedTurnShows(system: seq<string>, h: Hub, wl: Listed)
    requires Wf(h) && Managed(system, wl) && !Refused(h, wl)
    ensures Shown(EnsurePowerTarget(system, h, wl, ALL_DONE).0, wl)
  {
    hide EnsurePowerTarget, Ambiguous, Shows;
    if Bound(wl.ref) in h.targets && (h.targets[Bound(wl.ref)].status.power.Some? || !LegacyPresent(h, wl.ref)) {
      RecordIsRefreshed(system, h, wl);
    } else if LegacyPresent(h, wl.ref) {
      UnobservedIsReplaced(system, h, wl);
    } else {
      NewWorkloadIsRecorded(system, h, wl);
    }
  }

  lemma UnobservedIsReplaced(system: seq<string>, h: Hub, wl: Listed)
    requires Wf(h) && Managed(system, wl) && LegacyPresent(h, wl.ref) && !Ambiguous(h.targets[LegacyName(wl.ref)], wl)
    requires Bound(wl.ref) in h.targets ==> h.targets[Bound(wl.ref)].status.power.None?
    ensures Shown(EnsurePowerTarget(system, h, wl, ALL_DONE).0, wl)
  {
    if Bound(wl.ref) in h.targets {
      var existing := h.targets[Bound(wl.ref)];
      assert WellBound(wl.ref, existing);
      var previous := Inherited(h.targets[LegacyName(wl.ref)], wl);
      var held := if previous.Some? then previous.value.(power := None) else existing.status;
      var h1 := WriteStatus(h, Bound(wl.ref), Refreshed(held, wl), Done).0;
      assert UpdateObservedState(h, held, wl, Done) == (h1, Ok);
      assert EnsurePowerTarget(system, h, wl, ALL_DONE).0 == DeleteTarget(h1, LegacyName(wl.ref), Done).0;
    } else {
      LegacyIsReplaced(system, h, wl);
    }
  }

  lemma UndisturbedTurnSurvives(system: seq<string>, h: Hub, wl: Listed)
    ensures !EnsurePowerTarget(system, h, wl, ALL_DONE).1.Died?
  {
    var previous := if LegacyPresent(h, wl.ref) then Inherited(h.targets[LegacyName(wl.ref)], wl) else None;
    var h1 := CreateTarget(h, Bound(wl.ref), PowerTarget(wl.ref, EMPTY), Done).0;
    assert !WriteNewStatus(h1, wl, previous, ALL_DONE.tries, MAX_STATUS_TRIES, true).1.Dead?;
    assert !NewPowerTarget(h, wl, previous, ALL_DONE).1.Dead?;
    assert !NewPowerTarget(h, wl, None, ALL_DONE).1.Dead? by {
      assert !WriteNewStatus(h1, wl, None, ALL_DONE.tries, MAX_STATUS_TRIES, true).1.Dead?;
    }
  }

  /** Turns of others leave it so. */
  lemma OthersLeaveShown(h: Hub, r: Hub, other: Listed, wl: Listed)
    requires GoodTurn(h, r, other) && other.ref != wl.ref && !Twins(other.ref, wl.ref)
    ensures Shown(h, wl) ==> Shown(r, wl)
    ensures !Refused(h, wl) ==> !Refused(r, wl)
  {
    assert Bound(wl.ref) in r.targets <==> Bound(wl.ref) in h.targets;
    assert LegacyPresent(r, wl.ref) <==> LegacyPresent(h, wl.ref);
  }

  /** The entry is the workload itself, in a system namespace, or no twin. */
  predicate Apart(system: seq<string>, e: Listed, wl: Listed) {
    (e.ref == wl.ref ==> e == wl) && (Twins(e.ref, wl.ref) ==> e.ref.namespace in system)
  }

  lemma OneTurn(system: seq<string>, h: Hub, e: Listed, wl: Listed)
    requires Wf(h) && Managed(system, wl) && Apart(system, e, wl) && !Refused(h, wl)
    ensures var (r, outcome) := EnsurePowerTarget(system, h, e, ALL_DONE);
            Wf(r) && !outcome.Died? && !Refused(r, wl) && (Shown(h, wl) || e == wl ==> Shown(r, wl))
  {
    hide EnsurePowerTarget, Wf, GoodTurn, Shown;
    UndisturbedTurnSurvives(system, h, e);
    EnsureKeepsWf(system, h, e, ALL_DONE);
    EnsureTurn(system, h, e, ALL_DONE);
    var r := EnsurePowerTarget(system, h, e, ALL_DONE).0;
    if e == wl {
      UndisturbedTurnShows(system, h, wl);
      ShownIsNotRefused(r, wl);
    } else if e.ref.namespace in system {
      SystemTurn(system, h, e, ALL_DONE);
    } else {
      OthersLeaveShown(h, r, e, wl);
    }
  }

  lemma ShownIsNotRefused(h: Hub, wl: Listed)
    requires Shown(h, wl)
    ensures !Refused(h, wl)
  {
  }

  lemma {:induction false} EveryTurn(system: seq<string>, h: Hub, list: seq<Listed>, scripts: seq<Ensure>, wl: Listed)
    requires Wf(h) && Managed(system, wl) && !Refused(h, wl) && (Shown(h, wl) || wl in list)
    requires |list| <= |scripts| && forall i :: 0 <= i < |scripts| ==> scripts[i] == ALL_DONE
    requires forall i :: 0 <= i < |list| ==> Apart(system, list[i], wl)
    ensures var (r, alive) := EnsureAll(system, h, list, scripts); alive && Shown(r, wl)
    decreases |list|
  {
    hide EnsurePowerTarget, Wf, Refused, Shown, Apart;
    if list != [] {
      OneTurn(system, h, list[0], wl);
      var h1 := EnsurePowerTarget(system, h, list[0], scripts[0]).0;
      EveryTurn(system, h1, list[1..], scripts[1..], wl);
    }
  }

  /** After an undisturbed cycle every managed workload it listed has a record that shows it
      as listed, unless an old record is ambiguous about it or a twin takes part; cleanup,
      whatever it meets, leaves that record alone. */
  lemma CycleShowsEveryWorkload(system: seq<string>, h: Hub, c: Cycle, i: nat)
    requires Wf(h) && c.discovered && Consistent(c.list) && i < |c.list| && Managed(system, c.list[i])
    requires |c.list| <= |c.scripts| && forall k :: 0 <= k < |c.scripts| ==> c.scripts[k] == ALL_DONE
    requires !HasTwin(system, c.list, c.list[i].ref) && !Refused(h, c.list[i])
    ensures Shown(RunDiscovery(system, h, c), c.list[i])
  {
    hide EnsureAll, DeleteUnexpected, Wf, Refused, Expected;
    var wl := c.list[i];
    EveryTurn(system, h, c.list, c.scripts, wl);
    var h1 := EnsureAll(system, h, c.list, c.scripts).0;
    ExpectedContains(system, c.list, i);
    CleanupKeeps(h1, Expected(system, c.list), c.items);
  }

  /** And nothing is left, where the cleanup listed everything and met no failure, that no
      listed workload accounts for. */
  lemma CycleLeavesNothingElse(system: seq<string>, h: Hub, c: Cycle, n: Name)
    requires c.discovered && c.listTargets.Answers? && EnsureAll(system, h, c.list, c.scripts).1
    requires forall m :: m in EnsureAll(system, h, c.list, c.scripts).0.targets ==> exists k :: 0 <= k < |c.items| && c.items[k].name == m
    requires forall k :: 0 <= k < |c.items| ==> c.items[k].fate.Done?
    ensures n in RunDiscovery(system, h, c).targets ==>
              exists k :: 0 <= k < |c.list| && c.list[k].ref.namespace !in system
                && ((n == Bound(c.list[k].ref) && (c.list[k].IsOff() || !c.list[k].exempt)) || (n == LegacyName(c.list[k].ref) && c.list[k].IsOff()))
  {
    hide EnsureAll, DeleteUnexpected, Expected;
    var expected := Expected(system, c.list);
    CleanupIsComplete(EnsureAll(system, h, c.list, c.scripts).0, expected, c.items);
    if n in expected {
      ExpectedFrom(system, c.list, n);
    }
  }

  /** The status of a new record is tried eight times: seven retriable refusals leave the
      eighth try its chance, and no ninth follows. */
  lemma EightTries(h: Hub, wl: Listed, previous: Option<Status>, tries: seq<StatusTry>)
    requires Bound(wl.ref) in h.targets && |tries| >= 8
    requires forall i :: 0 <= i < 7 ==> tries[i].fate.Refused? && tries[i].retriable && tries[i].read.Answers?
    requires tries[7].read.Answers?
    ensures WriteNewStatus(h, wl, previous, tries, MAX_STATUS_TRIES, true)
            == WriteStatus(h, Bound(wl.ref), Refreshed(if previous.Some? then previous.value else h.targets[Bound(wl.ref)].status, wl), tries[7].fate)
  {
    RefusedTry(h, wl, previous, tries, 8, true);
    SevenMore(h, wl, previous, tries, 1);
  }

  lemma RefusedTry(h: Hub, wl: Listed, previous: Option<Status>, tries: seq<StatusTry>, left: nat, first: bool)
    requires Bound(wl.ref) in h.targets && tries != [] && left > 0
    requires tries[0].fate.Refused? && tries[0].retriable && tries[0].read.Answers?
    ensures WriteNewStatus(h, wl, previous, tries, left, first) == WriteNewStatus(h, wl, previous, tries[1..], left - 1, false)
  {
  }

  lemma {:induction false} SevenMore(h: Hub, wl: Listed, previous: Option<Status>, tries: seq<StatusTry>, n: nat)
    requires Bound(wl.ref) in h.targets && |tries| >= 8 && 1 <= n <= 7
    requires forall i :: 0 <= i < 7 ==> tries[i].fate.Refused? && tries[i].retriable && tries[i].read.Answers?
    requires tries[7].read.Answers?
    ensures WriteNewStatus(h, wl, previous, tries[n..], 8 - n, false)
            == WriteStatus(h, Bound(wl.ref), Refreshed(if previous.Some? then previous.value else h.targets[Bound(wl.ref)].status, wl), tries[7].fate)
    decreases 7 - n
  {
    if n < 7 {
      RefusedTry(h, wl, previous, tries[n..], 8 - n, false);
      assert tries[n..][1..] == tries[n + 1..];
      SevenMore(h, wl, previous, tries, n + 1);
    } else {
      LastTry(h, wl, previous, tries[7..]);
    }
  }

  lemma LastTry(h: Hub, wl: Listed, previous: Option<Status>, tries: seq<StatusTry>)
    requires Bound(wl.ref) in h.targets && tries != [] && tries[0].read.Answers?
    ensures WriteNewStatus(h, wl, previous, tries, 1, false)
            == WriteStatus(h, Bound(wl.ref), Refreshed(if previous.Some? then previous.value else h.targets[Bound(wl.ref)].status, wl), tries[0].fate)
  {
  }
}
