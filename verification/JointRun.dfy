/** Discovery and the reconciler together.  Passes, outside writers and whole discovery
    cycles interleave; records are created, migrated to UID-bound names, exempted and cleaned
    up in between; and the value a power-down overwrote stays with the record that is then
    in charge, under whatever name.  What discovery restores on exemption is that value too. */
module JointRun {
  import opened Domain
  import opened Cluster
  import opened ReconcileSpec
  import opened SnapshotSafety
  import Writes = WorkloadWrites
  import D = DiscoverySpec
  import DS = DiscoverySafety

  // ---------------------------------------------------------------- the record in charge

  /** The UID-bound record once discovery has written its observation, before that the
      legacy record if it is bound to this workload's UID. */
  function Active(h: D.Hub, ref: WorkloadRef): Option<D.Name> {
    if D.Bound(ref) in h.targets && h.targets[D.Bound(ref)].status.power.Some? then Some(D.Bound(ref))
    else if D.LegacyPresent(h, ref) && h.targets[D.LegacyName(ref)].ref.uid == ref.uid then Some(D.LegacyName(ref))
    else None
  }

  function ActiveSnap(h: D.Hub, ref: WorkloadRef): (snap: Option<D.Snap>)
    ensures Active(h, ref).None? ==> snap.None?
  {
    var n := Active(h, ref);
    if n.Some? then h.targets[n.value].status.snapshot else None
  }

  /** The record in charge holds an available snapshot. */
  predicate Held(h: D.Hub, ref: WorkloadRef) {
    ActiveSnap(h, ref).Some? && ActiveSnap(h, ref).value.available
  }

  predicate SameSnap(a: Option<D.Snap>, b: Option<Snapshot>) {
    if a.None? || b.None? then a.None? && b.None?
    else a.value.available == b.value.available && a.value.replicas == b.value.replicas && a.value.suspended == b.value.suspended
  }

  /** `h` and `r` hold the same snapshot in charge, and every restore of this workload since
      used it. */
  predicate Carried(h: D.Hub, r: D.Hub, ref: WorkloadRef) {
    && Held(r, ref) && ActiveSnap(r, ref) == ActiveSnap(h, ref) && h.restores <= r.restores
    && forall i :: |h.restores| <= i < |r.restores| && r.restores[i].ref == ref ==> Some(r.restores[i].snapshot) == ActiveSnap(h, ref)
  }

  // ---------------------------------------------------------------- discovery carries it

  lemma CarriedChain(a: D.Hub, b: D.Hub, c: D.Hub, ref: WorkloadRef)
    requires Carried(a, b, ref) && Carried(b, c, ref)
    ensures Carried(a, c, ref)
  {
    hide Active;
  }

  lemma ExemptionCarries(h: D.Hub, wl: D.Listed, s: D.Ensure)
    requires wl.IsOff() && Held(h, wl.ref) && Active(h, wl.ref) == Some(D.Bound(wl.ref))
    ensures Carried(h, D.RestoreBeforeExemption(h, wl, s).0, wl.ref)
  {
  }

  lemma ObserveCarries(h: D.Hub, wl: D.Listed, s: D.Ensure)
    requires wl.IsOff() && Held(h, wl.ref) && D.Bound(wl.ref) in h.targets
    requires DS.WellBound(wl.ref, h.targets[D.Bound(wl.ref)])
    ensures Active(h, wl.ref) == Some(D.Bound(wl.ref)) ==>
              Carried(h, D.BindAndObserve(h, wl, h.targets[D.Bound(wl.ref)], s).0, wl.ref)
  {
    hide D.RestoreBeforeExemption;
    if Active(h, wl.ref) == Some(D.Bound(wl.ref)) {
      ExemptionCarries(h, wl, s);
    }
  }

  /** The resumed migration hands the legacy snapshot to the UID-bound record. */
  lemma ResumeCarries(h: D.Hub, wl: D.Listed, s: D.Ensure)
    requires wl.IsOff() && wl.ref.uid != "" && Held(h, wl.ref) && Active(h, wl.ref) == Some(D.LegacyName(wl.ref))
    requires D.Bound(wl.ref) in h.targets && DS.WellBound(wl.ref, h.targets[D.Bound(wl.ref)])
    ensures Carried(h, D.Resume(h, wl, h.targets[D.Bound(wl.ref)], h.targets[D.LegacyName(wl.ref)], s).0, wl.ref)
  {
    hide D.RestoreBeforeExemption;
    var legacy := h.targets[D.LegacyName(wl.ref)];
    var (h1, observed) := D.UpdateObservedState(h, legacy.status.(power := None), wl, s.observe);
    assert Carried(h, h1, wl.ref);
    if observed.Ok? {
      var (h2, deleted) := D.DeleteTarget(h1, D.LegacyName(wl.ref), s.deleteLegacy);
      assert Active(h2, wl.ref) == Some(D.Bound(wl.ref)) && Carried(h, h2, wl.ref);
      ExemptionCarries(h2, wl, s);
      CarriedChain(h, h2, D.RestoreBeforeExemption(h2, wl, s).0, wl.ref);
    }
  }

  /** So does the migration that starts from nothing. */
  lemma MigrateCarries(h: D.Hub, wl: D.Listed, s: D.Ensure)
    requires wl.IsOff() && wl.ref.uid != "" && Held(h, wl.ref) && Active(h, wl.ref) == Some(D.LegacyName(wl.ref))
    requires D.Bound(wl.ref) !in h.targets
    ensures Carried(h, D.Migrate(h, wl, h.targets[D.LegacyName(wl.ref)], s).0, wl.ref)
  {
    hide D.WriteNewStatus;
    var legacy := h.targets[D.LegacyName(wl.ref)];
    var previous := D.Inherited(legacy, wl);
    assert previous == Some(legacy.status);
    var (h1, created) := D.CreateTarget(h, D.Bound(wl.ref), D.PowerTarget(wl.ref, D.EMPTY), s.create);
    if h1 != h {
      assert DS.Replaced(h, h1, wl, previous);
      DS.NewStatusReplaces(h, h1, wl, previous, s.tries, D.MAX_STATUS_TRIES, true);
    }
    var (h2, written) := D.NewPowerTarget(h, wl, previous, s);
    assert Carried(h, h2, wl.ref);
    if written.Ok? {
      assert Active(h2, wl.ref) == Some(D.Bound(wl.ref));
      assert Carried(h2, D.DeleteTarget(h2, D.LegacyName(wl.ref), s.deleteLegacy).0, wl.ref);
    }
  }

  lemma LegacyExemptionCarries(h: D.Hub, wl: D.Listed, s: D.Ensure)
    requires wl.IsOff() && Held(h, wl.ref) && Active(h, wl.ref) == Some(D.LegacyName(wl.ref))
    ensures Carried(h, D.RestoreLegacyBeforeExemption(h, wl, h.targets[D.LegacyName(wl.ref)], s).0, wl.ref)
  {
  }

  /** The workload's own turn. */
  lemma TurnCarries(system: seq<string>, h: D.Hub, wl: D.Listed, s: D.Ensure)
    requires DS.Wf(h) && wl.IsOff() && wl.ref.uid != "" && Held(h, wl.ref)
    ensures Carried(h, D.EnsurePowerTarget(system, h, wl, s).0, wl.ref)
  {
    hide D.Resume, D.BindAndObserve, D.Migrate, D.NewPowerTarget, D.RestoreLegacyBeforeExemption;
    if wl.ref.namespace !in system && s.get.Answers? {
      if D.Bound(wl.ref) in h.targets {
        assert DS.WellBound(wl.ref, h.targets[D.Bound(wl.ref)]);
        if Active(h, wl.ref) == Some(D.Bound(wl.ref)) {
          ObserveCarries(h, wl, s);
        } else if s.legacyGet.Answers? {
          ResumeCarries(h, wl, s);
        }
      } else if s.legacyGet.Answers? {
        if wl.exempt {
          LegacyExemptionCarries(h, wl, s);
        } else {
          MigrateCarries(h, wl, s);
        }
      }
    }
  }

  /** The turn of any other workload that is not a twin. */
  lemma OtherTurnCarries(h: D.Hub, r: D.Hub, wl: D.Listed, ref: WorkloadRef)
    requires DS.GoodTurn(h, r, wl) && wl.ref != ref && !DS.Twins(wl.ref, ref) && Held(h, ref)
    ensures Carried(h, r, ref)
  {
    assert D.Bound(ref) in r.targets <==> D.Bound(ref) in h.targets;
    assert D.LegacyPresent(r, ref) <==> D.LegacyPresent(h, ref);
  }

  lemma AnyTurnCarries(system: seq<string>, h: D.Hub, wl: D.Listed, s: D.Ensure, ref: WorkloadRef)
    requires DS.Wf(h) && DS.Harmless(system, wl, ref) && ref.uid != "" && Held(h, ref)
    ensures Carried(h, D.EnsurePowerTarget(system, h, wl, s).0, ref)
  {
    hide DS.Wf, DS.GoodTurn, Held, Carried;
    if wl.ref == ref {
      TurnCarries(system, h, wl, s);
    } else if wl.ref.namespace in system {
      DS.SystemTurn(system, h, wl, s);
      SameCarried(h, ref);
    } else {
      DS.EnsureTurn(system, h, wl, s);
      OtherTurnCarries(h, D.EnsurePowerTarget(system, h, wl, s).0, wl, ref);
    }
  }

  lemma SameCarried(h: D.Hub, ref: WorkloadRef)
    requires Held(h, ref)
    ensures Carried(h, h, ref)
  {
  }

  lemma {:induction false} EnsureAllCarries(system: seq<string>, h: D.Hub, list: seq<D.Listed>, scripts: seq<D.Ensure>, ref: WorkloadRef)
    requires DS.Wf(h) && ref.uid != "" && Held(h, ref) && forall i :: 0 <= i < |list| ==> DS.Harmless(system, list[i], ref)
    ensures var r := D.EnsureAll(system, h, list, scripts).0; DS.Wf(r) && Carried(h, r, ref)
    decreases |list|
  {
    hide DS.Wf, DS.Harmless, D.EnsurePowerTarget, ActiveSnap;
    SameCarried(h, ref);
    if list != [] && scripts != [] {
      AnyTurnCarries(system, h, list[0], scripts[0], ref);
      DS.EnsureKeepsWf(system, h, list[0], scripts[0]);
      var (h1, outcome) := D.EnsurePowerTarget(system, h, list[0], scripts[0]);
      if !outcome.Died? {
        EnsureAllCarries(system, h1, list[1..], scripts[1..], ref);
        CarriedChain(h, h1, D.EnsureAll(system, h, list, scripts).0, ref);
      }
    }
  }

  lemma {:induction false} EnsureAllKeepsWf(system: seq<string>, h: D.Hub, list: seq<D.Listed>, scripts: seq<D.Ensure>)
    requires DS.Wf(h)
    ensures DS.Wf(D.EnsureAll(system, h, list, scripts).0)
    decreases |list|
  {
    hide DS.Wf, D.EnsurePowerTarget;
    if list != [] && scripts != [] {
      DS.EnsureKeepsWf(system, h, list[0], scripts[0]);
      var (h1, outcome) := D.EnsurePowerTarget(system, h, list[0], scripts[0]);
      EnsureAllKeepsWf(system, h1, list[1..], scripts[1..]);
    }
  }

  lemma CycleKeepsWf(system: seq<string>, h: D.Hub, c: D.Cycle)
    requires DS.Wf(h)
    ensures DS.Wf(D.RunDiscovery(system, h, c))
  {
    hide D.EnsureAll, D.DeleteUnexpected, D.Expected;
    EnsureAllKeepsWf(system, h, c.list, c.scripts);
    DS.CleanupKeeps(D.EnsureAll(system, h, c.list, c.scripts).0, D.Expected(system, c.list), c.items);
  }

  /** A whole cycle that lists the workload as powered down carries the snapshot in charge. */
  lemma CycleCarries(system: seq<string>, h: D.Hub, c: D.Cycle, ref: WorkloadRef)
    requires DS.Wf(h) && DS.ListsOff(c.list, ref) && ref.namespace !in system && !DS.HasTwin(system, c.list, ref)
    requires ref.uid != "" && Held(h, ref)
    ensures Carried(h, D.RunDiscovery(system, h, c), ref)
  {
    hide D.EnsureAll, D.DeleteUnexpected, D.Expected, ActiveSnap;
    SameCarried(h, ref);
    if c.discovered {
      EnsureAllCarries(system, h, c.list, c.scripts, ref);
      var (h1, alive) := D.EnsureAll(system, h, c.list, c.scripts);
      if alive && c.listTargets.Answers? {
        var expected := D.Expected(system, c.list);
        var i :| 0 <= i < |c.list| && c.list[i].ref == ref && c.list[i].IsOff();
        DS.ExpectedContains(system, c.list, i);
        DS.CleanupKeeps(h1, expected, c.items);
        CleanupCarries(h1, D.DeleteUnexpected(h1, expected, c.items), expected, ref);
        CarriedChain(h, h1, D.DeleteUnexpected(h1, expected, c.items), ref);
      }
    }
  }

  lemma CleanupCarries(h: D.Hub, r: D.Hub, expected: set<D.Name>, ref: WorkloadRef)
    requires Held(h, ref) && r.restores == h.restores
    requires forall n :: n in r.targets ==> n in h.targets && r.targets[n] == h.targets[n]
    requires forall n :: n in expected && n in h.targets ==> n in r.targets
    requires D.Bound(ref) in expected && D.LegacyName(ref) in expected
    ensures Carried(h, r, ref)
  {
  }

  // ---------------------------------------------------------------- the joint machine

  datatype Joint = Joint(w: LiveWorld, h: D.Hub)

  /** The reconciler works on the record in charge; discovery runs whole cycles. */
  datatype JointStep = Reconciles(d: Decision, readAt: nat, s: Script) | Interferes(steps: seq<EnvStep>) | Discovers(c: D.Cycle)

  function Stored(snapshot: Option<Snapshot>): Option<D.Snap> {
    if snapshot.None? then None
    else Some(D.Snap(snapshot.value.available, true, snapshot.value.replicas, snapshot.value.suspended))
  }

  /** What the reconciler finds in a record it did not write: no revision to trust. */
  function Found(snap: Option<D.Snap>): Option<Snapshot> {
    if snap.None? then None else Some(Snapshot(snap.value.available, snap.value.replicas, snap.value.suspended, None))
  }

  function PutSnap(h: D.Hub, ref: WorkloadRef, snapshot: Option<Snapshot>): D.Hub {
    var n := Active(h, ref);
    if n.None? then h
    else
      var t := h.targets[n.value];
      h.(targets := h.targets[n.value := t.(status := t.status.(snapshot := Stored(snapshot)))])
  }

  /** The restores discovery asked for reach the workload. */
  function Restores(w: LiveWorld, ref: WorkloadRef, log: seq<D.Restore>): LiveWorld
    decreases |log|
  {
    if log == [] then w
    else
      var snap := Found(Some(log[0].snapshot)).value;
      var w1 := if log[0].ref == ref && Restorable(w.kind, snap) && !(w.kind.CronJob? && w.Load().suspended == snap.suspended.value)
                then w.(hist := w.hist + [Version(Restored(w.kind, w.Load(), snap), AuraOn)]) else w;
      Restores(w1, ref, log[1..])
  }

  /** The record the reconciler reads after the cycle: the same one, the same under its new
      name, or another one. */
  function Adopted(w: LiveWorld, h: D.Hub, r: D.Hub, ref: WorkloadRef): Record {
    var snap := ActiveSnap(r, ref);
    var rec := if SameSnap(snap, w.Rec().snapshot) then w.Rec() else w.Rec().(snapshot := Found(snap), action := None);
    if Active(r, ref) == Active(h, ref) then rec
    else rec.(seen := Observed(w.Load().replicas, w.Load().suspended), seenAt := Some(|w.hist| - 1))
  }

  function Take(system: seq<string>, j: Joint, ref: WorkloadRef, step: JointStep): Joint {
    match step
    case Reconciles(d, readAt, s) =>
      if Active(j.h, ref).None? || readAt >= |j.w.recs| then j
      else
        var w := Reconcile(j.w, d, readAt, s);
        Joint(w, PutSnap(j.h, ref, w.Rec().snapshot))
    case Interferes(steps) => Joint(Env(j.w, steps), j.h)
    case Discovers(c) =>
      var r := D.RunDiscovery(system, j.h, c);
      var w: LiveWorld := j.w.(recs := j.w.recs + [Adopted(j.w, j.h, r, ref)]);
      Joint(if |j.h.restores| <= |r.restores| then Restores(w, ref, r.restores[|j.h.restores|..]) else w, r)
  }

  function After(system: seq<string>, j: Joint, ref: WorkloadRef, run: seq<JointStep>): Joint
    decreases |run|
  {
    if run == [] then j else After(system, Take(system, j, ref, run[0]), ref, run[1..])
  }

  // ---------------------------------------------------------------- what holds throughout

  ghost predicate Inv(j: Joint, ref: WorkloadRef) {
    && SnapshotSafety.Inv(j.w) && Writes.RoundTrips(j.w) && DS.Wf(j.h)
    && SameSnap(ActiveSnap(j.h, ref), j.w.Rec().snapshot)
  }

  /** While a power-down is in force, the record in charge holds what it overwrote. */
  predicate Safe(j: Joint, ref: WorkloadRef) {
    forall k :: 0 <= k < |j.w.hist| && OffIn(j.w.kind, j.w.hist, k) ==>
      && Held(j.h, ref)
      && var snap := ActiveSnap(j.h, ref).value;
         if j.w.kind.CronJob? then snap.suspended == Some(j.w.hist[k - 1].load.suspended)
         else snap.replicas == Some(j.w.hist[k - 1].load.replicas)
  }

  /** Passes see fresh-enough observations; a cycle lists the workload as it is, and no
      managed twin of it. */
  predicate Orderly(system: seq<string>, j: Joint, ref: WorkloadRef, step: JointStep) {
    match step
    case Reconciles(d, readAt, s) => FreshRecord(j.w)
    case Interferes(steps) => true
    case Discovers(c) =>
      c.discovered ==>
        && DS.Consistent(c.list) && !DS.HasTwin(system, c.list, ref) && ref.namespace !in system
        && (exists i :: 0 <= i < |c.list| && c.list[i].ref == ref && c.list[i].seen == Observed(j.w.Load().replicas, j.w.Load().suspended))
  }

  predicate OrderlyRun(system: seq<string>, j: Joint, ref: WorkloadRef, run: seq<JointStep>)
    decreases |run|
  {
    run == [] || (Orderly(system, j, ref, run[0]) && OrderlyRun(system, Take(system, j, ref, run[0]), ref, run[1..]))
  }

  lemma InvIsSafe(j: Joint, ref: WorkloadRef)
    requires Inv(j, ref)
    ensures Safe(j, ref)
  {
    hide OffIn, ActiveSnap;
  }

  lemma PutSnapKeeps(h: D.Hub, ref: WorkloadRef, snapshot: Option<Snapshot>)
    requires DS.Wf(h) && Active(h, ref).Some?
    ensures var r := PutSnap(h, ref, snapshot); DS.Wf(r) && SameSnap(ActiveSnap(r, ref), snapshot)
  {
  }

  lemma PassKeeps(system: seq<string>, j: Joint, ref: WorkloadRef, d: Decision, readAt: nat, s: Script)
    requires Inv(j, ref) && FreshRecord(j.w)
    ensures Inv(Take(system, j, ref, Reconciles(d, readAt, s)), ref)
  {
    hide Reconcile, SnapshotSafety.Inv, Writes.RoundTrips, DS.Wf, FreshRecord, PutSnap, ActiveSnap, SameSnap;
    if Active(j.h, ref).Some? && readAt < |j.w.recs| {
      if OffByAura(j.w) {
        FreshIsNotExposed(j.w, d);
      }
      ReconcileKeeps(j.w, d, readAt, s);
      Writes.PassKeepsRoundTrips(j.w, d, readAt, s);
      PutSnapKeeps(j.h, ref, Reconcile(j.w, d, readAt, s).Rec().snapshot);
    }
  }

  lemma OthersKeep(system: seq<string>, j: Joint, ref: WorkloadRef, steps: seq<EnvStep>)
    requires Inv(j, ref)
    ensures Inv(Take(system, j, ref, Interferes(steps)), ref)
  {
    hide DS.Wf, ActiveSnap;
    SnapshotSafety.OthersKeep(j.w, steps);
    Writes.OthersRoundTrip(j.w, steps);
    EnvIsCalm(j.w, steps);
    hide Writes.RoundTrips, SnapshotSafety.Inv;
    var r := Env(j.w, steps);
    assert r.Rec().snapshot == j.w.Rec().snapshot by {
      if |r.recs| == |j.w.recs| {
        assert r.recs == j.w.recs;
      }
    }
  }

  // ---------------------------------------------------------------- a cycle keeps it

  /** The snapshot gives back what the power-down in force overwrote. */
  predicate GivesBack(w: LiveWorld, snap: D.Snap) {
    forall k :: 0 <= k < |w.hist| && OffIn(w.kind, w.hist, k) ==> Saves(w.kind, Found(Some(snap)).value, w.hist[k - 1].load)
  }

  lemma RestoreKeeps(w: LiveWorld, snap: Snapshot)
    requires SnapshotSafety.Inv(w) && Writes.RoundTrips(w) && Restorable(w.kind, snap)
    requires forall k :: 0 <= k < |w.hist| && OffIn(w.kind, w.hist, k) ==> Saves(w.kind, snap, w.hist[k - 1].load)
    ensures var r: LiveWorld := w.(hist := w.hist + [Version(Restored(w.kind, w.Load(), snap), AuraOn)]);
            SnapshotSafety.Inv(r) && Writes.RoundTrips(r) && !OffByAura(r)
  {
    var v := Version(Restored(w.kind, w.Load(), snap), AuraOn);
    var r: LiveWorld := w.(hist := w.hist + [v]);
    assert Ready(w, Mem(w.Rec(), |w.recs| - 1));
    OnWriteKeeps(w, Mem(w.Rec(), |w.recs| - 1), v.load);
    OnlyTheLast(w.kind, w.hist, v);
    hide SnapshotSafety.Inv, OffIn;
    forall i, k | 0 < k < i < |r.hist| && r.hist[i].writer.AuraOn? && OffIn(r.kind, r.hist[..i], k)
      ensures r.hist[i].load.SameLevel(r.kind, r.hist[k - 1].load)
    {
      if i < |w.hist| {
        assert r.hist[..i] == w.hist[..i];
      } else {
        assert r.hist[..i] == w.hist;
      }
    }
  }

  lemma {:induction false} RestoresKeep(w: LiveWorld, ref: WorkloadRef, log: seq<D.Restore>)
    requires SnapshotSafety.Inv(w) && Writes.RoundTrips(w)
    requires forall i :: 0 <= i < |log| && log[i].ref == ref ==> GivesBack(w, log[i].snapshot)
    ensures var r := Restores(w, ref, log); SnapshotSafety.Inv(r) && Writes.RoundTrips(r) && r.recs == w.recs
    decreases |log|
  {
    hide SnapshotSafety.Inv, Writes.RoundTrips, OffIn;
    if log != [] {
      var snap := Found(Some(log[0].snapshot)).value;
      if log[0].ref == ref && Restorable(w.kind, snap) && !(w.kind.CronJob? && w.Load().suspended == snap.suspended.value) {
        assert GivesBack(w, log[0].snapshot);
        RestoreKeeps(w, snap);
        RestoresKeep(w.(hist := w.hist + [Version(Restored(w.kind, w.Load(), snap), AuraOn)]), ref, log[1..]);
      } else {
        RestoresKeep(w, ref, log[1..]);
      }
    }
  }

  lemma AdoptedKeeps(w: LiveWorld, h: D.Hub, r: D.Hub, ref: WorkloadRef)
    requires SnapshotSafety.Inv(w) && Writes.RoundTrips(w)
    requires OffByAura(w) ==> SameSnap(ActiveSnap(r, ref), w.Rec().snapshot)
    ensures var w1: LiveWorld := w.(recs := w.recs + [Adopted(w, h, r, ref)]);
            && SnapshotSafety.Inv(w1) && Writes.RoundTrips(w1)
            && SameSnap(ActiveSnap(r, ref), w1.Rec().snapshot)
  {
    hide OffIn, ActiveSnap;
  }

  lemma DownIsListedOff(j: Joint, ref: WorkloadRef, c: D.Cycle)
    requires OffByAura(j.w) && SnapshotSafety.Inv(j.w) && ref.kind == j.w.kind && DS.Consistent(c.list)
    requires exists i :: 0 <= i < |c.list| && c.list[i].ref == ref && c.list[i].seen == Observed(j.w.Load().replicas, j.w.Load().suspended)
    ensures DS.ListsOff(c.list, ref)
  {
    var k :| 0 <= k < |j.w.hist| && OffIn(j.w.kind, j.w.hist, k);
    assert !j.w.hist[k].load.Running(j.w.kind);
    var i :| 0 <= i < |c.list| && c.list[i].ref == ref && c.list[i].seen == Observed(j.w.Load().replicas, j.w.Load().suspended);
    assert c.list[i].IsOff();
  }

  lemma CycleKeeps(system: seq<string>, j: Joint, ref: WorkloadRef, c: D.Cycle)
    requires Inv(j, ref) && ref.uid != "" && ref.kind == j.w.kind && Orderly(system, j, ref, Discovers(c))
    ensures Inv(Take(system, j, ref, Discovers(c)), ref)
  {
    hide SnapshotSafety.Inv, Writes.RoundTrips, DS.Wf, D.RunDiscovery, OffIn, ActiveSnap, Adopted, DS.HasTwin, DS.Consistent;
    var r := D.RunDiscovery(system, j.h, c);
    CycleKeepsWf(system, j.h, c);
    InvIsSafe(j, ref);
    if OffByAura(j.w) {
      if c.discovered {
        DownIsListedOff(j, ref, c);
        CycleCarries(system, j.h, c, ref);
      } else {
        DS.UndiscoveredCycle(system, j.h, c);
        SameCarried(j.h, ref);
      }
    }
    AdoptedKeeps(j.w, j.h, r, ref);
    var w1: LiveWorld := j.w.(recs := j.w.recs + [Adopted(j.w, j.h, r, ref)]);
    if |j.h.restores| <= |r.restores| {
      var log := r.restores[|j.h.restores|..];
      forall i | 0 <= i < |log| && log[i].ref == ref
        ensures GivesBack(w1, log[i].snapshot)
      {
        assert log[i] == r.restores[|j.h.restores| + i];
      }
      RestoresKeep(w1, ref, log);
    }
  }

  // ---------------------------------------------------------------- every joint run

  /** Over every interleaving of passes, outside writers and discovery cycles, with any call
      failing or fatal: while a power-down is in force the record in charge, under whatever
      name, holds exactly what it overwrote; and every restore that meets a power-down in
      force, by the reconciler or by discovery, gives that back. */
  lemma {:induction false} JointRunsKeep(system: seq<string>, j: Joint, ref: WorkloadRef, run: seq<JointStep>)
    requires Inv(j, ref) && ref.uid != "" && ref.kind == j.w.kind && OrderlyRun(system, j, ref, run)
    ensures var r := After(system, j, ref, run); Inv(r, ref) && Safe(r, ref) && Writes.RoundTrips(r.w)
    decreases |run|
  {
    hide Inv, Safe, Orderly;
    if run == [] {
      InvIsSafe(j, ref);
      InvRoundTrips(j, ref);
    } else {
      StepKeeps(system, j, ref, run[0]);
      JointRunsKeep(system, Take(system, j, ref, run[0]), ref, run[1..]);
    }
  }

  lemma InvRoundTrips(j: Joint, ref: WorkloadRef)
    requires Inv(j, ref)
    ensures Writes.RoundTrips(j.w)
  {
  }

  lemma StepKeeps(system: seq<string>, j: Joint, ref: WorkloadRef, step: JointStep)
    requires Inv(j, ref) && ref.uid != "" && ref.kind == j.w.kind && Orderly(system, j, ref, step)
    ensures var r := Take(system, j, ref, step); Inv(r, ref) && r.w.kind == j.w.kind
  {
    hide Inv;
    SameKind(system, j, ref, step);
    match step
    case Reconciles(d, readAt, s) => PassKeeps(system, j, ref, d, readAt, s);
    case Interferes(steps) => OthersKeep(system, j, ref, steps);
    case Discovers(c) => CycleKeeps(system, j, ref, c);
  }

  lemma SameKind(system: seq<string>, j: Joint, ref: WorkloadRef, step: JointStep)
    ensures Take(system, j, ref, step).w.kind == j.w.kind
  {
    match step
    case Reconciles(d, readAt, s) =>
      if readAt < |j.w.recs| {
        Writes.WritesObeyDecision(j.w, d, readAt, s);
      }
    case Interferes(steps) =>
    case Discovers(c) =>
      var r := D.RunDiscovery(system, j.h, c);
      if |j.h.restores| <= |r.restores| {
        RestoresKeepKind(j.w.(recs := j.w.recs + [Adopted(j.w, j.h, r, ref)]), ref, r.restores[|j.h.restores|..]);
      }
  }

  lemma {:induction false} RestoresKeepKind(w: LiveWorld, ref: WorkloadRef, log: seq<D.Restore>)
    ensures Restores(w, ref, log).kind == w.kind
    decreases |log|
  {
    if log != [] {
      var snap := Found(Some(log[0].snapshot)).value;
      if log[0].ref == ref && Restorable(w.kind, snap) && !(w.kind.CronJob? && w.Load().suspended == snap.suspended.value) {
        RestoresKeepKind(w.(hist := w.hist + [Version(Restored(w.kind, w.Load(), snap), AuraOn)]), ref, log[1..]);
      } else {
        RestoresKeepKind(w, ref, log[1..]);
      }
    }
  }

  /** From a workload the controller never touched and a well-formed store in which no record
      is in charge of it yet, old records of earlier releases included. */
  lemma ReachableJoint(system: seq<string>, j: Joint, ref: WorkloadRef, run: seq<JointStep>)
    requires Start(j.w) && DS.Wf(j.h) && Active(j.h, ref).None?
    requires ref.uid != "" && ref.kind == j.w.kind && OrderlyRun(system, j, ref, run)
    ensures var r := After(system, j, ref, run); Safe(r, ref) && Writes.RoundTrips(r.w)
  {
    hide Active;
    JointRunsKeep(system, j, ref, run);
  }
}
