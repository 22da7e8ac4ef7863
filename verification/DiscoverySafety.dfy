/** A powered-down workload never loses its last usable snapshot to discovery: not while
    records move from legacy to UID-bound names, not to orphan cleanup, not to exemption,
    whichever API call fails. */
module DiscoverySafety {
  import opened Domain
  import opened Faults
  import opened DiscoverySpec

  // ---------------------------------------------------------------- accepted snapshots

  predicate BoundAccepts(h: Hub, ref: WorkloadRef) {
    && Bound(ref) in h.targets
    && var t := h.targets[Bound(ref)];
       t.status.HasSnapshot() && t.ref.uid == ref.uid && t.ref.kind == ref.kind
  }

  predicate LegacyAccepts(h: Hub, ref: WorkloadRef) {
    && LegacyPresent(h, ref)
    && var t := h.targets[LegacyName(ref)];
       if t.ref.uid == "" then ProvesDown(t, ref.kind) else t.ref.uid == ref.uid && t.status.HasSnapshot()
  }

  /** The snapshots from which the workload, found powered down, would be recovered: by
      UID match, or by the evidence of a legacy record. */
  function Accepted(h: Hub, ref: WorkloadRef): set<Snap> {
    (if BoundAccepts(h, ref) then {h.targets[Bound(ref)].status.snapshot.value} else {}) +
    (if LegacyAccepts(h, ref) then {h.targets[LegacyName(ref)].status.snapshot.value} else {})
  }

  /** A UID-bound record names its own workload, and holds no snapshot before discovery
      first wrote its observation. */
  ghost predicate Wf(h: Hub) {
    forall ref: WorkloadRef :: Bound(ref) in h.targets ==> WellBound(ref, h.targets[Bound(ref)])
  }

  predicate WellBound(ref: WorkloadRef, t: PowerTarget) {
    && t.ref.uid == ref.uid && t.ref.kind == ref.kind
    && (t.status.power.None? ==> t.status.snapshot.None?)
  }

  /** Some accepted snapshot is left and none was made up. */
  predicate Preserved(h: Hub, r: Hub, ref: WorkloadRef) {
    Accepted(r, ref) <= Accepted(h, ref) && (Accepted(h, ref) != {} ==> Accepted(r, ref) != {})
  }

  /** Another workload that answers to the same legacy name and kind. */
  predicate Twins(a: WorkloadRef, b: WorkloadRef) {
    a != b && LegacyName(a) == LegacyName(b) && a.kind == b.kind
  }

  // ---------------------------------------------------------------- the workload's own turn

  /** Only records under the workload's own two names change. */
  ghost predicate OnlyTouches(h: Hub, r: Hub, ref: WorkloadRef) {
    forall n: Name :: n != Bound(ref) && n != LegacyName(ref) ==>
      (n in r.targets <==> n in h.targets) && (n in h.targets ==> r.targets[n] == h.targets[n])
  }

  /** The legacy record is as it was; one of the workload's own kind may be gone. */
  predicate LegacyKeptOrGone(h: Hub, r: Hub, ref: WorkloadRef) {
    var n := LegacyName(ref);
    if n in r.targets then n in h.targets && r.targets[n] == h.targets[n] else n in h.targets ==> LegacyPresent(h, ref)
  }

  /** A turn restores this workload alone, only while exempt and down, from an accepted
      snapshot. */
  ghost predicate RestoresVerified(h: Hub, r: Hub, wl: Listed) {
    || r.restores == h.restores
    || (wl.exempt && wl.IsOff()
        && exists snapshot :: snapshot in Accepted(h, wl.ref) && r.restores == h.restores + [Restore(wl.ref, snapshot)])
  }

  /** What a turn guarantees. */
  ghost predicate GoodTurn(h: Hub, r: Hub, wl: Listed) {
    && OnlyTouches(h, r, wl.ref) && LegacyKeptOrGone(h, r, wl.ref)
    && (Bound(wl.ref) in r.targets ==> WellBound(wl.ref, r.targets[Bound(wl.ref)]))
    && (wl.IsOff() ==> Preserved(h, r, wl.ref))
    && RestoresVerified(h, r, wl)
  }

  lemma ExemptionTurn(h: Hub, wl: Listed, s: Ensure)
    requires wl.exempt
    requires Bound(wl.ref) in h.targets ==> WellBound(wl.ref, h.targets[Bound(wl.ref)])
    ensures GoodTurn(h, RestoreBeforeExemption(h, wl, s).0, wl)
  {
    var r := RestoreBeforeExemption(h, wl, s).0;
    if r.restores != h.restores {
      var snapshot := h.targets[Bound(wl.ref)].status.snapshot.value;
      assert snapshot in Accepted(h, wl.ref) && r.restores == h.restores + [Restore(wl.ref, snapshot)];
    }
  }

  lemma LegacyExemptionTurn(h: Hub, wl: Listed, s: Ensure)
    requires wl.exempt && LegacyPresent(h, wl.ref) && Bound(wl.ref) !in h.targets
    ensures GoodTurn(h, RestoreLegacyBeforeExemption(h, wl, h.targets[LegacyName(wl.ref)], s).0, wl)
  {
    var legacy := h.targets[LegacyName(wl.ref)];
    var r := RestoreLegacyBeforeExemption(h, wl, legacy, s).0;
    if r.restores != h.restores {
      var snapshot := legacy.status.snapshot.value;
      assert snapshot in Accepted(h, wl.ref) && r.restores == h.restores + [Restore(wl.ref, snapshot)];
    }
  }

  lemma ObserveTurn(h: Hub, wl: Listed, s: Ensure)
    requires Bound(wl.ref) in h.targets && WellBound(wl.ref, h.targets[Bound(wl.ref)])
    ensures GoodTurn(h, Observe(h, wl, h.targets[Bound(wl.ref)].status, s).0, wl)
  {
    if wl.exempt {
      ExemptionTurn(h, wl, s);
    }
  }

  /** The resumed migration up to its status write. */
  lemma ResumedWrite(h: Hub, wl: Listed, s: Ensure)
    requires Bound(wl.ref) in h.targets && WellBound(wl.ref, h.targets[Bound(wl.ref)]) && LegacyPresent(h, wl.ref)
    requires h.targets[Bound(wl.ref)].status.power.None? && !Ambiguous(h.targets[LegacyName(wl.ref)], wl)
    ensures var previous := Inherited(h.targets[LegacyName(wl.ref)], wl);
            var held := if previous.Some? then previous.value.(power := None) else h.targets[Bound(wl.ref)].status;
            var (r, reply) := UpdateObservedState(h, held, wl, s.observe);
            && GoodTurn(h, r, wl) && r.restores == h.restores
            && Bound(wl.ref) in r.targets && LegacyPresent(r, wl.ref)
            && (reply.Ok? && wl.IsOff() && Accepted(h, wl.ref) != {} ==> BoundAccepts(r, wl.ref))
  {
  }

  /** Once the replacement carries the snapshot, the legacy record may go. */
  lemma LegacyDeleted(h: Hub, wl: Listed, r: Hub, f: Fate)
    requires LegacyPresent(h, wl.ref) && GoodTurn(h, r, wl) && r.restores == h.restores
    requires wl.IsOff() && Accepted(h, wl.ref) != {} ==> BoundAccepts(r, wl.ref)
    ensures var d := DeleteTarget(r, LegacyName(wl.ref), f).0; GoodTurn(h, d, wl) && d.restores == h.restores
  {
  }

  lemma TurnsCompose(h: Hub, m: Hub, r: Hub, wl: Listed)
    requires GoodTurn(h, m, wl) && m.restores == h.restores && GoodTurn(m, r, wl)
    ensures GoodTurn(h, r, wl)
  {
  }

  lemma ResumeTurn(h: Hub, wl: Listed, s: Ensure)
    requires Bound(wl.ref) in h.targets && WellBound(wl.ref, h.targets[Bound(wl.ref)]) && LegacyPresent(h, wl.ref)
    requires h.targets[Bound(wl.ref)].status.power.None?
    ensures GoodTurn(h, Resume(h, wl, h.targets[Bound(wl.ref)], h.targets[LegacyName(wl.ref)], s).0, wl)
  {
    hide GoodTurn, RestoreBeforeExemption, DeleteTarget, UpdateObservedState, Accepted, BoundAccepts;
    var existing, legacy := h.targets[Bound(wl.ref)], h.targets[LegacyName(wl.ref)];
    if Ambiguous(legacy, wl) {
      NothingIsGood(h, wl);
    } else {
      ResumedWrite(h, wl, s);
      var previous := Inherited(legacy, wl);
      var held := if previous.Some? then previous.value.(power := None) else existing.status;
      var (h1, observed) := UpdateObservedState(h, held, wl, s.observe);
      if observed.Ok? {
        LegacyDeleted(h, wl, h1, s.deleteLegacy);
        var (h2, deleted) := DeleteTarget(h1, LegacyName(wl.ref), s.deleteLegacy);
        if deleted.Ok? && wl.exempt {
          GoodTurnKeepsBinding(h, h2, wl);
          ExemptionTurn(h2, wl, s);
          TurnsCompose(h, h2, RestoreBeforeExemption(h2, wl, s).0, wl);
        }
      }
    }
  }

  lemma NothingIsGood(h: Hub, wl: Listed)
    requires Bound(wl.ref) in h.targets ==> WellBound(wl.ref, h.targets[Bound(wl.ref)])
    ensures GoodTurn(h, h, wl)
  {
  }

  lemma GoodTurnKeepsBinding(h: Hub, r: Hub, wl: Listed)
    requires GoodTurn(h, r, wl)
    ensures Bound(wl.ref) in r.targets ==> WellBound(wl.ref, r.targets[Bound(wl.ref)])
  {
  }

  // creating the replacement

  /** The replacement exists, still empty or carrying what it inherits. */
  ghost predicate Replaced(h: Hub, r: Hub, wl: Listed, previous: Option<Status>) {
    && r.restores == h.restores && Bound(wl.ref) in r.targets
    && r.targets == h.targets[Bound(wl.ref) := r.targets[Bound(wl.ref)]]
    && r.targets[Bound(wl.ref)].ref == wl.ref
    && (r.targets[Bound(wl.ref)].status == EMPTY || Inherits(r.targets[Bound(wl.ref)].status, previous))
  }

  predicate Inherits(st: Status, previous: Option<Status>) {
    st.power.Some? && st.snapshot == if previous.Some? then previous.value.snapshot else None
  }

  lemma {:induction false} NewStatusReplaces(h: Hub, r: Hub, wl: Listed, previous: Option<Status>, tries: seq<StatusTry>, left: nat, first: bool)
    requires Replaced(h, r, wl, previous)
    ensures var (r1, reply) := WriteNewStatus(r, wl, previous, tries, left, first);
            && Replaced(h, r1, wl, previous)
            && (reply.Ok? ==> Inherits(r1.targets[Bound(wl.ref)].status, previous))
    decreases left
  {
    if left > 0 && tries != [] && (first || !tries[0].read.Dies?) {
      var t := tries[0];
      if !first && t.read.Fails? {
        NewStatusReplaces(h, r, wl, previous, tries[1..], left - 1, false);
      } else {
        var current := if previous.Some? then previous.value else if first then EMPTY else r.targets[Bound(wl.ref)].status;
        var r1 := WriteStatus(r, Bound(wl.ref), Refreshed(current, wl), t.fate).0;
        assert Replaced(h, r1, wl, previous);
        NewStatusReplaces(h, r1, wl, previous, tries[1..], left - 1, false);
      }
    }
  }

  lemma ReplacedIsGood(h: Hub, r: Hub, wl: Listed, previous: Option<Status>)
    requires Bound(wl.ref) !in h.targets && Replaced(h, r, wl, previous)
    requires previous == if LegacyPresent(h, wl.ref) then Inherited(h.targets[LegacyName(wl.ref)], wl) else None
    ensures GoodTurn(h, r, wl)
    ensures wl.IsOff() && Accepted(h, wl.ref) != {} && Inherits(r.targets[Bound(wl.ref)].status, previous) ==> BoundAccepts(r, wl.ref)
  {
    assert LegacyAccepts(r, wl.ref) == LegacyAccepts(h, wl.ref);
  }

  lemma NewTargetTurn(h: Hub, wl: Listed, previous: Option<Status>, s: Ensure)
    requires Bound(wl.ref) !in h.targets
    requires previous == if LegacyPresent(h, wl.ref) then Inherited(h.targets[LegacyName(wl.ref)], wl) else None
    ensures var (r, reply) := NewPowerTarget(h, wl, previous, s);
            && GoodTurn(h, r, wl) && r.restores == h.restores
            && (reply.Ok? && wl.IsOff() && Accepted(h, wl.ref) != {} ==> BoundAccepts(r, wl.ref))
  {
    hide GoodTurn, Accepted, BoundAccepts, WriteNewStatus;
    var (h1, created) := CreateTarget(h, Bound(wl.ref), PowerTarget(wl.ref, EMPTY), s.create);
    if h1 == h {
      NothingIsGood(h, wl);
    } else {
      assert Replaced(h, h1, wl, previous);
      ReplacedIsGood(h, h1, wl, previous);
      NewStatusReplaces(h, h1, wl, previous, s.tries, MAX_STATUS_TRIES, true);
      ReplacedIsGood(h, WriteNewStatus(h1, wl, previous, s.tries, MAX_STATUS_TRIES, true).0, wl, previous);
    }
  }

  lemma MigrateTurn(h: Hub, wl: Listed, s: Ensure)
    requires Bound(wl.ref) !in h.targets && LegacyPresent(h, wl.ref)
    ensures GoodTurn(h, Migrate(h, wl, h.targets[LegacyName(wl.ref)], s).0, wl)
  {
    hide GoodTurn, NewPowerTarget, DeleteTarget, Accepted, BoundAccepts;
    var legacy := h.targets[LegacyName(wl.ref)];
    if Ambiguous(legacy, wl) {
      NothingIsGood(h, wl);
    } else {
      NewTargetTurn(h, wl, Inherited(legacy, wl), s);
      var (h1, created) := NewPowerTarget(h, wl, Inherited(legacy, wl), s);
      if created.Ok? {
        LegacyDeleted(h, wl, h1, s.deleteLegacy);
      }
    }
  }

  /** The workload's own turn, whichever of its calls fail. */
  lemma EnsureTurn(system: seq<string>, h: Hub, wl: Listed, s: Ensure)
    requires Wf(h)
    ensures GoodTurn(h, EnsurePowerTarget(system, h, wl, s).0, wl)
  {
    hide GoodTurn, Resume, Observe, Migrate, NewPowerTarget, RestoreLegacyBeforeExemption;
    NothingIsGood(h, wl);
    if wl.ref.namespace !in system && s.get.Answers? {
      if Bound(wl.ref) in h.targets {
        assert WellBound(wl.ref, h.targets[Bound(wl.ref)]);
        ObserveTurn(h, wl, s);
        if h.targets[Bound(wl.ref)].status.power.None? && s.legacyGet.Answers? && LegacyPresent(h, wl.ref) {
          ResumeTurn(h, wl, s);
        }
      } else if s.legacyGet.Answers? {
        if !LegacyPresent(h, wl.ref) {
          NewTargetTurn(h, wl, None, s);
        } else if wl.exempt {
          LegacyExemptionTurn(h, wl, s);
        } else {
          MigrateTurn(h, wl, s);
        }
      }
    }
  }

  lemma EnsureKeepsWf(system: seq<string>, h: Hub, wl: Listed, s: Ensure)
    requires Wf(h)
    ensures Wf(EnsurePowerTarget(system, h, wl, s).0)
  {
    hide EnsurePowerTarget;
    EnsureTurn(system, h, wl, s);
  }

  /** A turn of any other workload that is not a twin changes nothing for this one. */
  lemma OtherTurn(h: Hub, r: Hub, wl: Listed, ref: WorkloadRef)
    requires GoodTurn(h, r, wl) && wl.ref != ref && !Twins(wl.ref, ref)
    ensures Accepted(r, ref) == Accepted(h, ref)
  {
    if LegacyName(ref) == LegacyName(wl.ref) {
      assert LegacyAccepts(r, ref) == LegacyAccepts(h, ref);
    }
  }

  // ---------------------------------------------------------------- the cycle

  /** A list names each workload once. */
  predicate Consistent(list: seq<Listed>) {
    forall i, j :: 0 <= i < |list| && 0 <= j < |list| && list[i].ref == list[j].ref ==> list[i] == list[j]
  }

  predicate ListsOff(list: seq<Listed>, ref: WorkloadRef) {
    Consistent(list) && exists i :: 0 <= i < |list| && list[i].ref == ref && list[i].IsOff()
  }

  /** Some workload discovery manages has the same legacy name and kind. */
  predicate HasTwin(system: seq<string>, list: seq<Listed>, ref: WorkloadRef) {
    exists i :: 0 <= i < |list| && Twins(list[i].ref, ref) && list[i].ref.namespace !in system
  }

  /** Discovery may process this entry without harm to `ref`. */
  predicate Harmless(system: seq<string>, wl: Listed, ref: WorkloadRef) {
    (wl.ref == ref ==> wl.IsOff()) && (Twins(wl.ref, ref) ==> wl.ref.namespace in system)
  }

  /** Every restore logged since, of this workload, used a snapshot accepted at the start. */
  predicate RestoresFrom(h: Hub, r: Hub, ref: WorkloadRef) {
    && h.restores <= r.restores
    && forall i :: |h.restores| <= i < |r.restores| && r.restores[i].ref == ref ==> r.restores[i].snapshot in Accepted(h, ref)
  }

  lemma TurnPreserves(system: seq<string>, h: Hub, wl: Listed, s: Ensure, ref: WorkloadRef)
    requires Wf(h) && Harmless(system, wl, ref)
    ensures var r := EnsurePowerTarget(system, h, wl, s).0;
            Wf(r) && Preserved(h, r, ref) && RestoresFrom(h, r, ref)
  {
    hide Wf, GoodTurn, Accepted;
    var r := EnsurePowerTarget(system, h, wl, s).0;
    EnsureTurn(system, h, wl, s);
    EnsureKeepsWf(system, h, wl, s);
    hide EnsurePowerTarget;
    GoodTurnRestores(h, r, wl, ref);
    if wl.ref == ref {
      GoodTurnPreserves(h, r, wl);
    } else if wl.ref.namespace in system {
      SystemTurn(system, h, wl, s);
    } else {
      OtherTurn(h, r, wl, ref);
    }
  }

  lemma SystemTurn(system: seq<string>, h: Hub, wl: Listed, s: Ensure)
    requires wl.ref.namespace in system
    ensures EnsurePowerTarget(system, h, wl, s).0 == h
  {
  }

  lemma GoodTurnPreserves(h: Hub, r: Hub, wl: Listed)
    requires GoodTurn(h, r, wl) && wl.IsOff()
    ensures Preserved(h, r, wl.ref)
  {
  }

  lemma GoodTurnRestores(h: Hub, r: Hub, wl: Listed, ref: WorkloadRef)
    requires GoodTurn(h, r, wl)
    ensures RestoresFrom(h, r, ref)
  {
  }

  lemma PreservedChains(h: Hub, m: Hub, r: Hub, ref: WorkloadRef)
    requires Preserved(h, m, ref) && RestoresFrom(h, m, ref) && Preserved(m, r, ref) && RestoresFrom(m, r, ref)
    ensures Preserved(h, r, ref) && RestoresFrom(h, r, ref)
  {
    hide Accepted;
  }

  lemma {:induction false} EnsureAllPreserves(system: seq<string>, h: Hub, list: seq<Listed>, scripts: seq<Ensure>, ref: WorkloadRef)
    requires Wf(h) && forall i :: 0 <= i < |list| ==> Harmless(system, list[i], ref)
    ensures var r := EnsureAll(system, h, list, scripts).0;
            Wf(r) && Preserved(h, r, ref) && RestoresFrom(h, r, ref)
    decreases |list|
  {
    hide Wf, Accepted, EnsurePowerTarget, Harmless;
    if list != [] && scripts != [] {
      TurnPreserves(system, h, list[0], scripts[0], ref);
      var (h1, outcome) := EnsurePowerTarget(system, h, list[0], scripts[0]);
      if !outcome.Died? {
        EnsureAllPreserves(system, h1, list[1..], scripts[1..], ref);
        PreservedChains(h, h1, EnsureAll(system, h, list, scripts).0, ref);
      }
    }
  }

  lemma {:induction false} ExpectedContains(system: seq<string>, list: seq<Listed>, i: nat)
    requires i < |list|
    ensures NamesFor(system, list[i]) <= Expected(system, list)
  {
    if i < |list| - 1 {
      ExpectedContains(system, list[..|list| - 1], i);
    }
  }

  lemma {:induction false} ExpectedFrom(system: seq<string>, list: seq<Listed>, n: Name)
    requires n in Expected(system, list)
    ensures exists i :: 0 <= i < |list| && n in NamesFor(system, list[i])
  {
    var last := |list| - 1;
    if n !in NamesFor(system, list[last]) {
      ExpectedFrom(system, list[..last], n);
      var i :| 0 <= i < last && n in NamesFor(system, list[..last][i]);
      assert list[..last][i] == list[i];
    }
  }

  lemma {:induction false} CleanupKeeps(h: Hub, expected: set<Name>, items: seq<Item>)
    ensures var r := DeleteUnexpected(h, expected, items);
            && r.restores == h.restores
            && (forall n :: n in r.targets ==> n in h.targets && r.targets[n] == h.targets[n])
            && (forall n :: n in expected && n in h.targets ==> n in r.targets)
    decreases |items|
  {
    if items != [] {
      if items[0].name in expected {
        CleanupKeeps(h, expected, items[1..]);
      } else {
        CleanupKeeps(DeleteTarget(h, items[0].name, items[0].fate).0, expected, items[1..]);
      }
    }
  }

  /** When every record is listed and every deletion succeeds, exactly the expected ones
      are left. */
  lemma {:induction false} CleanupIsComplete(h: Hub, expected: set<Name>, items: seq<Item>)
    requires forall n :: n in h.targets && n !in expected ==> exists i :: 0 <= i < |items| && items[i].name == n
    requires forall i :: 0 <= i < |items| ==> items[i].fate.Done?
    ensures forall n :: n in DeleteUnexpected(h, expected, items).targets <==> n in h.targets && n in expected
    decreases |items|
  {
    if items != [] {
      var h1 := if items[0].name in expected then h else DeleteTarget(h, items[0].name, items[0].fate).0;
      forall n | n in h1.targets && n !in expected
        ensures exists i :: 0 <= i < |items[1..]| && items[1..][i].name == n
      {
        var i :| 0 <= i < |items| && items[i].name == n;
        assert items[1..][i - 1] == items[i];
      }
      CleanupIsComplete(h1, expected, items[1..]);
    }
  }

  /** One cycle keeps an accepted snapshot for every workload it lists as powered down. */
  lemma CyclePreserves(system: seq<string>, h: Hub, c: Cycle, ref: WorkloadRef)
    requires Wf(h) && ListsOff(c.list, ref) && ref.namespace !in system && !HasTwin(system, c.list, ref)
    ensures var r := RunDiscovery(system, h, c); Wf(r) && Preserved(h, r, ref) && RestoresFrom(h, r, ref)
  {
    hide EnsureAll, DeleteUnexpected, Expected;
    if c.discovered {
      EnsureAllPreserves(system, h, c.list, c.scripts, ref);
      var (h1, alive) := EnsureAll(system, h, c.list, c.scripts);
      if alive && c.listTargets.Answers? {
        var expected := Expected(system, c.list);
        var i :| 0 <= i < |c.list| && c.list[i].ref == ref && c.list[i].IsOff();
        ExpectedContains(system, c.list, i);
        CleanupKeeps(h1, expected, c.items);
        var r := DeleteUnexpected(h1, expected, c.items);
        CleanupPreserves(h1, r, expected, ref);
        PreservedChains(h, h1, r, ref);
      }
    }
  }

  lemma CleanupPreserves(h: Hub, r: Hub, expected: set<Name>, ref: WorkloadRef)
    requires Wf(h) && r.restores == h.restores
    requires forall n :: n in r.targets ==> n in h.targets && r.targets[n] == h.targets[n]
    requires forall n :: n in expected && n in h.targets ==> n in r.targets
    requires Bound(ref) in expected && LegacyName(ref) in expected
    ensures Wf(r) && Preserved(h, r, ref) && RestoresFrom(h, r, ref)
  {
  }

  /** The snapshot stays, over any number of cycles with any call failing, as long as
      the cycles that list workloads list this one as powered down. */
  lemma {:induction false} RunPreserves(system: seq<string>, h: Hub, run: seq<Cycle>, ref: WorkloadRef)
    requires Wf(h) && ref.namespace !in system
    requires forall i :: 0 <= i < |run| && run[i].discovered ==>
      ListsOff(run[i].list, ref) && !HasTwin(system, run[i].list, ref)
    ensures var r := After(system, h, run); Wf(r) && Preserved(h, r, ref) && RestoresFrom(h, r, ref)
    decreases |run|
  {
    hide Wf, Preserved, RestoresFrom, ListsOff, HasTwin, RunDiscovery;
    if run == [] {
      SamePreserved(h, ref);
    } else {
      if run[0].discovered {
        CyclePreserves(system, h, run[0], ref);
      } else {
        SamePreserved(h, ref);
        UndiscoveredCycle(system, h, run[0]);
      }
      var h1 := RunDiscovery(system, h, run[0]);
      RunPreserves(system, h1, run[1..], ref);
      PreservedChains(h, h1, After(system, h, run), ref);
    }
  }

  lemma SamePreserved(h: Hub, ref: WorkloadRef)
    ensures Preserved(h, h, ref) && RestoresFrom(h, h, ref)
  {
  }

  lemma UndiscoveredCycle(system: seq<string>, h: Hub, c: Cycle)
    requires !c.discovered
    ensures RunDiscovery(system, h, c) == h
  {
  }

  // ---------------------------------------------------------------- the condition is exact

  const ALL_DONE := Ensure(Answers, Answers, Done, [StatusTry(Answers, Done, false)], Done, Done, Done, Done, Answers, Done, Done)

  /** The first read fails and the turn ends. */
  const UNREADABLE := ALL_DONE.(get := Fails)

  const PROOF := Status(Some(Snap(true, true, Some(1), Some(false))), "", Some(Off), Observed(0, true), "")

  function Unreadable(n: nat): seq<Ensure> {
    seq(n, _ => UNREADABLE)
  }

  lemma {:induction false} UnreadableTurns(system: seq<string>, h: Hub, list: seq<Listed>, n: nat, rest: seq<Ensure>)
    requires n <= |list|
    ensures EnsureAll(system, h, list, Unreadable(n) + rest) == EnsureAll(system, h, list[n..], rest)
    decreases n
  {
    if n == 0 {
      assert Unreadable(0) + rest == rest && list[0..] == list;
    } else {
      var scripts := Unreadable(n) + rest;
      assert scripts[0] == UNREADABLE && scripts[1..] == Unreadable(n - 1) + rest;
      UnreadableTurns(system, h, list[1..], n - 1, rest);
      assert list[1..][n - 1..] == list[n..];
    }
  }

  /** A system namespace: the workload is skipped, and cleanup deletes its record. */
  lemma SystemNamespaceLoses(system: seq<string>, list: seq<Listed>, ref: WorkloadRef) returns (h: Hub, c: Cycle)
    requires ref.namespace in system
    ensures Wf(h) && c.discovered && c.list == list && Accepted(h, ref) != {}
    ensures Accepted(RunDiscovery(system, h, c), ref) == {}
  {
    h := Hub(map[Bound(ref) := PowerTarget(ref, PROOF)], []);
    c := Cycle(true, list, Unreadable(|list|) + [], Answers, [Item(Bound(ref), Done)]);
    UnreadableTurns(system, h, list, |list|, []);
    var expected := Expected(system, list);
    if Bound(ref) in expected {
      ExpectedFrom(system, list, Bound(ref));
    }
    assert BoundAccepts(h, ref);
    assert RunDiscovery(system, h, c) == DeleteUnexpected(h, expected, c.items);
    assert c.items[1..] == [];
    assert DeleteUnexpected(h, expected, c.items).targets == map[];
  }

  /** The twin's half-finished migration adopts or drops the record. */
  lemma TwinTakes(system: seq<string>, h: Hub, t: Listed, ref: WorkloadRef)
    requires Twins(t.ref, ref) && t.ref.namespace !in system
    requires h == Hub(map[LegacyName(ref) := PowerTarget(ref.(uid := ""), PROOF), Bound(t.ref) := PowerTarget(t.ref, EMPTY)], [])
    ensures Accepted(EnsurePowerTarget(system, h, t, ALL_DONE).0, ref) == {}
  {
    var legacy := h.targets[LegacyName(ref)];
    var previous := Inherited(legacy, t);
    assert !Ambiguous(legacy, t);
    var held := if previous.Some? then previous.value.(power := None) else EMPTY;
    var h1 := UpdateObservedState(h, held, t, Done).0;
    var h2 := DeleteTarget(h1, LegacyName(ref), Done).0;
    assert LegacyName(ref) !in h2.targets && Bound(ref) !in h2.targets;
    assert EnsurePowerTarget(system, h, t, ALL_DONE) == if t.exempt then RestoreBeforeExemption(h2, t, ALL_DONE) else (h2, Kept);
  }

  lemma TwinLoses(system: seq<string>, list: seq<Listed>, ref: WorkloadRef) returns (h: Hub, c: Cycle)
    requires HasTwin(system, list, ref)
    ensures Wf(h) && c.discovered && c.list == list && Accepted(h, ref) != {}
    ensures Accepted(RunDiscovery(system, h, c), ref) == {}
  {
    var k :| 0 <= k < |list| && Twins(list[k].ref, ref) && list[k].ref.namespace !in system;
    var t := list[k];
    h := Hub(map[LegacyName(ref) := PowerTarget(ref.(uid := ""), PROOF), Bound(t.ref) := PowerTarget(t.ref, EMPTY)], []);
    c := Cycle(true, list, Unreadable(k) + [ALL_DONE], Fails, []);
    assert LegacyAccepts(h, ref);
    TwinTakes(system, h, t, ref);
    UnreadableTurns(system, h, list, k, [ALL_DONE]);
    LastTurn(system, h, list[k..], ALL_DONE);
    assert RunDiscovery(system, h, c) == EnsureAll(system, h, list[k..], [ALL_DONE]).0;
  }

  lemma LastTurn(system: seq<string>, h: Hub, list: seq<Listed>, s: Ensure)
    requires list != []
    ensures EnsureAll(system, h, list, [s]).0 == EnsurePowerTarget(system, h, list[0], s).0
  {
    hide EnsurePowerTarget;
    var (h1, outcome) := EnsurePowerTarget(system, h, list[0], s);
    assert [s][1..] == [];
    assert EnsureAll(system, h1, list[1..], []).0 == h1;
  }

  /** For a workload listed as powered down, every cycle keeps an accepted snapshot
      exactly when its namespace is not a system namespace and no other managed workload
      of its kind answers to its legacy name. */
  lemma CyclePreservesExactlyWhen(system: seq<string>, list: seq<Listed>, ref: WorkloadRef)
    requires ListsOff(list, ref)
    ensures (forall h: Hub, c: Cycle :: Wf(h) && c.discovered && c.list == list && Accepted(h, ref) != {} ==>
               Accepted(RunDiscovery(system, h, c), ref) != {})
            <==> ref.namespace !in system && !HasTwin(system, list, ref)
  {
    hide Wf, Accepted, RunDiscovery, HasTwin, ListsOff;
    if ref.namespace in system {
      var h, c := SystemNamespaceLoses(system, list, ref);
    } else if HasTwin(system, list, ref) {
      var h, c := TwinLoses(system, list, ref);
    } else {
      forall h: Hub, c: Cycle | Wf(h) && c.discovered && c.list == list && Accepted(h, ref) != {}
        ensures Accepted(RunDiscovery(system, h, c), ref) != {}
      {
        CyclePreserves(system, h, c, ref);
      }
    }
  }

  /** Twins exist: legacy names join namespace and name without escaping. */
  lemma LegacyNamesCollide()
    ensures var a := WorkloadRef("", "apps/v1", "team", "a--b", Deployment, "1");
            var b := WorkloadRef("", "apps/v1", "team--a", "b", Deployment, "2");
            Twins(a, b)
  {
    assert "team" + "--" + "a--b" == "team--a" + "--" + "b";
  }

  /** The well-formedness of UID-bound records matters: a snapshot stored before the first
      observation is overwritten by a resumed migration of a record that has none. */
  lemma UnobservedSnapshotIsOverwritten(wl: Listed)
    requires wl.IsOff() && wl.ref.uid != ""
    ensures var h := Hub(map[Bound(wl.ref) := PowerTarget(wl.ref, PROOF.(power := None)), LegacyName(wl.ref) := PowerTarget(wl.ref, EMPTY)], []);
            Accepted(h, wl.ref) != {} && Accepted(EnsurePowerTarget([], h, wl, ALL_DONE).0, wl.ref) == {}
  {
    var h := Hub(map[Bound(wl.ref) := PowerTarget(wl.ref, PROOF.(power := None)), LegacyName(wl.ref) := PowerTarget(wl.ref, EMPTY)], []);
    assert BoundAccepts(h, wl.ref);
    var h1 := UpdateObservedState(h, EMPTY, wl, Done).0;
    var h2 := DeleteTarget(h1, LegacyName(wl.ref), Done).0;
    assert !BoundAccepts(h2, wl.ref) && LegacyName(wl.ref) !in h2.targets;
    assert EnsurePowerTarget([], h, wl, ALL_DONE) == if wl.exempt then RestoreBeforeExemption(h2, wl, ALL_DONE) else (h2, Kept);
  }

  /** A resumed migration would put the legacy status over a record that holds the accepted
      snapshot, or under an identity that does not accept it. */
  predicate Overwritable(h: Hub, wl: Listed) {
    && Bound(wl.ref) in h.targets && h.targets[Bound(wl.ref)].status.power.None? && LegacyPresent(h, wl.ref)
    && var existing, legacy := h.targets[Bound(wl.ref)], h.targets[LegacyName(wl.ref)];
       && Inherited(legacy, wl).Some?
       && !(legacy.status.HasSnapshot() && existing.ref.uid == wl.ref.uid && existing.ref.kind == wl.ref.kind)
  }

  lemma ExemptionKeeps(h: Hub, wl: Listed, s: Ensure)
    requires wl.IsOff() && Accepted(h, wl.ref) != {}
    ensures Accepted(RestoreBeforeExemption(h, wl, s).0, wl.ref) != {}
  {
  }

  lemma ObserveKeeps(h: Hub, wl: Listed, s: Ensure)
    requires wl.IsOff() && Accepted(h, wl.ref) != {} && Bound(wl.ref) in h.targets
    ensures Accepted(BindAndObserve(h, wl, h.targets[Bound(wl.ref)], s).0, wl.ref) != {}
  {
    hide RestoreBeforeExemption;
    var existing := h.targets[Bound(wl.ref)];
    if existing.ref.uid == wl.ref.uid && existing.ref.kind == wl.ref.kind {
      ExemptionKeeps(h, wl, s);
    } else {
      var h1 := WriteStatus(h, Bound(wl.ref), EMPTY, s.clear).0;
      var h2 := WriteRef(h1, Bound(wl.ref), wl.ref, s.bind).0;
      assert LegacyAccepts(h, wl.ref) && LegacyAccepts(h1, wl.ref) && LegacyAccepts(h2, wl.ref);
      ExemptionKeeps(h2, wl, s);
    }
  }

  lemma ResumeKeeps(h: Hub, wl: Listed, s: Ensure)
    requires wl.IsOff() && Accepted(h, wl.ref) != {} && Bound(wl.ref) in h.targets && LegacyPresent(h, wl.ref)
    requires h.targets[Bound(wl.ref)].status.power.None? && !Overwritable(h, wl)
    ensures Accepted(Resume(h, wl, h.targets[Bound(wl.ref)], h.targets[LegacyName(wl.ref)], s).0, wl.ref) != {}
  {
    hide RestoreBeforeExemption;
    var existing, legacy := h.targets[Bound(wl.ref)], h.targets[LegacyName(wl.ref)];
    var previous := Inherited(legacy, wl);
    if !Ambiguous(legacy, wl) {
      var held := if previous.Some? then previous.value.(power := None) else existing.status;
      var (h1, observed) := UpdateObservedState(h, held, wl, s.observe);
      if observed.Ok? {
        assert BoundAccepts(h1, wl.ref);
        var h2 := DeleteTarget(h1, LegacyName(wl.ref), s.deleteLegacy).0;
        assert BoundAccepts(h2, wl.ref);
        ExemptionKeeps(h2, wl, s);
      }
    }
  }

  /** A turn keeps an accepted snapshot of a powered-down workload, from any store. */
  lemma TurnKeeps(system: seq<string>, h: Hub, wl: Listed, s: Ensure)
    requires wl.IsOff() && Accepted(h, wl.ref) != {} && !Overwritable(h, wl)
    ensures Accepted(EnsurePowerTarget(system, h, wl, s).0, wl.ref) != {}
  {
    hide Resume, BindAndObserve, Migrate, NewPowerTarget, RestoreLegacyBeforeExemption, Accepted, Overwritable;
    if wl.ref.namespace !in system && s.get.Answers? {
      if Bound(wl.ref) in h.targets {
        ObserveKeeps(h, wl, s);
        if h.targets[Bound(wl.ref)].status.power.None? && s.legacyGet.Answers? && LegacyPresent(h, wl.ref) {
          ResumeKeeps(h, wl, s);
        }
      } else if s.legacyGet.Answers? {
        if !LegacyPresent(h, wl.ref) {
          NewTargetTurn(h, wl, None, s);
        } else if wl.exempt {
          LegacyExemptionTurn(h, wl, s);
        } else {
          MigrateTurn(h, wl, s);
        }
      }
    }
  }

  lemma OverwritableLoses(system: seq<string>, h: Hub, wl: Listed)
    requires wl.IsOff() && wl.ref.namespace !in system && Overwritable(h, wl)
    ensures Accepted(EnsurePowerTarget(system, h, wl, ALL_DONE).0, wl.ref) == {}
  {
    hide RestoreBeforeExemption;
    var legacy := h.targets[LegacyName(wl.ref)];
    var h1 := WriteStatus(h, Bound(wl.ref), Refreshed(legacy.status, wl), Done).0;
    var h2 := DeleteTarget(h1, LegacyName(wl.ref), Done).0;
    assert !BoundAccepts(h2, wl.ref) && LegacyName(wl.ref) !in h2.targets;
    assert EnsurePowerTarget(system, h, wl, ALL_DONE) == if wl.exempt then RestoreBeforeExemption(h2, wl, ALL_DONE) else (h2, Kept);
    ExemptionMakesNone(h2, wl);
  }

  lemma ExemptionMakesNone(h: Hub, wl: Listed)
    requires Accepted(h, wl.ref) == {}
    ensures Accepted(RestoreBeforeExemption(h, wl, ALL_DONE).0, wl.ref) == {}
  {
  }

  /** From any store, well-formed or not: whichever calls fail, the turn of a workload listed
      as powered down keeps an accepted snapshot exactly when no resumed migration would
      overwrite it. */
  lemma TurnKeepsExactlyWhen(system: seq<string>, h: Hub, wl: Listed)
    requires wl.IsOff() && wl.ref.namespace !in system && Accepted(h, wl.ref) != {}
    ensures (forall s: Ensure :: Accepted(EnsurePowerTarget(system, h, wl, s).0, wl.ref) != {}) <==> !Overwritable(h, wl)
  {
    hide EnsurePowerTarget, Accepted, Overwritable;
    if Overwritable(h, wl) {
      OverwritableLoses(system, h, wl);
    } else {
      forall s: Ensure
        ensures Accepted(EnsurePowerTarget(system, h, wl, s).0, wl.ref) != {}
      {
        TurnKeeps(system, h, wl, s);
      }
    }
  }

  // ---------------------------------------------------------------- and the migration gets done

  /** An undisturbed turn moves the accepted legacy snapshot under the UID-bound name and
      removes the legacy record, also when an earlier turn was interrupted halfway. */
  lemma MigrationCompletes(system: seq<string>, h: Hub, wl: Listed)
    requires Wf(h) && wl.ref.namespace !in system && wl.IsOff() && !wl.exempt && LegacyAccepts(h, wl.ref)
    requires Bound(wl.ref) in h.targets ==> h.targets[Bound(wl.ref)].status.power.None?
    ensures var r := EnsurePowerTarget(system, h, wl, ALL_DONE).0;
            && LegacyName(wl.ref) !in r.targets && BoundAccepts(r, wl.ref)
            && Accepted(r, wl.ref) == {h.targets[LegacyName(wl.ref)].status.snapshot.value}
            && r.targets[Bound(wl.ref)].status == Refreshed(h.targets[LegacyName(wl.ref)].status, wl)
  {
    var legacy := h.targets[LegacyName(wl.ref)];
    assert Inherited(legacy, wl) == Some(legacy.status);
    if Bound(wl.ref) in h.targets {
      assert WellBound(wl.ref, h.targets[Bound(wl.ref)]);
      var h1 := WriteStatus(h, Bound(wl.ref), Refreshed(legacy.status, wl), Done).0;
      assert EnsurePowerTarget(system, h, wl, ALL_DONE).0 == DeleteTarget(h1, LegacyName(wl.ref), Done).0;
    } else {
      var h1 := CreateTarget(h, Bound(wl.ref), PowerTarget(wl.ref, EMPTY), Done).0;
      var h2 := WriteStatus(h1, Bound(wl.ref), Refreshed(legacy.status, wl), Done).0;
      assert NewPowerTarget(h, wl, Some(legacy.status), ALL_DONE) == (h2, Ok);
      assert EnsurePowerTarget(system, h, wl, ALL_DONE).0 == DeleteTarget(h2, LegacyName(wl.ref), Done).0;
    }
  }
}
