/** The discovery loop as it works on the stored PowerTargets
    (internal/adapters/driving/background/discovery.go).  Every method is tied to its
    function in DiscoverySpec. */
module Discovery {
  import opened Domain
  import opened Faults
  import Spec = DiscoverySpec
  import opened DiscoverySpec

  class DiscoveryLoop {
    const system: seq<string>
    var targets: map<Name, PowerTarget>
    ghost var restores: seq<Restore>

    ghost function View(): Hub
      reads this
    {
      Hub(targets, restores)
    }

    constructor (system: seq<string>)
      ensures this.system == system && View() == Hub(map[], [])
    {
      this.system := system;
      targets, restores := map[], [];
    }

    // -------------------------------------------------------------- client calls

    method Create(n: Name, t: PowerTarget, f: Fate) returns (reply: Reply)
      modifies this
      ensures (View(), reply) == CreateTarget(old(View()), n, t, f)
    {
      var fits := n !in targets;
      if fits && f.Commits() {
        targets := targets[n := t];
      }
      reply := ReplyTo(f, fits);
    }

    method UpdateStatus(n: Name, st: Status, f: Fate) returns (reply: Reply)
      modifies this
      ensures (View(), reply) == WriteStatus(old(View()), n, st, f)
    {
      var fits := n in targets;
      if fits && f.Commits() {
        targets := targets[n := targets[n].(status := st)];
      }
      reply := ReplyTo(f, fits);
    }

    method UpdateRef(n: Name, ref: WorkloadRef, f: Fate) returns (reply: Reply)
      modifies this
      ensures (View(), reply) == WriteRef(old(View()), n, ref, f)
    {
      var fits := n in targets;
      if fits && f.Commits() {
        targets := targets[n := targets[n].(ref := ref)];
      }
      reply := ReplyTo(f, fits);
    }

    method Delete(n: Name, f: Fate) returns (reply: Reply)
      modifies this
      ensures (View(), reply) == DeleteTarget(old(View()), n, f)
    {
      var fits := n in targets;
      if fits && f.Commits() {
        targets := targets - {n};
      }
      reply := ReplyTo(f, fits);
    }

    method ExecutorRestore(ref: WorkloadRef, snapshot: Snap, f: Fate) returns (reply: Reply)
      modifies this
      ensures (View(), reply) == RestoreWorkload(old(View()), ref, snapshot, f)
    {
      var fits := Restorable(ref.kind, snapshot);
      if fits && f.Commits() {
        restores := restores + [Restore(ref, snapshot)];
      }
      reply := ReplyTo(f, fits);
    }

    // -------------------------------------------------------------- one workload

    method UpdateObservedState(st: Status, wl: Listed, f: Fate) returns (reply: Reply)
      modifies this
      ensures (View(), reply) == Spec.UpdateObservedState(old(View()), st, wl, f)
    {
      var next := Refreshed(st, wl);
      if next == st {
        return Ok;
      }
      reply := UpdateStatus(Bound(wl.ref), next, f);
    }

    method NewPowerTarget(wl: Listed, previous: Option<Status>, s: Ensure) returns (reply: Reply)
      modifies this
      ensures (View(), reply) == Spec.NewPowerTarget(old(View()), wl, previous, s)
    {
      hide WriteNewStatus;
      reply := Create(Bound(wl.ref), PowerTarget(wl.ref, EMPTY), s.create);
      if reply.Ok? {
        reply := StatusWithRetry(wl, previous, s.tries);
      }
    }

    /** At most eight tries; only the first writes without reading again. */
    method StatusWithRetry(wl: Listed, previous: Option<Status>, tries: seq<StatusTry>) returns (reply: Reply)
      modifies this
      ensures (View(), reply) == WriteNewStatus(old(View()), wl, previous, tries, MAX_STATUS_TRIES, true)
    {
      var n, firstAttempt, again := 0, true, true;
      reply := Error;
      while again && n < MAX_STATUS_TRIES && n < |tries|
        invariant n <= MAX_STATUS_TRIES && n <= |tries|
        invariant firstAttempt <==> n == 0
        invariant again ==> reply.Error?
        invariant WriteNewStatus(old(View()), wl, previous, tries, MAX_STATUS_TRIES, true)
          == if again then WriteNewStatus(View(), wl, previous, tries[n..], MAX_STATUS_TRIES - n, firstAttempt) else (View(), reply)
        decreases |tries| - n
      {
        assert tries[n..][0] == tries[n] && tries[n..][1..] == tries[n + 1..];
        reply := TryStatus(wl, previous, tries[n], firstAttempt);
        again := reply.Error? && tries[n].retriable;
        firstAttempt := false;
        n := n + 1;
      }
    }

    method TryStatus(wl: Listed, previous: Option<Status>, t: StatusTry, firstAttempt: bool) returns (reply: Reply)
      modifies this
      ensures (View(), reply) ==
              (var n, h := Bound(wl.ref), old(View());
               if !firstAttempt && t.read.Dies? then (h, Dead)
               else if n !in h.targets || (!firstAttempt && t.read.Fails?) then (h, Error)
               else WriteStatus(h, n, Refreshed(if previous.Some? then previous.value else if firstAttempt then EMPTY else h.targets[n].status, wl), t.fate))
    {
      var n := Bound(wl.ref);
      var current := EMPTY;
      if !firstAttempt && t.read.Dies? {
        return Dead;
      }
      if n !in targets || (!firstAttempt && t.read.Fails?) {
        return Error;
      }
      if !firstAttempt {
        current := targets[n].status;
      }
      if previous.Some? {
        current := previous.value;
      }
      reply := UpdateStatus(n, Refreshed(current, wl), t.fate);
    }

    method RestoreBeforeExemption(wl: Listed, s: Ensure) returns (outcome: Outcome)
      modifies this
      ensures (View(), outcome) == Spec.RestoreBeforeExemption(old(View()), wl, s)
    {
      var n := Bound(wl.ref);
      if s.exemptGet.Dies? {
        return Died;
      }
      if s.exemptGet.Fails? {
        return Erred;
      }
      if n !in targets {
        return Kept;
      }
      var target := targets[n];
      if target.ref.uid == "" || target.ref.uid != wl.ref.uid {
        return Erred;
      }
      var reply;
      if target.status.HasSnapshot() && wl.IsOff() {
        reply := ExecutorRestore(wl.ref, target.status.snapshot.value, s.restore);
      } else {
        reply := Delete(n, s.deleteTarget);
      }
      outcome := Ending(reply, Kept);
    }

    method RestoreLegacyBeforeExemption(wl: Listed, legacy: PowerTarget, s: Ensure) returns (outcome: Outcome)
      modifies this
      ensures (View(), outcome) == Spec.RestoreLegacyBeforeExemption(old(View()), wl, legacy, s)
    {
      if legacy.ref.uid != "" && legacy.ref.uid != wl.ref.uid {
        return Erred;
      }
      var reply;
      if !wl.IsOff() {
        reply := Delete(LegacyName(wl.ref), s.deleteLegacy);
        return Ending(reply, Kept);
      }
      if !LegacySnapshotProvesPoweredDown(legacy, wl) {
        return Erred;
      }
      reply := ExecutorRestore(wl.ref, legacy.status.snapshot.value, s.restore);
      outcome := Ending(reply, Kept);
    }

    method Resume(wl: Listed, existing: PowerTarget, legacy: PowerTarget, s: Ensure) returns (outcome: Outcome)
      modifies this
      ensures (View(), outcome) == Spec.Resume(old(View()), wl, existing, legacy, s)
    {
      hide Spec.RestoreBeforeExemption, DeleteTarget, Spec.UpdateObservedState;
      var previous := Inherited(legacy, wl);
      if wl.IsOff() && legacy.status.snapshot.Some? && previous.None? {
        return Erred;
      }
      var held := existing.status;
      if previous.Some? {
        held := previous.value.(power := None);
      }
      var reply := UpdateObservedState(held, wl, s.observe);
      if !reply.Ok? {
        return Ending(reply, Kept);
      }
      reply := Delete(LegacyName(wl.ref), s.deleteLegacy);
      if !reply.Ok? {
        return Ending(reply, Kept);
      }
      if wl.exempt {
        outcome := RestoreBeforeExemption(wl, s);
      } else {
        outcome := Kept;
      }
    }

    method BindAndObserve(wl: Listed, existing: PowerTarget, s: Ensure) returns (outcome: Outcome)
      modifies this
      ensures (View(), outcome) == Spec.BindAndObserve(old(View()), wl, existing, s)
    {
      hide Spec.RestoreBeforeExemption, WriteStatus, WriteRef, Spec.UpdateObservedState;
      var st := existing.status;
      var reply;
      if existing.ref.uid != wl.ref.uid || existing.ref.kind != wl.ref.kind {
        st := EMPTY;
        reply := UpdateStatus(Bound(wl.ref), st, s.clear);
        if !reply.Ok? {
          return Ending(reply, Kept);
        }
        reply := UpdateRef(Bound(wl.ref), wl.ref, s.bind);
        if !reply.Ok? {
          return Ending(reply, Kept);
        }
      }
      if wl.exempt {
        outcome := RestoreBeforeExemption(wl, s);
        return;
      }
      reply := UpdateObservedState(st, wl, s.observe);
      outcome := Ending(reply, Kept);
    }

    method Migrate(wl: Listed, legacy: PowerTarget, s: Ensure) returns (outcome: Outcome)
      modifies this
      ensures (View(), outcome) == Spec.Migrate(old(View()), wl, legacy, s)
    {
      hide Spec.NewPowerTarget, DeleteTarget;
      var previous := Inherited(legacy, wl);
      if wl.IsOff() && legacy.status.snapshot.Some? && previous.None? {
        return Erred;
      }
      var reply := NewPowerTarget(wl, previous, s);
      if !reply.Ok? {
        return Ending(reply, Kept);
      }
      reply := Delete(LegacyName(wl.ref), s.deleteLegacy);
      outcome := Ending(reply, Created);
    }

    method EnsurePowerTarget(wl: Listed, s: Ensure) returns (outcome: Outcome)
      modifies this
      ensures (View(), outcome) == Spec.EnsurePowerTarget(system, old(View()), wl, s)
    {
      hide Spec.Resume, Spec.BindAndObserve, Spec.Migrate, Spec.NewPowerTarget, Spec.RestoreLegacyBeforeExemption;
      if wl.ref.namespace in system {
        return Kept;
      }
      if !s.get.Answers? {
        return if s.get.Dies? then Died else Erred;
      }
      var n, legacyName := Bound(wl.ref), LegacyName(wl.ref);
      if n in targets && targets[n].status.power.Some? {
        outcome := BindAndObserve(wl, targets[n], s);
        return;
      }
      if !s.legacyGet.Answers? {
        return if s.legacyGet.Dies? then Died else Erred;
      }
      var hasLegacy := legacyName in targets && targets[legacyName].ref.kind == wl.ref.kind;
      if n in targets {
        if hasLegacy {
          outcome := Resume(wl, targets[n], targets[legacyName], s);
        } else {
          outcome := BindAndObserve(wl, targets[n], s);
        }
      } else if hasLegacy {
        if wl.exempt {
          outcome := RestoreLegacyBeforeExemption(wl, targets[legacyName], s);
        } else {
          outcome := Migrate(wl, targets[legacyName], s);
        }
      } else if wl.exempt {
        outcome := Kept;
      } else {
        var reply := NewPowerTarget(wl, None, s);
        outcome := Ending(reply, Created);
      }
    }

    // -------------------------------------------------------------- the cycle

    method ExpectedNames(list: seq<Listed>) returns (expected: set<Name>)
      ensures expected == Expected(system, list)
    {
      expected := {};
      for i := 0 to |list|
        invariant expected == Expected(system, list[..i])
      {
        assert list[..i + 1][..i] == list[..i];
        var wl := list[i];
        if wl.ref.namespace !in system {
          if wl.exempt {
            if wl.IsOff() {
              expected := expected + {Bound(wl.ref)} + {LegacyName(wl.ref)};
            }
          } else {
            expected := expected + {Bound(wl.ref)};
            if wl.IsOff() {
              expected := expected + {LegacyName(wl.ref)};
            }
          }
        }
      }
      assert list[..|list|] == list;
    }

    method CleanupOrphans(list: seq<Listed>, listTargets: Read, items: seq<Item>)
      modifies this
      ensures View() == if listTargets.Answers? then DeleteUnexpected(old(View()), Expected(system, list), items) else old(View())
    {
      hide Expected, DeleteTarget;
      var expected := ExpectedNames(list);
      if !listTargets.Answers? {
        return;
      }
      var n, alive := 0, true;
      while alive && n < |items|
        invariant n <= |items|
        invariant DeleteUnexpected(old(View()), expected, items)
          == if alive then DeleteUnexpected(View(), expected, items[n..]) else View()
        decreases |items| - n
      {
        assert items[n..][0] == items[n] && items[n..][1..] == items[n + 1..];
        if items[n].name !in expected {
          var reply := Delete(items[n].name, items[n].fate);
          alive := !reply.Dead?;
        }
        n := n + 1;
      }
    }

    method RunDiscovery(c: Cycle)
      modifies this
      ensures View() == Spec.RunDiscovery(system, old(View()), c)
    {
      hide Spec.EnsurePowerTarget, DeleteUnexpected, Expected;
      if !c.discovered {
        return;
      }
      var n, alive := 0, true;
      while alive && n < |c.list|
        invariant n <= |c.list| && (alive ==> n <= |c.scripts|)
        invariant EnsureAll(system, old(View()), c.list, c.scripts)
          == if alive then EnsureAll(system, View(), c.list[n..], c.scripts[n..]) else (View(), false)
        decreases |c.list| - n, alive
      {
        if n == |c.scripts| {
          alive := false;
        } else {
          assert c.list[n..][0] == c.list[n] && c.list[n..][1..] == c.list[n + 1..];
          assert c.scripts[n..][0] == c.scripts[n] && c.scripts[n..][1..] == c.scripts[n + 1..];
          var outcome := EnsurePowerTarget(c.list[n], c.scripts[n]);
          alive := !outcome.Died?;
          n := n + 1;
        }
      }
      if alive {
        CleanupOrphans(c.list, c.listTargets, c.items);
      }
    }
  }
}
