/** One discovery cycle as a function of the stored PowerTargets, the workload list and the
    script of its API calls (internal/adapters/driving/background/discovery.go).

    Reads are current or fail; every write may be refused, lose its reply or kill the
    process. */
module DiscoverySpec {
  import opened Domain
  import opened Faults

  // ---------------------------------------------------------------- records

  /** A hashed, UID-bound name, or the name earlier releases used.  No hashed name
      contains "--", so the two never meet. */
  datatype Name = Bound(ref: WorkloadRef) | Legacy(text: string)

  function LegacyName(ref: WorkloadRef): Name {
    Legacy(ref.namespace + "--" + ref.name)
  }

  datatype Snap = Snap(available: bool, captured: bool, replicas: Option<int>, suspended: Option<bool>)

  /** `power` is `None` until discovery first writes the observation; `execution` stands
      for actions, failures, savings and the decision; `facts` for labels and ownership. */
  datatype Status = Status(
    snapshot: Option<Snap>, execution: string, power: Option<PowerState>, seen: Observed, facts: string) {
    predicate HasSnapshot() {
      snapshot.Some? && snapshot.value.available
    }
  }

  const EMPTY := Status(None, "", None, Observed(0, false), "")

  datatype PowerTarget = PowerTarget(ref: WorkloadRef, status: Status)

  /** A workload as the cycle listed it. */
  datatype Listed = Listed(ref: WorkloadRef, seen: Observed, facts: string, exempt: bool) {
    predicate IsOff() {
      PowerStateFromObserved(seen, ref.kind).Off?
    }
  }

  datatype Restore = Restore(ref: WorkloadRef, snapshot: Snap)

  /** The control namespace, and the restores discovery asked the executor for. */
  datatype Hub = Hub(targets: map<Name, PowerTarget>, restores: seq<Restore>)

  // ---------------------------------------------------------------- calls

  datatype Read = Answers | Fails | Dies

  function CreateTarget(h: Hub, n: Name, t: PowerTarget, f: Fate): (Hub, Reply) {
    var fits := n !in h.targets;
    (if fits && f.Commits() then h.(targets := h.targets[n := t]) else h, ReplyTo(f, fits))
  }

  function WriteStatus(h: Hub, n: Name, st: Status, f: Fate): (Hub, Reply) {
    var fits := n in h.targets;
    (if fits && f.Commits() then h.(targets := h.targets[n := h.targets[n].(status := st)]) else h, ReplyTo(f, fits))
  }

  function WriteRef(h: Hub, n: Name, ref: WorkloadRef, f: Fate): (Hub, Reply) {
    var fits := n in h.targets;
    (if fits && f.Commits() then h.(targets := h.targets[n := h.targets[n].(ref := ref)]) else h, ReplyTo(f, fits))
  }

  function DeleteTarget(h: Hub, n: Name, f: Fate): (Hub, Reply) {
    var fits := n in h.targets;
    (if fits && f.Commits() then h.(targets := h.targets - {n}) else h, ReplyTo(f, fits))
  }

  predicate Restorable(kind: Kind, snapshot: Snap) {
    if kind.CronJob? then snapshot.suspended.Some? else snapshot.replicas.Some?
  }

  function RestoreWorkload(h: Hub, ref: WorkloadRef, snapshot: Snap, f: Fate): (Hub, Reply) {
    var fits := Restorable(ref.kind, snapshot);
    (if fits && f.Commits() then h.(restores := h.restores + [Restore(ref, snapshot)]) else h, ReplyTo(f, fits))
  }

  // ---------------------------------------------------------------- ensurePowerTarget

  datatype Outcome = Created | Kept | Erred | Died

  function Ending(reply: Reply, good: Outcome): Outcome {
    match reply
    case Ok => good
    case Error => Erred
    case Dead => Died
  }

  /** One try of the status write that follows a create; `retriable` says whether its
      error was a conflict or a not-found. */
  datatype StatusTry = StatusTry(read: Read, fate: Fate, retriable: bool)

  const MAX_STATUS_TRIES := 8

  datatype Ensure = Ensure(
    get: Read, legacyGet: Read, create: Fate, tries: seq<StatusTry>, clear: Fate, bind: Fate,
    observe: Fate, deleteLegacy: Fate, exemptGet: Read, deleteTarget: Fate, restore: Fate)

  /** What an earlier release's record proves about a workload that is still down.  Zero
      replicas prove nothing: that release could store the value it had just written. */
  predicate ProvesDown(legacy: PowerTarget, kind: Kind) {
    && legacy.status.HasSnapshot() && legacy.status.snapshot.value.captured && legacy.status.power == Some(Off)
    && var snapshot := legacy.status.snapshot.value;
       if kind.CronJob? then snapshot.suspended.Some? else snapshot.replicas.Some? && snapshot.replicas.value > 0
  }

  predicate LegacySnapshotProvesPoweredDown(legacy: PowerTarget, wl: Listed) {
    wl.IsOff() && ProvesDown(legacy, wl.ref.kind)
  }

  /** The status a legacy record hands to its UID-bound replacement. */
  function Inherited(legacy: PowerTarget, wl: Listed): Option<Status> {
    if legacy.ref.uid != "" && legacy.ref.uid == wl.ref.uid then Some(legacy.status)
    else if legacy.ref.uid == "" && LegacySnapshotProvesPoweredDown(legacy, wl) then Some(legacy.status)
    else None
  }

  predicate Ambiguous(legacy: PowerTarget, wl: Listed) {
    wl.IsOff() && legacy.status.snapshot.Some? && Inherited(legacy, wl).None?
  }

  function Refreshed(st: Status, wl: Listed): Status {
    st.(power := Some(PowerStateFromObserved(wl.seen, wl.ref.kind)), seen := wl.seen, facts := wl.facts)
  }

  /** Writes only when the projection changed. */
  function UpdateObservedState(h: Hub, st: Status, wl: Listed, f: Fate): (Hub, Reply) {
    if Refreshed(st, wl) == st then (h, Ok) else WriteStatus(h, Bound(wl.ref), Refreshed(st, wl), f)
  }

  function WriteNewStatus(h: Hub, wl: Listed, previous: Option<Status>, tries: seq<StatusTry>, left: nat, first: bool): (Hub, Reply)
    decreases left
  {
    var n := Bound(wl.ref);
    if left == 0 || tries == [] then (h, Error) else
    var t := tries[0];
    if !first && t.read.Dies? then (h, Dead)
    else if n !in h.targets || (!first && t.read.Fails?) then
      if t.retriable then WriteNewStatus(h, wl, previous, tries[1..], left - 1, false) else (h, Error)
    else
      var current := if previous.Some? then previous.value else if first then EMPTY else h.targets[n].status;
      var (h1, reply) := WriteStatus(h, n, Refreshed(current, wl), t.fate);
      if reply.Error? && t.retriable then WriteNewStatus(h1, wl, previous, tries[1..], left - 1, false) else (h1, reply)
  }

  function NewPowerTarget(h: Hub, wl: Listed, previous: Option<Status>, s: Ensure): (Hub, Reply) {
    var (h1, created) := CreateTarget(h, Bound(wl.ref), PowerTarget(wl.ref, EMPTY), s.create);
    if !created.Ok? then (h1, created) else WriteNewStatus(h1, wl, previous, s.tries, MAX_STATUS_TRIES, true)
  }

  function RestoreBeforeExemption(h: Hub, wl: Listed, s: Ensure): (Hub, Outcome) {
    var n := Bound(wl.ref);
    if s.exemptGet.Dies? then (h, Died)
    else if s.exemptGet.Fails? then (h, Erred)
    else if n !in h.targets then (h, Kept)
    else
      var t := h.targets[n];
      if t.ref.uid == "" || t.ref.uid != wl.ref.uid then (h, Erred)
      else if t.status.HasSnapshot() && wl.IsOff() then
        var (h1, reply) := RestoreWorkload(h, wl.ref, t.status.snapshot.value, s.restore);
        (h1, Ending(reply, Kept))
      else
        var (h1, reply) := DeleteTarget(h, n, s.deleteTarget);
        (h1, Ending(reply, Kept))
  }

  function RestoreLegacyBeforeExemption(h: Hub, wl: Listed, legacy: PowerTarget, s: Ensure): (Hub, Outcome) {
    if legacy.ref.uid != "" && legacy.ref.uid != wl.ref.uid then (h, Erred)
    else if !wl.IsOff() then
      var (h1, reply) := DeleteTarget(h, LegacyName(wl.ref), s.deleteLegacy);
      (h1, Ending(reply, Kept))
    else if !LegacySnapshotProvesPoweredDown(legacy, wl) then (h, Erred)
    else
      var (h1, reply) := RestoreWorkload(h, wl.ref, legacy.status.snapshot.value, s.restore);
      (h1, Ending(reply, Kept))
  }

  /** A UID-bound record without observation resumes an interrupted migration. */
  function Resume(h: Hub, wl: Listed, existing: PowerTarget, legacy: PowerTarget, s: Ensure): (Hub, Outcome) {
    var previous := Inherited(legacy, wl);
    if Ambiguous(legacy, wl) then (h, Erred) else
    var held := if previous.Some? then previous.value.(power := None) else existing.status;
    var (h1, observed) := UpdateObservedState(h, held, wl, s.observe);
    if !observed.Ok? then (h1, Ending(observed, Kept)) else
    var (h2, deleted) := DeleteTarget(h1, LegacyName(wl.ref), s.deleteLegacy);
    if !deleted.Ok? then (h2, Ending(deleted, Kept))
    else if wl.exempt then RestoreBeforeExemption(h2, wl, s)
    else (h2, Kept)
  }

  function Observe(h: Hub, wl: Listed, st: Status, s: Ensure): (Hub, Outcome) {
    if wl.exempt then RestoreBeforeExemption(h, wl, s) else
    var (h1, reply) := UpdateObservedState(h, st, wl, s.observe);
    (h1, Ending(reply, Kept))
  }

  /** A record of another identity is cleared before it is bound to this one. */
  function BindAndObserve(h: Hub, wl: Listed, existing: PowerTarget, s: Ensure): (Hub, Outcome) {
    if existing.ref.uid == wl.ref.uid && existing.ref.kind == wl.ref.kind then Observe(h, wl, existing.status, s) else
    var (h1, cleared) := WriteStatus(h, Bound(wl.ref), EMPTY, s.clear);
    if !cleared.Ok? then (h1, Ending(cleared, Kept)) else
    var (h2, bound) := WriteRef(h1, Bound(wl.ref), wl.ref, s.bind);
    if !bound.Ok? then (h2, Ending(bound, Kept)) else Observe(h2, wl, EMPTY, s)
  }

  /** The legacy record under this workload's old name, if it has the same kind. */
  predicate LegacyPresent(h: Hub, ref: WorkloadRef) {
    LegacyName(ref) in h.targets && h.targets[LegacyName(ref)].ref.kind == ref.kind
  }

  function EnsureExisting(h: Hub, wl: Listed, s: Ensure): (Hub, Outcome)
    requires Bound(wl.ref) in h.targets
  {
    var existing := h.targets[Bound(wl.ref)];
    if existing.status.power.Some? then BindAndObserve(h, wl, existing, s)
    else if s.legacyGet.Dies? then (h, Died)
    else if s.legacyGet.Fails? then (h, Erred)
    else if LegacyPresent(h, wl.ref) then Resume(h, wl, existing, h.targets[LegacyName(wl.ref)], s)
    else BindAndObserve(h, wl, existing, s)
  }

  function Migrate(h: Hub, wl: Listed, legacy: PowerTarget, s: Ensure): (Hub, Outcome) {
    if Ambiguous(legacy, wl) then (h, Erred) else
    var (h1, created) := NewPowerTarget(h, wl, Inherited(legacy, wl), s);
    if !created.Ok? then (h1, Ending(created, Kept)) else
    var (h2, deleted) := DeleteTarget(h1, LegacyName(wl.ref), s.deleteLegacy);
    (h2, Ending(deleted, Created))
  }

  function EnsureMissing(h: Hub, wl: Listed, s: Ensure): (Hub, Outcome) {
    if s.legacyGet.Dies? then (h, Died)
    else if s.legacyGet.Fails? then (h, Erred)
    else if LegacyPresent(h, wl.ref) then
      var legacy := h.targets[LegacyName(wl.ref)];
      if wl.exempt then RestoreLegacyBeforeExemption(h, wl, legacy, s) else Migrate(h, wl, legacy, s)
    else if wl.exempt then (h, Kept)
    else
      var (h1, created) := NewPowerTarget(h, wl, None, s);
      (h1, Ending(created, Created))
  }

  function EnsurePowerTarget(system: seq<string>, h: Hub, wl: Listed, s: Ensure): (Hub, Outcome) {
    if wl.ref.namespace in system then (h, Kept)
    else if s.get.Dies? then (h, Died)
    else if s.get.Fails? then (h, Erred)
    else if Bound(wl.ref) in h.targets then EnsureExisting(h, wl, s)
    else EnsureMissing(h, wl, s)
  }

  // ---------------------------------------------------------------- the cycle

  /** A shorter script means the process ended there. */
  function EnsureAll(system: seq<string>, h: Hub, list: seq<Listed>, scripts: seq<Ensure>): (Hub, bool)
    decreases |list|
  {
    if list == [] then (h, true)
    else if scripts == [] then (h, false)
    else
      var (h1, outcome) := EnsurePowerTarget(system, h, list[0], scripts[0]);
      if outcome.Died? then (h1, false) else EnsureAll(system, h1, list[1..], scripts[1..])
  }

  /** Names the cleanup keeps on account of one listed workload. */
  function NamesFor(system: seq<string>, wl: Listed): set<Name> {
    if wl.ref.namespace in system then {}
    else if wl.IsOff() then {Bound(wl.ref), LegacyName(wl.ref)}
    else if wl.exempt then {}
    else {Bound(wl.ref)}
  }

  function Expected(system: seq<string>, list: seq<Listed>): set<Name> {
    if list == [] then {} else Expected(system, list[..|list| - 1]) + NamesFor(system, list[|list| - 1])
  }

  /** One PowerTarget the cleanup listed, and the fate of its deletion should it come to it. */
  datatype Item = Item(name: Name, fate: Fate)

  function DeleteUnexpected(h: Hub, expected: set<Name>, items: seq<Item>): Hub
    decreases |items|
  {
    if items == [] then h
    else if items[0].name in expected then DeleteUnexpected(h, expected, items[1..])
    else
      var (h1, reply) := DeleteTarget(h, items[0].name, items[0].fate);
      if reply.Dead? then h1 else DeleteUnexpected(h1, expected, items[1..])
  }

  datatype Cycle = Cycle(discovered: bool, list: seq<Listed>, scripts: seq<Ensure>, listTargets: Read, items: seq<Item>)

  function RunDiscovery(system: seq<string>, h: Hub, c: Cycle): Hub {
    if !c.discovered then h else
    var (h1, alive) := EnsureAll(system, h, c.list, c.scripts);
    if !alive || !c.listTargets.Answers? then h1
    else DeleteUnexpected(h1, Expected(system, c.list), c.items)
  }

  function After(system: seq<string>, h: Hub, run: seq<Cycle>): Hub
    decreases |run|
  {
    if run == [] then h else After(system, RunDiscovery(system, h, run[0]), run[1..])
  }
}
