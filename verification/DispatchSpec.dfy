/** Dispatching a batch of audit events to one channel
    (internal/adapters/driven/notifications/dispatcher.go) as functions of the channel and
    the script of its calls. */
module DispatchSpec {
  import opened Domain
  import opened AttemptLedger

  /** `ref` names the audit record behind the event; it may be empty. */
  datatype Event = Event(ref: string, action: string, result: string, rule: string, namespace: string, target: string)

  /** A message has one truthful action, result and rule. */
  datatype Key = Key(action: string, result: string, rule: string)

  function KeyOf(e: Event): Key {
    Key(e.action, e.result, e.rule)
  }

  /** The channel's configuration. */
  datatype Config = Config(enabled: bool, events: seq<string>, namespaces: seq<string>)

  // ---------------------------------------------------------------- which events go out

  /** Events are deduplicated by all their fields, the audit reference included. */
  function Dedupe(batch: seq<Event>): seq<Event> {
    if batch == [] then []
    else
      var front, e := Dedupe(batch[..|batch| - 1]), batch[|batch| - 1];
      if e in front then front else front + [e]
  }

  predicate Wanted(cfg: Config, e: Event) {
    (cfg.events == [] || e.action in cfg.events) && (cfg.namespaces == [] || e.namespace in cfg.namespaces)
  }

  predicate WasAttempted(st: Status, ref: string) {
    || (exists i :: 0 <= i < |st.recent| && ref in st.recent[i].refs)
    || (st.last.Some? && ref in st.last.value.refs)
  }

  predicate Selected(cfg: Config, st: Status, e: Event) {
    Wanted(cfg, e) && !(e.ref != "" && WasAttempted(st, e.ref))
  }

  function Select(cfg: Config, st: Status, events: seq<Event>): seq<Event> {
    if events == [] then []
    else Select(cfg, st, events[..|events| - 1]) + if Selected(cfg, st, events[|events| - 1]) then [events[|events| - 1]] else []
  }

  /** The position of the group with this key, or the number of groups. */
  function GroupAt(groups: seq<seq<Event>>, key: Key): (i: nat)
    ensures i <= |groups|
    ensures i < |groups| ==> groups[i] != [] && KeyOf(groups[i][0]) == key
    ensures forall k :: 0 <= k < i ==> groups[k] != [] ==> KeyOf(groups[k][0]) != key
  {
    if groups == [] then 0
    else if groups[0] != [] && KeyOf(groups[0][0]) == key then 0
    else 1 + GroupAt(groups[1..], key)
  }

  function AddToGroups(groups: seq<seq<Event>>, e: Event): seq<seq<Event>> {
    var i := GroupAt(groups, KeyOf(e));
    if i < |groups| then groups[i := groups[i] + [e]] else groups + [[e]]
  }

  function Groups(events: seq<Event>): seq<seq<Event>> {
    if events == [] then [] else AddToGroups(Groups(events[..|events| - 1]), events[|events| - 1])
  }

  function Refs(events: seq<Event>): seq<string> {
    if events == [] then []
    else Refs(events[..|events| - 1]) + if events[|events| - 1].ref != "" then [events[|events| - 1].ref] else []
  }

  // ---------------------------------------------------------------- delivering

  /** One sender call: the references it carried, the ledger position of its attempt, and
      whether the provider accepted it. */
  datatype Send = Send(refs: seq<string>, at: nat, accepted: bool)

  /** `nextId` is the next unused attempt identifier. */
  datatype Desk = Desk(channel: LiveChannel, nextId: nat, sends: seq<Send>)

  datatype GroupScript = GroupScript(
    throttled: bool, begin: seq<Try>, startedAt: int, diesSending: bool, accepted: bool, finish: seq<Try>, finishedAt: int)

  /** Begins the attempt, calls the sender unless the channel is undeliverable, finishes.
      The flag says whether the process is still alive. */
  function Deliver(d: Desk, events: seq<Event>, deliverable: bool, s: GroupScript): (Desk, bool) {
    var a := Attempt(d.nextId, Refs(events), InProgress, s.startedAt, None);
    var (c1, begun) := Update(d.channel, Begin(a), s.begin, MAX_TRIES);
    var d1 := Desk(c1, d.nextId + 1, d.sends);
    if !begun.Ok? then (d1, begun.Error?) else
    var d2 := if deliverable then d1.(sends := d1.sends + [Send(a.refs, |c1.ledger| - 1, s.accepted)]) else d1;
    if deliverable && s.diesSending then (d2, false) else
    var (c3, finished) := Update(c1, Finish(a, deliverable && s.accepted, s.finishedAt), s.finish, MAX_TRIES);
    (d2.(channel := c3), !finished.Dead?)
  }

  function DeliverAll(d: Desk, groups: seq<seq<Event>>, deliverable: bool, scripts: seq<GroupScript>): Desk
    decreases |groups|
  {
    if groups == [] || scripts == [] then d
    else if deliverable && scripts[0].throttled then DeliverAll(d, groups[1..], deliverable, scripts[1..])
    else
      var (d1, alive) := Deliver(d, groups[0], deliverable, scripts[0]);
      if alive then DeliverAll(d1, groups[1..], deliverable, scripts[1..]) else d1
  }

  /** `listAt` is the channel version the list call returned; `deliverable` whether a URL
      resolved and a sender for the provider exists. */
  datatype BatchScript = BatchScript(listed: bool, listAt: nat, deliverable: bool, groups: seq<GroupScript>)

  function DispatchBatch(d: Desk, cfg: Config, batch: seq<Event>, s: BatchScript): Desk {
    if !s.listed || s.listAt >= |d.channel.versions| || !cfg.enabled then d else
    var events := Select(cfg, d.channel.versions[s.listAt], Dedupe(batch));
    DeliverAll(d, Groups(events), s.deliverable, s.groups)
  }

  predicate HasRecoverable(st: Status, startedBefore: int) {
    || (exists i :: 0 <= i < |st.recent| && Recoverable(st.recent[i], startedBefore))
    || (st.last.Some? && Recoverable(st.last.value, startedBefore))
  }

  function RecoverIncompleteAttempts(d: Desk, startedBefore: int, now: int, listAt: nat, tries: seq<Try>): Desk {
    if listAt < |d.channel.versions| && HasRecoverable(d.channel.versions[listAt], startedBefore)
    then d.(channel := Update(d.channel, RecoverIncomplete(startedBefore, now), tries, MAX_TRIES).0)
    else d
  }

  // ---------------------------------------------------------------- runs

  /** Batches and recoveries, in any order; a restart is a run that goes on after a death. */
  datatype Step =
    | Batch(cfg: Config, batch: seq<Event>, s: BatchScript)
    | Recovery(startedBefore: int, now: int, listAt: nat, tries: seq<Try>)

  function Take(d: Desk, step: Step): Desk {
    match step
    case Batch(cfg, batch, s) => DispatchBatch(d, cfg, batch, s)
    case Recovery(startedBefore, now, listAt, tries) => RecoverIncompleteAttempts(d, startedBefore, now, listAt, tries)
  }

  function After(d: Desk, run: seq<Step>): Desk
    decreases |run|
  {
    if run == [] then d else After(Take(d, run[0]), run[1..])
  }
}
