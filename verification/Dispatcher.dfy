/** The notification dispatcher as it works on one channel
    (internal/adapters/driven/notifications/dispatcher.go): status objects changed in place,
    retried status writes, and the loops over a batch.  Every method is tied to the
    functions of AttemptLedger and DispatchSpec. */
module Dispatcher {
  import opened Domain
  import opened Faults
  import opened AttemptLedger
  import opened DispatchSpec

  function RecoverableIds(s: seq<Attempt>, startedBefore: int): set<nat> {
    set i | 0 <= i < |s| && Recoverable(s[i], startedBefore) :: s[i].id
  }

  lemma EmptyHistory(startedBefore: int, now: int)
    ensures RecoverAll([], startedBefore, now) == [] && CountRecoverable([], startedBefore) == 0
    ensures RecoverableIds([], startedBefore) == {}
  {
  }

  lemma Splice(done: seq<Attempt>, before: seq<Attempt>, j: nat, x: Attempt)
    requires |done| == j < |before|
    ensures var now := done + before[j..]; now[j] == before[j] && now[j := x] == (done + [x]) + before[j + 1..]
  {
  }

  /** Recovering one more entry. */
  lemma RecoverNext(before: seq<Attempt>, j: nat, startedBefore: int, now: int)
    requires j < |before|
    ensures RecoverAll(before[..j + 1], startedBefore, now)
            == RecoverAll(before[..j], startedBefore, now) + [Recover(before[j], startedBefore, now)]
    ensures CountRecoverable(before[..j + 1], startedBefore)
            == CountRecoverable(before[..j], startedBefore) + if Recoverable(before[j], startedBefore) then 1 else 0
    ensures RecoverableIds(before[..j + 1], startedBefore)
            == RecoverableIds(before[..j], startedBefore) + if Recoverable(before[j], startedBefore) then {before[j].id} else {}
  {
    assert before[..j + 1][..j] == before[..j];
    assert before[..j + 1][j] == before[j];
  }

  /** The fetched copy of a channel's status, which a mutation changes in place. */
  class ChannelStatus {
    var totalSent: nat
    var totalErrors: nat
    var last: Option<Attempt>
    var recent: seq<Attempt>

    ghost function View(): Status
      reads this
    {
      Status(totalSent, totalErrors, last, recent)
    }

    constructor (st: Status)
      ensures View() == st
    {
      totalSent, totalErrors, last, recent := st.totalSent, st.totalErrors, st.last, st.recent;
    }

    method Store(a: Attempt)
      modifies this
      ensures View() == StoreAttempt(old(View()), a)
    {
      last := Some(a);
      var i := 0;
      while i < |recent|
        invariant i <= |recent|
        invariant View() == old(View()).(last := Some(a))
        invariant forall k :: 0 <= k < i ==> recent[k].id != a.id
      {
        if recent[i].id == a.id {
          assert IndexOf(recent, a.id) == i;
          recent := recent[i := a];
          return;
        }
        i := i + 1;
      }
      recent := recent + [a];
      if |recent| > MAX_RECENT {
        recent := recent[|recent| - MAX_RECENT..];
      }
    }

    method Finish(a: Attempt, ok: bool, now: int)
      modifies this
      ensures View() == FinishAttempt(old(View()), a, ok, now)
    {
      if last.Some? && last.value.id == a.id && !last.value.phase.InProgress? {
        return;
      }
      if ok {
        totalSent := totalSent + 1;
      } else {
        totalErrors := totalErrors + 1;
      }
      Store(Completed(a, ok, now));
    }

    /** Marks the history's interrupted attempts failed and returns their identifiers. */
    method RecoverHistory(startedBefore: int, now: int) returns (recovered: set<nat>)
      modifies this
      ensures totalSent == old(totalSent) && last == old(last)
      ensures recent == RecoverAll(old(recent), startedBefore, now)
      ensures totalErrors == old(totalErrors) + CountRecoverable(old(recent), startedBefore)
      ensures recovered == RecoverableIds(old(recent), startedBefore)
    {
      hide CountRecoverable, Recoverable, Completed, RecoverAll, RecoverableIds;
      recovered := {};
      var j := 0;
      ghost var before := recent;
      EmptyHistory(startedBefore, now);
      while j < |recent|
        invariant j <= |recent| == |before|
        invariant totalSent == old(totalSent) && last == old(last)
        invariant recent == RecoverAll(before[..j], startedBefore, now) + before[j..]
        invariant totalErrors == old(totalErrors) + CountRecoverable(before[..j], startedBefore)
        invariant recovered == RecoverableIds(before[..j], startedBefore)
      {
        RecoverNext(before, j, startedBefore, now);
        Splice(RecoverAll(before[..j], startedBefore, now), before, j, Recover(before[j], startedBefore, now));
        if Recoverable(recent[j], startedBefore) {
          recovered := recovered + {recent[j].id};
          recent := recent[j := Completed(recent[j], false, now)];
          totalErrors := totalErrors + 1;
        }
        j := j + 1;
      }
      assert before[..j] == before;
    }

    /** The last attempt is counted only when the history did not hold it. */
    method RecoverInterrupted(startedBefore: int, now: int)
      modifies this
      ensures View() == RecoverStatus(old(View()), startedBefore, now)
    {
      hide CountRecoverable, RecoverAll, Completed;
      var recovered := RecoverHistory(startedBefore, now);
      if last.Some? && Recoverable(last.value, startedBefore) {
        if last.value.id !in recovered {
          totalErrors := totalErrors + 1;
        }
        last := Some(Completed(last.value, false, now));
      }
    }

    method Apply(m: Mutation)
      modifies this
      ensures View() == Mutate(old(View()), m)
    {
      match m
      case Begin(a) => Store(a);
      case Finish(a, ok, now) => Finish(a, ok, now);
      case RecoverIncomplete(startedBefore, now) => RecoverInterrupted(startedBefore, now);
    }
  }

  /** The key identifies the whole event. */
  method Deduplicate(batch: seq<Event>) returns (filtered: seq<Event>)
    ensures filtered == Dedupe(batch)
  {
    filtered := [];
    var seen: set<Event> := {};
    for i := 0 to |batch|
      invariant filtered == Dedupe(batch[..i])
      invariant forall e :: e in seen <==> e in filtered
    {
      assert batch[..i + 1][..i] == batch[..i];
      if batch[i] !in seen {
        seen := seen + {batch[i]};
        filtered := filtered + [batch[i]];
      }
    }
    assert batch[..|batch|] == batch;
  }

  /** The events the channel's filters admit, in order. */
  function WantedOf(cfg: Config, events: seq<Event>): seq<Event> {
    if events == [] then []
    else WantedOf(cfg, events[..|events| - 1]) + if Wanted(cfg, events[|events| - 1]) then [events[|events| - 1]] else []
  }

  method FilterForChannel(cfg: Config, events: seq<Event>) returns (r: seq<Event>)
    ensures r == WantedOf(cfg, events)
  {
    r := [];
    for i := 0 to |events|
      invariant r == WantedOf(cfg, events[..i])
    {
      assert events[..i + 1][..i] == events[..i];
      if Wanted(cfg, events[i]) {
        r := r + [events[i]];
      }
    }
    assert events[..|events|] == events;
  }

  function NotAttempted(st: Status, events: seq<Event>): seq<Event> {
    if events == [] then []
    else
      var e := events[|events| - 1];
      NotAttempted(st, events[..|events| - 1]) + if e.ref != "" && WasAttempted(st, e.ref) then [] else [e]
  }

  method ExcludeAttemptedEvents(st: Status, events: seq<Event>) returns (r: seq<Event>)
    ensures r == NotAttempted(st, events)
  {
    var attempted: set<string> := {};
    for i := 0 to |st.recent|
      invariant forall ref :: ref in attempted <==> exists k :: 0 <= k < i && ref in st.recent[k].refs
    {
      attempted := attempted + set ref | ref in st.recent[i].refs;
    }
    if st.last.Some? {
      attempted := attempted + set ref | ref in st.last.value.refs;
    }
    assert forall ref :: ref in attempted <==> WasAttempted(st, ref);
    r := [];
    for i := 0 to |events|
      invariant r == NotAttempted(st, events[..i])
    {
      assert events[..i + 1][..i] == events[..i];
      if !(events[i].ref != "" && events[i].ref in attempted) {
        r := r + [events[i]];
      }
    }
    assert events[..|events|] == events;
  }

  /** Filtering in two passes selects the same events as one. */
  lemma {:induction false} TwoPassesSelect(cfg: Config, st: Status, events: seq<Event>)
    ensures NotAttempted(st, WantedOf(cfg, events)) == Select(cfg, st, events)
  {
    if events != [] {
      var front, e := events[..|events| - 1], events[|events| - 1];
      TwoPassesSelect(cfg, st, front);
      if Wanted(cfg, e) {
        assert (WantedOf(cfg, front) + [e])[..|WantedOf(cfg, front)|] == WantedOf(cfg, front);
      } else {
        assert WantedOf(cfg, front) + [] == WantedOf(cfg, front);
      }
    }
  }

  /** Every group is non-empty and `indexes` maps exactly the groups' keys to their
      positions. */
  ghost predicate Indexed(groups: seq<seq<Event>>, indexes: map<Key, nat>) {
    && (forall i :: 0 <= i < |groups| ==> groups[i] != [] && KeyOf(groups[i][0]) in indexes && indexes[KeyOf(groups[i][0])] == i)
    && (forall k <- indexes :: indexes[k] < |groups| && groups[indexes[k]] != [] && KeyOf(groups[indexes[k]][0]) == k)
  }

  /** The index map finds what a search of the groups would find. */
  lemma IndexIsGroupAt(groups: seq<seq<Event>>, indexes: map<Key, nat>, key: Key)
    requires Indexed(groups, indexes)
    ensures GroupAt(groups, key) == if key in indexes then indexes[key] else |groups|
  {
    var i := GroupAt(groups, key);
    assert key in indexes ==> KeyOf(groups[indexes[key]][0]) == key;
  }

  method GroupBatchEvents(events: seq<Event>) returns (groups: seq<seq<Event>>)
    ensures groups == Groups(events)
  {
    groups := [];
    var indexes: map<Key, nat> := map[];
    for i := 0 to |events|
      invariant groups == Groups(events[..i])
      invariant Indexed(groups, indexes)
    {
      assert events[..i + 1][..i] == events[..i];
      var key := KeyOf(events[i]);
      IndexIsGroupAt(groups, indexes, key);
      if key in indexes {
        var g := indexes[key];
        groups := groups[g := groups[g] + [events[i]]];
      } else {
        indexes := indexes[key := |groups|];
        groups := groups + [[events[i]]];
      }
    }
    assert events[..|events|] == events;
  }

  method CorrelatedRefs(events: seq<Event>) returns (refs: seq<string>)
    ensures refs == Refs(events)
  {
    refs := [];
    for i := 0 to |events|
      invariant refs == Refs(events[..i])
    {
      assert events[..i + 1][..i] == events[..i];
      if events[i].ref != "" {
        refs := refs + [events[i].ref];
      }
    }
    assert events[..|events|] == events;
  }

  /** The channel's committed versions and the dispatcher's own state.  The ledger and the
      log of sender calls are what the theorems speak about; no branch reads them. */
  class ChannelDispatcher {
    var versions: seq<Status>
    var nextId: nat
    ghost var ledger: seq<Attempt>
    ghost var sends: seq<Send>

    ghost predicate Valid()
      reads this
    {
      |versions| > 0
    }

    ghost function ChannelView(): LiveChannel
      requires Valid()
      reads this
    {
      Channel(versions, ledger)
    }

    ghost function View(): Desk
      requires Valid()
      reads this
    {
      Desk(ChannelView(), nextId, sends)
    }

    constructor ()
      ensures Valid() && View() == Desk(Channel([Status(0, 0, None, [])], []), 0, [])
    {
      versions, nextId, ledger, sends := [Status(0, 0, None, [])], 0, [], [];
    }

    method UpdateChannelStatus(m: Mutation, tries: seq<Try>) returns (reply: Reply)
      requires Valid()
      modifies this
      ensures Valid() && nextId == old(nextId) && sends == old(sends)
      ensures (ChannelView(), reply) == Update(old(ChannelView()), m, tries, MAX_TRIES)
    {
      hide TryUpdate;
      var n := 0;
      reply := Error;
      while n < MAX_TRIES && n < |tries| && reply.Error?
        invariant n <= MAX_TRIES && n <= |tries|
        invariant Valid() && nextId == old(nextId) && sends == old(sends)
        invariant n == 0 ==> reply.Error?
        invariant Update(old(ChannelView()), m, tries, MAX_TRIES)
          == if reply.Error? then Update(ChannelView(), m, tries[n..], MAX_TRIES - n) else (ChannelView(), reply)
        decreases |tries| - n
      {
        reply := TryOnce(m, tries[n]);
        assert tries[n..][0] == tries[n] && tries[n..][1..] == tries[n + 1..];
        n := n + 1;
      }
    }

    method TryOnce(m: Mutation, t: Try) returns (reply: Reply)
      requires Valid()
      modifies this
      ensures Valid() && nextId == old(nextId) && sends == old(sends)
      ensures (ChannelView(), reply) == TryUpdate(old(ChannelView()), m, t)
    {
      if !t.readable || t.at >= |versions| {
        reply := if t.fate.Dies() then Dead else Error;
        return;
      }
      var current := new ChannelStatus(versions[t.at]);
      current.Apply(m);
      var fits := t.at == |versions| - 1;
      if fits && t.fate.Commits() {
        versions := versions + [Status(current.totalSent, current.totalErrors, current.last, current.recent)];
        ledger := Enter(ledger, m);
      }
      reply := ReplyTo(t.fate, fits);
    }

    /** The sender is called only after the attempt was committed, and at most once. */
    method DeliverGroup(events: seq<Event>, deliverable: bool, s: GroupScript) returns (alive: bool)
      requires Valid()
      modifies this
      ensures Valid() && (View(), alive) == Deliver(old(View()), events, deliverable, s)
    {
      hide Update, Refs;
      var refs := CorrelatedRefs(events);
      var a := Attempt(nextId, refs, InProgress, s.startedAt, None);
      var begun := UpdateChannelStatus(Begin(a), s.begin);
      nextId := nextId + 1;
      if !begun.Ok? {
        return begun.Error?;
      }
      if deliverable {
        sends := sends + [Send(a.refs, |ledger| - 1, s.accepted)];
        if s.diesSending {
          return false;
        }
      }
      var finished := UpdateChannelStatus(Finish(a, deliverable && s.accepted, s.finishedAt), s.finish);
      alive := !finished.Dead?;
    }

    method DispatchBatch(cfg: Config, batch: seq<Event>, s: BatchScript)
      requires Valid()
      modifies this
      ensures Valid() && View() == DispatchSpec.DispatchBatch(old(View()), cfg, batch, s)
    {
      hide Dedupe, Select, Groups, Deliver;
      var filtered := Deduplicate(batch);
      if !s.listed || s.listAt >= |versions| || !cfg.enabled {
        return;
      }
      var wanted := FilterForChannel(cfg, filtered);
      var events := ExcludeAttemptedEvents(versions[s.listAt], wanted);
      TwoPassesSelect(cfg, versions[s.listAt], filtered);
      var groups := GroupBatchEvents(events);
      var n, alive := 0, true;
      while n < |groups| && n < |s.groups| && alive
        invariant n <= |groups| && n <= |s.groups|
        invariant Valid()
        invariant DeliverAll(old(View()), groups, s.deliverable, s.groups)
          == if alive then DeliverAll(View(), groups[n..], s.deliverable, s.groups[n..]) else View()
        decreases |groups| - n
      {
        assert groups[n..][1..] == groups[n + 1..] && s.groups[n..][1..] == s.groups[n + 1..];
        if !(s.deliverable && s.groups[n].throttled) {
          alive := DeliverGroup(groups[n], s.deliverable, s.groups[n]);
        }
        n := n + 1;
      }
    }

    method RecoverIncompleteAttempts(startedBefore: int, now: int, listAt: nat, tries: seq<Try>)
      requires Valid()
      modifies this
      ensures Valid() && View() == DispatchSpec.RecoverIncompleteAttempts(old(View()), startedBefore, now, listAt, tries)
    {
      if listAt >= |versions| {
        return;
      }
      var st := versions[listAt];
      var hasRecoverable := false;
      var j := 0;
      while j < |st.recent| && !hasRecoverable
        invariant j <= |st.recent|
        invariant hasRecoverable <==> exists i :: 0 <= i < j && Recoverable(st.recent[i], startedBefore)
      {
        hasRecoverable := Recoverable(st.recent[j], startedBefore);
        j := j + 1;
      }
      if st.last.Some? && Recoverable(st.last.value, startedBefore) {
        hasRecoverable := true;
      }
      if hasRecoverable {
        var reply := UpdateChannelStatus(RecoverIncomplete(startedBefore, now), tries);
      }
    }
  }
}
