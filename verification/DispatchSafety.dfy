/** Every run of the dispatcher keeps its books, and does not repeat itself: two sender
    calls that carry one audit reference are at least 20 other attempts apart. */
module DispatchSafety {
  import opened Domain
  import opened AttemptLedger
  import opened DispatchSpec

  // ---------------------------------------------------------------- the books

  predicate Fresh(d: Desk) {
    forall i :: 0 <= i < |d.channel.ledger| ==> d.channel.ledger[i].id < d.nextId
  }

  predicate Kept(d: Desk) {
    Inv(d.channel) && Fresh(d)
  }

  lemma DeliverKeeps(d: Desk, events: seq<Event>, deliverable: bool, s: GroupScript)
    requires Kept(d)
    ensures var r := Deliver(d, events, deliverable, s).0;
            && Kept(r) && Advances(d.channel.ledger, r.channel.ledger)
            && |r.channel.ledger| <= |d.channel.ledger| + 1
            && (r.sends == d.sends ||
                (&& |r.channel.ledger| == |d.channel.ledger| + 1
                 && r.sends == d.sends + [Send(Refs(events), |d.channel.ledger|, s.accepted)]
                 && r.channel.ledger[|d.channel.ledger|].refs == Refs(events)))
  {
    hide Update, Inv;
    var a := Attempt(d.nextId, Refs(events), InProgress, s.startedAt, None);
    var c := d.channel;
    UpdateKeeps(c, Begin(a), s.begin, MAX_TRIES);
    BeginGrowsByOne(c, a, s.begin, MAX_TRIES);
    var (c1, begun) := Update(c, Begin(a), s.begin, MAX_TRIES);
    if begun.Ok? {
      assert c1.ledger == c.ledger + [a];
      var m := Finish(a, deliverable && s.accepted, s.finishedAt);
      UpdateKeeps(c1, m, s.finish, MAX_TRIES);
      FinishKeepsLength(c1, m, s.finish, MAX_TRIES);
      var (c3, finished) := Update(c1, m, s.finish, MAX_TRIES);
      AdvancesTransitive(c.ledger, c1.ledger, c3.ledger);
    }
  }

  lemma {:induction false} FinishKeepsLength(c: LiveChannel, m: Mutation, tries: seq<Try>, left: nat)
    requires !m.Begin?
    ensures |Update(c, m, tries, left).0.ledger| == |c.ledger|
    decreases left
  {
    if left > 0 && tries != [] {
      var (c1, reply) := TryUpdate(c, m, tries[0]);
      FinishKeepsLength(c1, m, tries[1..], left - 1);
    }
  }

  lemma {:induction false} DeliverAllKeeps(d: Desk, groups: seq<seq<Event>>, deliverable: bool, scripts: seq<GroupScript>)
    requires Kept(d)
    ensures var r := DeliverAll(d, groups, deliverable, scripts);
            Kept(r) && Advances(d.channel.ledger, r.channel.ledger)
    decreases |groups|
  {
    hide Deliver, Kept;
    if groups != [] && scripts != [] {
      if deliverable && scripts[0].throttled {
        DeliverAllKeeps(d, groups[1..], deliverable, scripts[1..]);
      } else {
        DeliverKeeps(d, groups[0], deliverable, scripts[0]);
        var (d1, alive) := Deliver(d, groups[0], deliverable, scripts[0]);
        if alive {
          DeliverAllKeeps(d1, groups[1..], deliverable, scripts[1..]);
          AdvancesTransitive(d.channel.ledger, d1.channel.ledger, DeliverAll(d, groups, deliverable, scripts).channel.ledger);
        }
      }
    }
  }

  lemma RecoveryKeeps(d: Desk, startedBefore: int, now: int, listAt: nat, tries: seq<Try>)
    requires Kept(d)
    ensures var r := RecoverIncompleteAttempts(d, startedBefore, now, listAt, tries);
            Kept(r) && Advances(d.channel.ledger, r.channel.ledger) && r.sends == d.sends
            && |r.channel.ledger| == |d.channel.ledger|
  {
    hide Update, Inv;
    var m := RecoverIncomplete(startedBefore, now);
    UpdateKeeps(d.channel, m, tries, MAX_TRIES);
    FinishKeepsLength(d.channel, m, tries, MAX_TRIES);
  }

  lemma StepKeeps(d: Desk, step: Step)
    requires Kept(d)
    ensures Kept(Take(d, step)) && Advances(d.channel.ledger, Take(d, step).channel.ledger)
  {
    hide Kept, DeliverAll;
    match step
    case Batch(cfg, batch, s) =>
      if s.listed && s.listAt < |d.channel.versions| && cfg.enabled {
        DeliverAllKeeps(d, Groups(Select(cfg, d.channel.versions[s.listAt], Dedupe(batch))), s.deliverable, s.groups);
      }
    case Recovery(startedBefore, now, listAt, tries) =>
      RecoveryKeeps(d, startedBefore, now, listAt, tries);
  }

  /** Stale lists and reads, lost replies and deaths included, the status stays the
      bounded view of a ledger in which no attempt ever leaves a terminal phase. */
  lemma {:induction false} RunKeepsBooks(d: Desk, run: seq<Step>)
    requires Kept(d)
    ensures Kept(After(d, run)) && Advances(d.channel.ledger, After(d, run).channel.ledger)
    decreases |run|
  {
    hide Kept, Take;
    if run != [] {
      StepKeeps(d, run[0]);
      RunKeepsBooks(Take(d, run[0]), run[1..]);
      AdvancesTransitive(d.channel.ledger, Take(d, run[0]).channel.ledger, After(d, run).channel.ledger);
    }
  }

  // ---------------------------------------------------------------- no success without acceptance

  /** Sender calls stand in ledger order, at most one for each attempt, and an attempt that
      counts as sent had one, with its references, that the provider accepted. */
  ghost predicate Honest(d: Desk) {
    && (forall k :: 0 <= k < |d.sends| ==> d.sends[k].at < |d.channel.ledger|)
    && (forall k, l :: 0 <= k < l < |d.sends| ==> d.sends[k].at < d.sends[l].at)
    && (forall i :: 0 <= i < |d.channel.ledger| && d.channel.ledger[i].phase.Succeeded? ==>
          AcceptedFor(d.sends, i, d.channel.ledger[i].refs))
  }

  ghost predicate AcceptedFor(sends: seq<Send>, i: nat, refs: seq<string>) {
    exists k :: 0 <= k < |sends| && sends[k] == Send(refs, i, true)
  }

  /** The mutation may turn attempt `i` into a success. */
  predicate MaySucceed(ledger: seq<Attempt>, m: Mutation, i: nat) {
    i < |ledger| && (ledger[i].phase.Succeeded? || (m.Finish? && m.ok && i == |ledger| - 1))
  }

  lemma EnterSucceeds(ledger: seq<Attempt>, m: Mutation, i: nat)
    requires (m.Begin? ==> m.a.phase.InProgress?) && i < |Enter(ledger, m)| && Enter(ledger, m)[i].phase.Succeeded?
    ensures MaySucceed(ledger, m, i)
  {
    if m.RecoverIncomplete? {
      RecoverLength(ledger, m.startedBefore, m.now);
      RecoverAt(ledger, m.startedBefore, m.now, i);
    }
  }

  lemma {:induction false} UpdateSucceeds(c: LiveChannel, m: Mutation, tries: seq<Try>, left: nat, i: nat)
    requires m.Begin? ==> m.a.phase.InProgress?
    requires i < |Update(c, m, tries, left).0.ledger| && Update(c, m, tries, left).0.ledger[i].phase.Succeeded?
    ensures MaySucceed(c.ledger, m, i)
    decreases left
  {
    hide Enter, Mutate;
    if left > 0 && tries != [] {
      var (c1, reply) := TryUpdate(c, m, tries[0]);
      if reply.Error? {
        UpdateSucceeds(c1, m, tries[1..], left - 1, i);
        if !m.Begin? {
          EnterLength(c.ledger, m);
        }
      }
      if c1.ledger != c.ledger && c1.ledger[i].phase.Succeeded? {
        EnterSucceeds(c.ledger, m, i);
      }
    }
  }

  lemma EnterLength(ledger: seq<Attempt>, m: Mutation)
    requires !m.Begin?
    ensures |Enter(ledger, m)| == |ledger|
  {
  }

  lemma DeliverIsHonest(d: Desk, events: seq<Event>, deliverable: bool, s: GroupScript)
    requires Kept(d) && Honest(d)
    ensures Honest(Deliver(d, events, deliverable, s).0)
  {
    hide Update, Inv, Refs;
    var r := Deliver(d, events, deliverable, s).0;
    DeliverKeeps(d, events, deliverable, s);
    var a := Attempt(d.nextId, Refs(events), InProgress, s.startedAt, None);
    var n := |d.channel.ledger|;
    var (c1, begun) := Update(d.channel, Begin(a), s.begin, MAX_TRIES);
    UpdateKeeps(d.channel, Begin(a), s.begin, MAX_TRIES);
    BeginGrowsByOne(d.channel, a, s.begin, MAX_TRIES);
    var m := Finish(a, deliverable && s.accepted, s.finishedAt);
    FinishKeepsLength(c1, m, s.finish, MAX_TRIES);
    forall i | 0 <= i < |r.channel.ledger| && r.channel.ledger[i].phase.Succeeded?
      ensures AcceptedFor(r.sends, i, r.channel.ledger[i].refs)
    {
      if begun.Ok? && r.channel == Update(c1, m, s.finish, MAX_TRIES).0 {
        UpdateSucceeds(c1, m, s.finish, MAX_TRIES, i);
      }
      if i < n {
        assert c1.ledger[i].phase.Succeeded?;
        UpdateSucceeds(d.channel, Begin(a), s.begin, MAX_TRIES, i);
        assert AcceptedFor(d.sends, i, d.channel.ledger[i].refs);
        var k :| 0 <= k < |d.sends| && d.sends[k] == Send(d.channel.ledger[i].refs, i, true);
        assert r.sends[k] == d.sends[k];
      } else {
        assert r.sends[|d.sends|] == Send(Refs(events), n, true);
      }
    }
  }

  lemma {:induction false} FinishesOnce(c: LiveChannel, m: Mutation, tries: seq<Try>, left: nat)
    requires m.Finish?
    ensures var l := Update(c, m, tries, left).0.ledger; l == c.ledger || l == Enter(c.ledger, m)
    decreases left
  {
    hide Enter, Mutate;
    if left > 0 && tries != [] {
      var (c1, reply) := TryUpdate(c, m, tries[0]);
      if reply.Error? {
        FinishesOnce(c1, m, tries[1..], left - 1);
        FinishedTwice(c.ledger, m);
      }
    }
  }

  lemma FinishedTwice(ledger: seq<Attempt>, m: Mutation)
    requires m.Finish?
    ensures Enter(Enter(ledger, m), m) == Enter(ledger, m)
  {
  }

  /** Once both status writes of a delivery are acknowledged, the books hold exactly one
      more attempt, with the group's references and the provider's verdict, and exactly
      one counter went up by one. */
  lemma AcknowledgedDeliveryIsRecorded(d: Desk, events: seq<Event>, deliverable: bool, s: GroupScript)
    requires Kept(d)
    ensures var a := Attempt(d.nextId, Refs(events), InProgress, s.startedAt, None);
            var (c1, begun) := Update(d.channel, Begin(a), s.begin, MAX_TRIES);
            var ok := deliverable && s.accepted;
            var (c2, finished) := Update(c1, Finish(a, ok, s.finishedAt), s.finish, MAX_TRIES);
            var r := Deliver(d, events, deliverable, s).0;
            begun.Ok? && finished.Ok? && !(deliverable && s.diesSending) ==>
              && r.channel.ledger == d.channel.ledger + [Completed(a, ok, s.finishedAt)]
              && r.channel.Current().totalSent == d.channel.Current().totalSent + (if ok then 1 else 0)
              && r.channel.Current().totalErrors == d.channel.Current().totalErrors + (if ok then 0 else 1)
  {
    hide Update, Refs, Inv, Views;
    var a := Attempt(d.nextId, Refs(events), InProgress, s.startedAt, None);
    var (c1, begun) := Update(d.channel, Begin(a), s.begin, MAX_TRIES);
    UpdateKeeps(d.channel, Begin(a), s.begin, MAX_TRIES);
    BeginGrowsByOne(d.channel, a, s.begin, MAX_TRIES);
    if begun.Ok? {
      var m := Finish(a, deliverable && s.accepted, s.finishedAt);
      UpdateKeeps(c1, m, s.finish, MAX_TRIES);
      FinishesOnce(c1, m, s.finish, MAX_TRIES);
      var c2 := Update(c1, m, s.finish, MAX_TRIES).0;
      var done := Completed(a, deliverable && s.accepted, s.finishedAt);
      assert (d.channel.ledger + [a])[|d.channel.ledger| := done] == d.channel.ledger + [done];
      if c2.ledger == d.channel.ledger + [done] {
        OneMoreCounted(d.channel, c2, done);
      }
    }
  }

  lemma OneMoreCounted(c: LiveChannel, r: LiveChannel, done: Attempt)
    requires Inv(c) && Inv(r) && r.ledger == c.ledger + [done]
    ensures r.Current().totalSent == c.Current().totalSent + (if done.phase.Succeeded? then 1 else 0)
    ensures r.Current().totalErrors == c.Current().totalErrors + (if done.phase.Failed? then 1 else 0)
  {
    hide Count, Trim, DistinctIds;
    CountAppend(c.ledger, done, Succeeded);
    CountAppend(c.ledger, done, Failed);
  }

  lemma {:induction false} DeliverAllIsHonest(d: Desk, groups: seq<seq<Event>>, deliverable: bool, scripts: seq<GroupScript>)
    requires Kept(d) && Honest(d)
    ensures Honest(DeliverAll(d, groups, deliverable, scripts))
    decreases |groups|
  {
    hide Deliver, Kept, Honest;
    if groups != [] && scripts != [] {
      if deliverable && scripts[0].throttled {
        DeliverAllIsHonest(d, groups[1..], deliverable, scripts[1..]);
      } else {
        DeliverKeeps(d, groups[0], deliverable, scripts[0]);
        DeliverIsHonest(d, groups[0], deliverable, scripts[0]);
        DeliverAllIsHonest(Deliver(d, groups[0], deliverable, scripts[0]).0, groups[1..], deliverable, scripts[1..]);
      }
    }
  }

  lemma RecoveryIsHonest(d: Desk, startedBefore: int, now: int, listAt: nat, tries: seq<Try>)
    requires Kept(d) && Honest(d)
    ensures Honest(RecoverIncompleteAttempts(d, startedBefore, now, listAt, tries))
  {
    hide Update, Kept;
    var r := RecoverIncompleteAttempts(d, startedBefore, now, listAt, tries);
    RecoveryKeeps(d, startedBefore, now, listAt, tries);
    forall i | 0 <= i < |r.channel.ledger| && r.channel.ledger[i].phase.Succeeded?
      ensures AcceptedFor(r.sends, i, r.channel.ledger[i].refs)
    {
      if r != d {
        UpdateSucceeds(d.channel, RecoverIncomplete(startedBefore, now), tries, MAX_TRIES, i);
      }
      assert AcceptedFor(d.sends, i, d.channel.ledger[i].refs);
    }
  }

  /** In every run, whatever is stale, lost or interrupted: the sender is called at most
      once for an attempt and only after the attempt is durable, and an attempt that counts
      as sent was accepted by the provider. */
  lemma {:induction false} RunIsHonest(d: Desk, run: seq<Step>)
    requires Kept(d) && Honest(d)
    ensures Honest(After(d, run))
    decreases |run|
  {
    hide Kept, Honest, DeliverAll, RecoverIncompleteAttempts;
    if run != [] {
      StepKeeps(d, run[0]);
      match run[0] {
        case Batch(cfg, batch, s) =>
          if s.listed && s.listAt < |d.channel.versions| && cfg.enabled {
            DeliverAllIsHonest(d, Groups(Select(cfg, d.channel.versions[s.listAt], Dedupe(batch))), s.deliverable, s.groups);
          }
        case Recovery(startedBefore, now, listAt, tries) =>
          RecoveryIsHonest(d, startedBefore, now, listAt, tries);
      }
      RunIsHonest(Take(d, run[0]), run[1..]);
    }
  }

  // ---------------------------------------------------------------- grouping

  predicate Homogeneous(group: seq<Event>, key: Key) {
    group != [] && forall i :: 0 <= i < |group| ==> KeyOf(group[i]) == key
  }

  /** Non-empty groups, one key each, no key twice. */
  predicate WellGrouped(groups: seq<seq<Event>>) {
    && (forall i :: 0 <= i < |groups| ==> groups[i] != [] && Homogeneous(groups[i], KeyOf(groups[i][0])))
    && (forall i, j :: 0 <= i < j < |groups| ==> KeyOf(groups[i][0]) != KeyOf(groups[j][0]))
  }

  /** The events of one key, in order. */
  function WithKey(events: seq<Event>, key: Key): seq<Event> {
    if events == [] then []
    else WithKey(events[..|events| - 1], key) + if KeyOf(events[|events| - 1]) == key then [events[|events| - 1]] else []
  }

  lemma AddKeepsGroups(groups: seq<seq<Event>>, e: Event)
    requires WellGrouped(groups)
    ensures WellGrouped(AddToGroups(groups, e))
  {
    var i := GroupAt(groups, KeyOf(e));
    var r := AddToGroups(groups, e);
    if i < |groups| {
      assert forall k :: 0 <= k < |r| ==> r[k][0] == groups[k][0];
    }
  }

  /** Each group is exactly the events of its key, in order, and every key that occurs
      has its group. */
  lemma {:induction false} GroupsPartitionByKey(events: seq<Event>)
    ensures var groups := Groups(events);
            && WellGrouped(groups)
            && (forall i :: 0 <= i < |groups| ==> groups[i] == WithKey(events, KeyOf(groups[i][0])))
            && (forall k: Key :: GroupAt(groups, k) == |groups| ==> WithKey(events, k) == [])
  {
    if events != [] {
      var front, e := events[..|events| - 1], events[|events| - 1];
      GroupsPartitionByKey(front);
      AddKeepsGroups(Groups(front), e);
      GroupsStep(front, e, Groups(front), AddToGroups(Groups(front), e), events);
    }
  }

  lemma GroupsStep(front: seq<Event>, e: Event, before: seq<seq<Event>>, after: seq<seq<Event>>, events: seq<Event>)
    requires events == front + [e] && WellGrouped(before) && after == AddToGroups(before, e) && WellGrouped(after)
    requires forall i :: 0 <= i < |before| ==> before[i] == WithKey(front, KeyOf(before[i][0]))
    requires forall k: Key :: GroupAt(before, k) == |before| ==> WithKey(front, k) == []
    ensures forall i :: 0 <= i < |after| ==> after[i] == WithKey(events, KeyOf(after[i][0]))
    ensures forall k: Key :: GroupAt(after, k) == |after| ==> WithKey(events, k) == []
  {
    assert events[..|events| - 1] == front;
    var g := GroupAt(before, KeyOf(e));
    forall i | 0 <= i < |after|
      ensures after[i] == WithKey(events, KeyOf(after[i][0]))
    {
      if i < |before| {
        assert after[i][0] == before[i][0];
        assert i != g ==> KeyOf(before[i][0]) != KeyOf(e) by {
          if g < |before| && i != g {
            assert KeyOf(before[g][0]) == KeyOf(e);
          }
        }
      }
    }
    forall k: Key | GroupAt(after, k) == |after|
      ensures WithKey(events, k) == []
    {
      assert k != KeyOf(e) by {
        var at := if g < |before| then g else |before|;
        assert after[at] != [] && KeyOf(after[at][0]) == KeyOf(e);
      }
      Ungrouped(before, after, k);
    }
  }

  lemma Ungrouped(before: seq<seq<Event>>, after: seq<seq<Event>>, k: Key)
    requires |before| <= |after| && GroupAt(after, k) == |after|
    requires forall i :: 0 <= i < |before| ==> before[i] != [] && after[i] != [] && after[i][0] == before[i][0]
    ensures GroupAt(before, k) == |before|
  {
  }

  // ---------------------------------------------------------------- no early repeats

  /** Events about one audit record tell the same story. */
  predicate Consistent(events: seq<Event>) {
    forall i, j :: 0 <= i < |events| && 0 <= j < |events| && events[i].ref == events[j].ref != "" ==>
      KeyOf(events[i]) == KeyOf(events[j])
  }

  lemma {:induction false} RefsMember(events: seq<Event>, ref: string)
    ensures ref in Refs(events) <==> ref != "" && exists i :: 0 <= i < |events| && events[i].ref == ref
  {
    if events != [] {
      var n := |events| - 1;
      RefsMember(events[..n], ref);
      if i :| 0 <= i < |events| && events[i].ref == ref {
        assert i == n || events[..n][i] == events[i];
      }
    }
  }

  lemma {:induction false} WithKeyMember(events: seq<Event>, key: Key, e: Event)
    ensures e in WithKey(events, key) <==> e in events && KeyOf(e) == key
  {
    if events != [] {
      WithKeyMember(events[..|events| - 1], key, e);
      assert events == events[..|events| - 1] + [events[|events| - 1]];
    }
  }

  lemma {:induction false} SelectMember(cfg: Config, st: Status, events: seq<Event>, e: Event)
    ensures e in Select(cfg, st, events) <==> e in events && Selected(cfg, st, e)
  {
    if events != [] {
      SelectMember(cfg, st, events[..|events| - 1], e);
      assert events == events[..|events| - 1] + [events[|events| - 1]];
    }
  }

  lemma {:induction false} DedupeMember(batch: seq<Event>, e: Event)
    ensures e in Dedupe(batch) <==> e in batch
  {
    if batch != [] {
      DedupeMember(batch[..|batch| - 1], e);
      assert batch == batch[..|batch| - 1] + [batch[|batch| - 1]];
    }
  }

  /** Sends of one reference lie more than 20 ledger positions apart. */
  predicate Spaced(sends: seq<Send>) {
    forall i, j, ref :: 0 <= i < j < |sends| && ref in sends[i].refs && ref in sends[j].refs ==>
      sends[j].at - sends[i].at > 20
  }

  /** Each send stands for its attempt in the ledger. */
  predicate Booked(d: Desk) {
    forall i :: 0 <= i < |d.sends| ==>
      d.sends[i].at < |d.channel.ledger| && d.channel.ledger[d.sends[i].at].refs == d.sends[i].refs
  }

  predicate Disjoint(groups: seq<seq<Event>>) {
    forall i, j, ref :: 0 <= i < j < |groups| && ref in Refs(groups[i]) ==> ref !in Refs(groups[j])
  }

  /** No send of `sends` carries a reference of `groups` closer than 20 positions below `m`. */
  predicate Clear(sends: seq<Send>, groups: seq<seq<Event>>, m: nat) {
    forall i, j, ref :: 0 <= i < |sends| && 0 <= j < |groups| && ref in sends[i].refs && ref in Refs(groups[j]) ==>
      m - sends[i].at > MAX_RECENT
  }

  lemma {:induction false} DeliverAllSpaces(d: Desk, groups: seq<seq<Event>>, deliverable: bool, scripts: seq<GroupScript>, m: nat)
    requires Kept(d) && Booked(d) && Spaced(d.sends)
    requires m <= |d.channel.ledger| && Disjoint(groups) && Clear(d.sends, groups, m)
    ensures var r := DeliverAll(d, groups, deliverable, scripts); Booked(r) && Spaced(r.sends)
    decreases |groups|
  {
    hide Deliver, Kept;
    if groups != [] && scripts != [] {
      var rest := groups[1..];
      assert forall j :: 0 <= j < |rest| ==> rest[j] == groups[j + 1];
      if deliverable && scripts[0].throttled {
        DeliverAllSpaces(d, rest, deliverable, scripts[1..], m);
      } else {
        DeliverKeeps(d, groups[0], deliverable, scripts[0]);
        var (d1, alive) := Deliver(d, groups[0], deliverable, scripts[0]);
        OneMoreSend(d, d1, groups, m);
        if alive {
          DeliverAllSpaces(d1, rest, deliverable, scripts[1..], m);
        }
      }
    }
  }

  lemma OneMoreSend(d: Desk, r: Desk, groups: seq<seq<Event>>, m: nat)
    requires groups != [] && Booked(d) && Spaced(d.sends) && m <= |d.channel.ledger| && Disjoint(groups) && Clear(d.sends, groups, m)
    requires Advances(d.channel.ledger, r.channel.ledger)
    requires r.sends == d.sends ||
             (&& |r.channel.ledger| == |d.channel.ledger| + 1
              && (exists accepted :: r.sends == d.sends + [Send(Refs(groups[0]), |d.channel.ledger|, accepted)])
              && r.channel.ledger[|d.channel.ledger|].refs == Refs(groups[0]))
    ensures Booked(r) && Spaced(r.sends) && Clear(r.sends, groups[1..], m)
  {
    forall i, j, ref | 0 <= i < |r.sends| && 0 <= j < |groups[1..]| && ref in r.sends[i].refs && ref in Refs(groups[1..][j])
      ensures m - r.sends[i].at > MAX_RECENT
    {
      assert groups[1..][j] == groups[j + 1];
      if i == |d.sends| {
        assert false;
      }
    }
    forall i, j, ref | 0 <= i < j < |r.sends| && ref in r.sends[i].refs && ref in r.sends[j].refs
      ensures r.sends[j].at - r.sends[i].at > MAX_RECENT
    {
      if j == |d.sends| {
        assert ref in d.sends[i].refs && ref in Refs(groups[0]);
      }
    }
  }

  /** No reference is in two messages of one batch exactly when the events of each
      reference agree on action, result and rule. */
  lemma GroupsAreDisjoint(events: seq<Event>)
    ensures Disjoint(Groups(events)) <==> Consistent(events)
  {
    var groups := Groups(events);
    GroupsPartitionByKey(events);
    if Consistent(events) {
      forall i, j, ref | 0 <= i < j < |groups| && ref in Refs(groups[i])
        ensures ref !in Refs(groups[j])
      {
        if ref in Refs(groups[j]) {
          var e := GroupMember(events, groups, i, ref);
          var f := GroupMember(events, groups, j, ref);
        }
      }
    } else {
      var i, j :| 0 <= i < |events| && 0 <= j < |events| && events[i].ref == events[j].ref != "" && KeyOf(events[i]) != KeyOf(events[j]);
      var g := GroupOf(events, i);
      var h := GroupOf(events, j);
      var ref := events[i].ref;
      assert ref in Refs(groups[g]) && ref in Refs(groups[h]) && g != h;
    }
  }

  lemma GroupOf(events: seq<Event>, i: nat) returns (g: nat)
    requires i < |events|
    ensures var groups := Groups(events);
            && g < |groups| && groups[g] != [] && KeyOf(groups[g][0]) == KeyOf(events[i])
            && (events[i].ref != "" ==> events[i].ref in Refs(groups[g]))
  {
    var groups := Groups(events);
    g := GroupAt(groups, KeyOf(events[i]));
    GroupsPartitionByKey(events);
    WithKeyMember(events, KeyOf(events[i]), events[i]);
    RefsMember(groups[g], events[i].ref);
  }

  lemma GroupMember(events: seq<Event>, groups: seq<seq<Event>>, i: nat, ref: string) returns (e: Event)
    requires groups == Groups(events) && i < |groups| && ref in Refs(groups[i])
    ensures groups[i] != [] && e in events && e.ref == ref != "" && KeyOf(e) == KeyOf(groups[i][0])
  {
    GroupsPartitionByKey(events);
    RefsMember(groups[i], ref);
    var k :| 0 <= k < |groups[i]| && groups[i][k].ref == ref;
    e := groups[i][k];
    WithKeyMember(events, KeyOf(groups[i][0]), e);
  }

  /** A reference sent within the last 20 attempts shows in the status. */
  lemma RecentSendIsVisible(d: Desk, i: nat, ref: string)
    requires Kept(d) && Booked(d) && i < |d.sends| && ref in d.sends[i].refs
    ensures |d.channel.ledger| - d.sends[i].at <= MAX_RECENT ==> WasAttempted(d.channel.Current(), ref)
  {
    var ledger, at := d.channel.ledger, d.sends[i].at;
    var recent := d.channel.Current().recent;
    if |ledger| - at <= MAX_RECENT {
      assert recent[at - (|ledger| - |recent|)] == ledger[at];
    }
  }

  lemma BatchSpaces(d: Desk, cfg: Config, batch: seq<Event>, s: BatchScript)
    requires Kept(d) && Booked(d) && Spaced(d.sends) && Consistent(batch)
    requires s.listAt == |d.channel.versions| - 1
    ensures var r := DispatchBatch(d, cfg, batch, s); Booked(r) && Spaced(r.sends)
  {
    hide Kept, DeliverAll, Groups, Select, Dedupe;
    if s.listed && cfg.enabled {
      var st := d.channel.Current();
      var events := Select(cfg, st, Dedupe(batch));
      SelectionIsConsistent(cfg, st, batch);
      GroupsAreDisjoint(events);
      var groups := Groups(events);
      forall i, j, ref | 0 <= i < |d.sends| && 0 <= j < |groups| && ref in d.sends[i].refs && ref in Refs(groups[j])
        ensures |d.channel.ledger| - d.sends[i].at > MAX_RECENT
      {
        var e := GroupMember(events, groups, j, ref);
        SelectMember(cfg, st, Dedupe(batch), e);
        RecentSendIsVisible(d, i, ref);
      }
      DeliverAllSpaces(d, groups, s.deliverable, s.groups, |d.channel.ledger|);
    }
  }

  lemma SelectionIsConsistent(cfg: Config, st: Status, batch: seq<Event>)
    requires Consistent(batch)
    ensures Consistent(Select(cfg, st, Dedupe(batch)))
  {
    var events := Select(cfg, st, Dedupe(batch));
    forall i, j | 0 <= i < |events| && 0 <= j < |events| && events[i].ref == events[j].ref != ""
      ensures KeyOf(events[i]) == KeyOf(events[j])
    {
      SelectMember(cfg, st, Dedupe(batch), events[i]);
      SelectMember(cfg, st, Dedupe(batch), events[j]);
      DedupeMember(batch, events[i]);
      DedupeMember(batch, events[j]);
    }
  }

  /** Every batch of the run lists the channel as the dispatcher last wrote it. */
  predicate CurrentLists(d: Desk, run: seq<Step>)
    decreases |run|
  {
    run == [] ||
    (&& (run[0].Batch? ==> run[0].s.listAt == |d.channel.versions| - 1 && Consistent(run[0].batch))
     && CurrentLists(Take(d, run[0]), run[1..]))
  }

  /** Two sender calls that carry one audit reference are separated by at least 20 other
      attempts begun on the channel. */
  lemma {:induction false} RepeatsAreFarApart(d: Desk, run: seq<Step>)
    requires Kept(d) && Booked(d) && Spaced(d.sends) && CurrentLists(d, run)
    ensures Spaced(After(d, run).sends) && Booked(After(d, run))
    decreases |run|
  {
    hide Kept, DispatchBatch, RecoverIncompleteAttempts;
    if run != [] {
      var d1 := Take(d, run[0]);
      StepKeeps(d, run[0]);
      match run[0] {
        case Batch(cfg, batch, s) => BatchSpaces(d, cfg, batch, s);
        case Recovery(startedBefore, now, listAt, tries) => RecoveryKeeps(d, startedBefore, now, listAt, tries);
      }
      RepeatsAreFarApart(d1, run[1..]);
    }
  }

  /** All of it in every state a new channel's runs reach. */
  lemma ReachableBooks(run: seq<Step>)
    ensures var d := Desk(Channel([Status(0, 0, None, [])], []), 0, []);
            var r := After(d, run);
            && Kept(r) && Honest(r)
            && r.channel.Current().totalSent + r.channel.Current().totalErrors + Count(r.channel.ledger, InProgress) == |r.channel.ledger|
            && (CurrentLists(d, run) ==> Spaced(r.sends))
  {
    var d := Desk(Channel([Status(0, 0, None, [])], []), 0, []);
    RunKeepsBooks(d, run);
    RunIsHonest(d, run);
    Conservation(After(d, run).channel);
    if CurrentLists(d, run) {
      RepeatsAreFarApart(d, run);
    }
  }
}
