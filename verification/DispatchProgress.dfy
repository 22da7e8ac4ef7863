/** Undisturbed, the dispatcher does its work: every event a channel wants and has not yet
    attempted is attempted once, and interrupted attempts are closed as failed.  Whatever
    happens, nothing else is sent. */
module DispatchProgress {
  import opened Domain
  import opened Faults
  import opened AttemptLedger
  import opened DispatchSpec
  import opened DispatchSafety

  // ---------------------------------------------------------------- one group

  /** Not throttled, and both status writes succeed at once on the live version, which is
      number `v` when the group's turn comes. */
  predicate Undisturbed(s: GroupScript, v: nat) {
    && !s.throttled && !s.diesSending
    && s.begin != [] && s.begin[0] == Try(true, v, Done)
    && s.finish != [] && s.finish[0] == Try(true, v + 1, Done)
  }

  lemma FirstTrySucceeds(c: LiveChannel, m: Mutation, tries: seq<Try>)
    requires tries != [] && tries[0] == Try(true, |c.versions| - 1, Done)
    ensures var (r, reply) := Update(c, m, tries, MAX_TRIES);
            reply.Ok? && |r.versions| == |c.versions| + 1
  {
    hide Mutate, Enter;
  }

  /** What a group's turn adds: one closed attempt with the group's references and the
      provider's verdict, and one sender call if the channel is deliverable. */
  predicate Added(d: Desk, r: Desk, events: seq<Event>, deliverable: bool, accepted: bool) {
    var n := |d.channel.ledger|;
    && |r.channel.ledger| == n + 1 && d.channel.ledger <= r.channel.ledger
    && r.channel.ledger[n].refs == Refs(events)
    && r.channel.ledger[n].phase == (if deliverable && accepted then Succeeded else Failed)
    && r.sends == d.sends + if deliverable then [Send(Refs(events), n, accepted)] else []
  }

  lemma UndisturbedDelivery(d: Desk, events: seq<Event>, deliverable: bool, s: GroupScript)
    requires Kept(d) && Undisturbed(s, |d.channel.versions| - 1)
    ensures var (r, alive) := Deliver(d, events, deliverable, s);
            alive && |r.channel.versions| == |d.channel.versions| + 2 && Added(d, r, events, deliverable, s.accepted)
  {
    hide Update, Inv, Refs;
    var a := Attempt(d.nextId, Refs(events), InProgress, s.startedAt, None);
    FirstTrySucceeds(d.channel, Begin(a), s.begin);
    var c1 := Update(d.channel, Begin(a), s.begin, MAX_TRIES).0;
    UpdateKeeps(d.channel, Begin(a), s.begin, MAX_TRIES);
    BeginGrowsByOne(d.channel, a, s.begin, MAX_TRIES);
    FirstTrySucceeds(c1, Finish(a, deliverable && s.accepted, s.finishedAt), s.finish);
    AcknowledgedDeliveryIsRecorded(d, events, deliverable, s);
  }

  // ---------------------------------------------------------------- all groups

  ghost predicate AllAdded(d: Desk, r: Desk, groups: seq<seq<Event>>, deliverable: bool, scripts: seq<GroupScript>)
    requires |groups| <= |scripts|
  {
    var n, m := |d.channel.ledger|, |d.sends|;
    && |r.channel.ledger| == n + |groups| && d.channel.ledger <= r.channel.ledger && d.sends <= r.sends
    && |r.sends| == m + (if deliverable then |groups| else 0)
    && (forall i :: 0 <= i < |groups| ==>
          && r.channel.ledger[n + i].refs == Refs(groups[i])
          && r.channel.ledger[n + i].phase == if deliverable && scripts[i].accepted then Succeeded else Failed)
    && (deliverable ==> forall i :: 0 <= i < |groups| ==> r.sends[m + i] == Send(Refs(groups[i]), n + i, scripts[i].accepted))
  }

  lemma AddedThenAll(d: Desk, d1: Desk, r: Desk, groups: seq<seq<Event>>, deliverable: bool, scripts: seq<GroupScript>)
    requires groups != [] && |groups| <= |scripts| && Added(d, d1, groups[0], deliverable, scripts[0].accepted)
    requires AllAdded(d1, r, groups[1..], deliverable, scripts[1..])
    ensures AllAdded(d, r, groups, deliverable, scripts)
  {
    hide Refs;
    var n, m := |d.channel.ledger|, |d.sends|;
    forall i | 0 <= i < |groups|
      ensures && r.channel.ledger[n + i].refs == Refs(groups[i])
              && r.channel.ledger[n + i].phase == (if deliverable && scripts[i].accepted then Succeeded else Failed)
              && (deliverable ==> r.sends[m + i] == Send(Refs(groups[i]), n + i, scripts[i].accepted))
    {
      if i == 0 {
        assert r.channel.ledger[n] == d1.channel.ledger[n];
        assert deliverable ==> d1.sends[m] == Send(Refs(groups[0]), n, scripts[0].accepted) && r.sends[m] == d1.sends[m];
      } else {
        assert groups[1..][i - 1] == groups[i] && scripts[1..][i - 1] == scripts[i];
        assert r.channel.ledger[|d1.channel.ledger| + (i - 1)].refs == Refs(groups[1..][i - 1]);
        assert deliverable ==> r.sends[|d1.sends| + (i - 1)] == Send(Refs(groups[1..][i - 1]), |d1.channel.ledger| + (i - 1), scripts[1..][i - 1].accepted);
      }
    }
  }

  lemma {:induction false} UndisturbedGroups(d: Desk, groups: seq<seq<Event>>, deliverable: bool, scripts: seq<GroupScript>)
    requires Kept(d) && |groups| <= |scripts|
    requires forall i :: 0 <= i < |groups| ==> Undisturbed(scripts[i], |d.channel.versions| - 1 + 2 * i)
    ensures AllAdded(d, DeliverAll(d, groups, deliverable, scripts), groups, deliverable, scripts)
    decreases |groups|
  {
    hide Kept, Deliver, Refs, AllAdded, Added;
    if groups == [] {
      NoneAdded(d, deliverable, scripts);
    } else {
      assert Undisturbed(scripts[0], |d.channel.versions| - 1 + 2 * 0);
      UndisturbedDelivery(d, groups[0], deliverable, scripts[0]);
      DeliverKeeps(d, groups[0], deliverable, scripts[0]);
      var d1 := Deliver(d, groups[0], deliverable, scripts[0]).0;
      forall i | 0 <= i < |groups[1..]|
        ensures Undisturbed(scripts[1..][i], |d1.channel.versions| - 1 + 2 * i)
      {
        assert Undisturbed(scripts[i + 1], |d.channel.versions| - 1 + 2 * (i + 1));
      }
      UndisturbedGroups(d1, groups[1..], deliverable, scripts[1..]);
      AddedThenAll(d, d1, DeliverAll(d, groups, deliverable, scripts), groups, deliverable, scripts);
    }
  }

  lemma NoneAdded(d: Desk, deliverable: bool, scripts: seq<GroupScript>)
    ensures AllAdded(d, d, [], deliverable, scripts)
  {
  }

  // ---------------------------------------------------------------- a batch

  lemma {:induction false} DedupeIsNotLonger(batch: seq<Event>)
    ensures |Dedupe(batch)| <= |batch|
  {
    if batch != [] {
      DedupeIsNotLonger(batch[..|batch| - 1]);
    }
  }

  /** `e` occurs in the batch before `f` first does. */
  ghost predicate Earlier(batch: seq<Event>, e: Event, f: Event) {
    exists p :: 0 <= p <= |batch| && e in batch[..p] && f !in batch[..p]
  }

  /** No event is left twice, and events stay in the order of their first occurrence. */
  lemma {:induction false} DedupeKeepsFirsts(batch: seq<Event>, i: nat, j: nat)
    requires i < j < |Dedupe(batch)|
    ensures Dedupe(batch)[i] != Dedupe(batch)[j] && Earlier(batch, Dedupe(batch)[i], Dedupe(batch)[j])
  {
    var n := |batch| - 1;
    var front, e := Dedupe(batch[..n]), batch[n];
    if j < |front| {
      DedupeKeepsFirsts(batch[..n], i, j);
      var p :| 0 <= p <= n && front[i] in batch[..n][..p] && front[j] !in batch[..n][..p];
      assert batch[..n][..p] == batch[..p];
    } else {
      DedupeMember(batch[..n], front[i]);
      DedupeMember(batch[..n], e);
      assert front[i] in front;
      assert front[i] in batch[..n] && e !in batch[..n];
    }
  }

  lemma {:induction false} SelectIsNotLonger(cfg: Config, st: Status, events: seq<Event>)
    ensures |Select(cfg, st, events)| <= |events|
  {
    hide Selected;
    if events != [] {
      SelectIsNotLonger(cfg, st, events[..|events| - 1]);
    }
  }

  lemma {:induction false} NoMoreGroupsThanEvents(events: seq<Event>)
    ensures |Groups(events)| <= |events|
  {
    if events != [] {
      NoMoreGroupsThanEvents(events[..|events| - 1]);
    }
  }

  /** The channel is enabled and listed, and no call of the batch is disturbed. */
  predicate UndisturbedBatch(d: Desk, cfg: Config, batch: seq<Event>, s: BatchScript) {
    && cfg.enabled && s.listed && s.listAt < |d.channel.versions| && |batch| <= |s.groups|
    && forall i :: 0 <= i < |s.groups| ==> Undisturbed(s.groups[i], |d.channel.versions| - 1 + 2 * i)
  }

  /** The event passes the channel's filters and no attempt in the listed history carries its
      reference. */
  predicate Due(d: Desk, cfg: Config, s: BatchScript, e: Event)
    requires s.listAt < |d.channel.versions|
  {
    var st := d.channel.versions[s.listAt];
    && (cfg.events == [] || e.action in cfg.events) && (cfg.namespaces == [] || e.namespace in cfg.namespaces)
    && (forall i :: 0 <= i < |st.recent| ==> e.ref !in st.recent[i].refs)
    && (st.last.Some? ==> e.ref !in st.last.value.refs)
  }

  /** Attempt `i` is one this batch added, and carries the reference. */
  predicate Carries(d: Desk, r: Desk, ref: string, i: nat) {
    |d.channel.ledger| <= i < |r.channel.ledger| && ref in r.channel.ledger[i].refs
  }

  /** Sender call `i` is one this batch made, and carries the reference. */
  predicate SentIn(d: Desk, r: Desk, ref: string, i: nat) {
    |d.sends| <= i < |r.sends| && ref in r.sends[i].refs
  }

  lemma ListedIn(d: Desk, cfg: Config, batch: seq<Event>, s: BatchScript)
    requires UndisturbedBatch(d, cfg, batch, s)
    ensures s.listAt < |d.channel.versions|
  {
  }

  /** A closed attempt of this batch carries the reference. */
  ghost predicate AttemptedIn(d: Desk, r: Desk, ref: string) {
    exists i: nat :: Carries(d, r, ref, i) && !r.channel.ledger[i].phase.InProgress?
  }

  ghost predicate Sent(d: Desk, r: Desk, ref: string) {
    exists i: nat :: SentIn(d, r, ref, i)
  }

  lemma BatchAddsItsGroups(d: Desk, cfg: Config, batch: seq<Event>, s: BatchScript)
    requires Kept(d) && UndisturbedBatch(d, cfg, batch, s)
    ensures var groups := Groups(Select(cfg, d.channel.versions[s.listAt], Dedupe(batch)));
            |groups| <= |s.groups| && AllAdded(d, DispatchBatch(d, cfg, batch, s), groups, s.deliverable, s.groups)
  {
    hide Kept, DeliverAll, Groups, Select, Dedupe, AllAdded;
    var events := Select(cfg, d.channel.versions[s.listAt], Dedupe(batch));
    DedupeIsNotLonger(batch);
    SelectIsNotLonger(cfg, d.channel.versions[s.listAt], Dedupe(batch));
    NoMoreGroupsThanEvents(events);
    UndisturbedGroups(d, Groups(events), s.deliverable, s.groups);
  }

  lemma DueIsGrouped(d: Desk, cfg: Config, batch: seq<Event>, s: BatchScript, e: Event) returns (g: nat)
    requires s.listAt < |d.channel.versions| && e in batch && e.ref != "" && Due(d, cfg, s, e)
    ensures var groups := Groups(Select(cfg, d.channel.versions[s.listAt], Dedupe(batch)));
            g < |groups| && e.ref in Refs(groups[g])
  {
    hide Groups, Select, Dedupe, Refs;
    var st := d.channel.versions[s.listAt];
    var events := Select(cfg, st, Dedupe(batch));
    DedupeMember(batch, e);
    SelectMember(cfg, st, Dedupe(batch), e);
    var i :| 0 <= i < |events| && events[i] == e;
    g := GroupOf(events, i);
  }

  /** Every due event of an undisturbed batch has its reference in an attempt the batch adds,
      closed with the provider's verdict; on a deliverable channel a sender call carries it
      too. */
  lemma EveryDueEventIsAttempted(d: Desk, cfg: Config, batch: seq<Event>, s: BatchScript, e: Event)
    requires Kept(d) && UndisturbedBatch(d, cfg, batch, s) && e in batch && e.ref != "" && Due(d, cfg, s, e)
    ensures var r := DispatchBatch(d, cfg, batch, s);
            AttemptedIn(d, r, e.ref) && (s.deliverable ==> Sent(d, r, e.ref))
  {
    hide Kept, DispatchBatch, Groups, Select, Dedupe, Refs, AllAdded, UndisturbedBatch, Due;
    var r := DispatchBatch(d, cfg, batch, s);
    ListedIn(d, cfg, batch, s);
    var g := DueIsGrouped(d, cfg, batch, s, e);
    BatchAddsItsGroups(d, cfg, batch, s);
    var groups := Groups(Select(cfg, d.channel.versions[s.listAt], Dedupe(batch)));
    AddedGroup(d, r, groups, s.deliverable, s.groups, g);
    assert Carries(d, r, e.ref, |d.channel.ledger| + g);
    if s.deliverable {
      assert SentIn(d, r, e.ref, |d.sends| + g);
    }
  }

  lemma AddedGroup(d: Desk, r: Desk, groups: seq<seq<Event>>, deliverable: bool, scripts: seq<GroupScript>, g: nat)
    requires |groups| <= |scripts| && g < |groups| && AllAdded(d, r, groups, deliverable, scripts)
    ensures var n, m := |d.channel.ledger|, |d.sends|;
            && |r.channel.ledger| == n + |groups| && |r.sends| == m + (if deliverable then |groups| else 0)
            && r.channel.ledger[n + g].refs == Refs(groups[g]) && !r.channel.ledger[n + g].phase.InProgress?
            && (deliverable ==> r.sends[m + g].refs == Refs(groups[g]))
  {
    hide Refs;
  }

  /** And in one only, when events about one audit record agree on action, result and rule. */
  lemma EveryDueEventIsAttemptedOnce(d: Desk, cfg: Config, batch: seq<Event>, s: BatchScript, ref: string, i: nat, j: nat)
    requires Kept(d) && UndisturbedBatch(d, cfg, batch, s) && Consistent(batch)
    ensures var r := DispatchBatch(d, cfg, batch, s);
            && (Carries(d, r, ref, i) && Carries(d, r, ref, j) ==> i == j)
            && (SentIn(d, r, ref, i) && SentIn(d, r, ref, j) ==> i == j)
  {
    hide Kept, DispatchBatch, Groups, Select, Dedupe, Refs, AllAdded, UndisturbedBatch, Consistent;
    ListedIn(d, cfg, batch, s);
    var st := d.channel.versions[s.listAt];
    var groups := Groups(Select(cfg, st, Dedupe(batch)));
    SelectionIsConsistent(cfg, st, batch);
    GroupsAreDisjoint(Select(cfg, st, Dedupe(batch)));
    BatchAddsItsGroups(d, cfg, batch, s);
    NoReferenceTwice(d, DispatchBatch(d, cfg, batch, s), groups, s.deliverable, s.groups, ref, i, j);
  }

  lemma NoReferenceTwice(d: Desk, r: Desk, groups: seq<seq<Event>>, deliverable: bool, scripts: seq<GroupScript>, ref: string, i: nat, j: nat)
    requires |groups| <= |scripts| && AllAdded(d, r, groups, deliverable, scripts) && Disjoint(groups)
    ensures Carries(d, r, ref, i) && Carries(d, r, ref, j) ==> i == j
    ensures SentIn(d, r, ref, i) && SentIn(d, r, ref, j) ==> i == j
  {
    hide Refs;
    AddedLengths(d, r, groups, deliverable, scripts);
    var n, m := |d.channel.ledger|, |d.sends|;
    hide AllAdded;
    if Carries(d, r, ref, i) && Carries(d, r, ref, j) {
      AddedGroup(d, r, groups, deliverable, scripts, i - n);
      AddedGroup(d, r, groups, deliverable, scripts, j - n);
    }
    if SentIn(d, r, ref, i) && SentIn(d, r, ref, j) {
      AddedGroup(d, r, groups, deliverable, scripts, i - m);
      AddedGroup(d, r, groups, deliverable, scripts, j - m);
    }
  }

  lemma AddedLengths(d: Desk, r: Desk, groups: seq<seq<Event>>, deliverable: bool, scripts: seq<GroupScript>)
    requires |groups| <= |scripts| && AllAdded(d, r, groups, deliverable, scripts)
    ensures |r.channel.ledger| == |d.channel.ledger| + |groups| && |r.sends| == |d.sends| + (if deliverable then |groups| else 0)
  {
  }

  // ---------------------------------------------------------------- nothing else is sent

  /** Whatever happens, a message holds the references of one of the groups. */
  lemma {:induction false} SendsAreGroups(d: Desk, groups: seq<seq<Event>>, deliverable: bool, scripts: seq<GroupScript>, k: nat)
    requires Kept(d) && |d.sends| <= k < |DeliverAll(d, groups, deliverable, scripts).sends|
    ensures deliverable && exists g :: 0 <= g < |groups| && DeliverAll(d, groups, deliverable, scripts).sends[k].refs == Refs(groups[g])
    decreases |groups|
  {
    hide Kept, Deliver, Refs;
    if groups != [] && scripts != [] {
      if deliverable && scripts[0].throttled {
        SendsAreGroups(d, groups[1..], deliverable, scripts[1..], k);
        var g :| 0 <= g < |groups[1..]| && DeliverAll(d, groups, deliverable, scripts).sends[k].refs == Refs(groups[1..][g]);
        assert groups[g + 1] == groups[1..][g];
      } else {
        DeliverKeeps(d, groups[0], deliverable, scripts[0]);
        SendsOnlyIfDeliverable(d, groups[0], deliverable, scripts[0]);
        var (d1, alive) := Deliver(d, groups[0], deliverable, scripts[0]);
        SendsGrow(d1, groups[1..], deliverable, scripts[1..]);
        if k < |d1.sends| {
          assert DeliverAll(d, groups, deliverable, scripts).sends[k] == d1.sends[k];
        } else {
          SendsAreGroups(d1, groups[1..], deliverable, scripts[1..], k);
          var g :| 0 <= g < |groups[1..]| && DeliverAll(d, groups, deliverable, scripts).sends[k].refs == Refs(groups[1..][g]);
          assert groups[g + 1] == groups[1..][g];
        }
      }
    }
  }

  lemma SendsOnlyIfDeliverable(d: Desk, events: seq<Event>, deliverable: bool, s: GroupScript)
    ensures Deliver(d, events, deliverable, s).0.sends != d.sends ==> deliverable
  {
  }

  lemma {:induction false} SendsGrow(d: Desk, groups: seq<seq<Event>>, deliverable: bool, scripts: seq<GroupScript>)
    requires Kept(d)
    ensures d.sends <= DeliverAll(d, groups, deliverable, scripts).sends
    decreases |groups|
  {
    hide Kept, Deliver;
    if groups != [] && scripts != [] {
      if deliverable && scripts[0].throttled {
        SendsGrow(d, groups[1..], deliverable, scripts[1..]);
      } else {
        DeliverKeeps(d, groups[0], deliverable, scripts[0]);
        SendsGrow(Deliver(d, groups[0], deliverable, scripts[0]).0, groups[1..], deliverable, scripts[1..]);
      }
    }
  }

  /** Whatever is stale, lost, throttled or fatal: a batch sends only references of its own
      events that pass an enabled channel's filters and that the listed history does not
      carry. */
  lemma OnlyDueEventsAreSent(d: Desk, cfg: Config, batch: seq<Event>, s: BatchScript, ref: string, k: nat)
    requires Kept(d) && SentIn(d, DispatchBatch(d, cfg, batch, s), ref, k)
    ensures cfg.enabled && s.deliverable && s.listAt < |d.channel.versions|
    ensures exists e :: e in batch && e.ref == ref != "" && Due(d, cfg, s, e)
  {
    hide Kept, DeliverAll, Groups, Select, Dedupe, Refs;
    var st := d.channel.versions[s.listAt];
    var events := Select(cfg, st, Dedupe(batch));
    var groups := Groups(events);
    SendsAreGroups(d, groups, s.deliverable, s.groups, k);
    var g :| 0 <= g < |groups| && DispatchBatch(d, cfg, batch, s).sends[k].refs == Refs(groups[g]);
    var e := GroupMember(events, groups, g, ref);
    SelectMember(cfg, st, Dedupe(batch), e);
    DedupeMember(batch, e);
    assert Due(d, cfg, s, e);
  }

  // ---------------------------------------------------------------- recovery and retries

  /** An undisturbed recovery closes as failed exactly the attempts in progress among the last
      20 that started no later than the given time, and changes no other. */
  lemma RecoveryClosesInterrupted(d: Desk, startedBefore: int, now: int, tries: seq<Try>, i: nat)
    requires Kept(d) && i < |d.channel.ledger| && tries != [] && tries[0] == Try(true, |d.channel.versions| - 1, Done)
    ensures var r := RecoverIncompleteAttempts(d, startedBefore, now, |d.channel.versions| - 1, tries);
            var a := d.channel.ledger[i];
            && |r.channel.ledger| == |d.channel.ledger| && r.sends == d.sends
            && r.channel.ledger[i] ==
                 if a.phase == InProgress && a.startedAt <= startedBefore && i + 20 >= |d.channel.ledger|
                 then a.(phase := Failed, completedAt := Some(now)) else a
  {
    hide Update, DistinctIds, Count;
    var c := d.channel;
    var m := RecoverIncomplete(startedBefore, now);
    RecoveryKeeps(d, startedBefore, now, |c.versions| - 1, tries);
    if HasRecoverable(c.Current(), startedBefore) {
      FirstTryEnters(c, m, tries);
      RecoveredAt(c.ledger, startedBefore, now, i);
    } else if i + 20 >= |c.ledger| {
      var recent := c.Current().recent;
      assert recent[i - (|c.ledger| - |recent|)] == c.ledger[i];
    }
  }

  lemma FirstTryEnters(c: LiveChannel, m: Mutation, tries: seq<Try>)
    requires tries != [] && tries[0] == Try(true, |c.versions| - 1, Done)
    ensures Update(c, m, tries, MAX_TRIES).0.ledger == Enter(c.ledger, m)
  {
    hide Mutate, Enter;
  }

  lemma RecoveredAt(ledger: seq<Attempt>, startedBefore: int, now: int, i: nat)
    requires i < |ledger|
    ensures var l := Enter(ledger, RecoverIncomplete(startedBefore, now));
            && |l| == |ledger|
            && l[i] == if i + 20 >= |ledger| then Recover(ledger[i], startedBefore, now) else ledger[i]
  {
    hide Enter, Trim, Recover, RecoverAll;
    var n := if |ledger| > 20 then |ledger| - 20 else 0;
    RecoverySplits(ledger, startedBefore, now, n);
    var recovered := RecoverAll(ledger[n..], startedBefore, now);
    if i >= n {
      assert recovered[i - n] == Recover(ledger[n..][i - n], startedBefore, now);
    }
  }

  /** A status write is tried five times: four refusals leave the fifth try its chance, and no
      sixth follows. */
  lemma FiveTries(c: LiveChannel, m: Mutation, tries: seq<Try>)
    requires |tries| >= 5 && forall i :: 0 <= i < 4 ==> tries[i].fate.Refused?
    ensures Update(c, m, tries, MAX_TRIES) == TryUpdate(c, m, tries[4])
  {
    hide Mutate, Enter;
    RefusedTry(c, m, tries, 5);
    RefusedTry(c, m, tries[1..], 4);
    RefusedTry(c, m, tries[2..], 3);
    RefusedTry(c, m, tries[3..], 2);
    assert tries[4..][0] == tries[4];
    assert tries[1..][1..] == tries[2..] && tries[2..][1..] == tries[3..] && tries[3..][1..] == tries[4..];
    var (c1, reply) := TryUpdate(c, m, tries[4]);
    assert Update(c1, m, tries[4..][1..], 0) == (c1, Error);
  }

  lemma RefusedTry(c: LiveChannel, m: Mutation, tries: seq<Try>, left: nat)
    requires tries != [] && left > 0 && tries[0].fate.Refused?
    ensures Update(c, m, tries, left) == Update(c, m, tries[1..], left - 1)
  {
    hide Mutate, Enter;
  }

  /** A throttled group of a deliverable channel is passed over. */
  lemma {:induction false} ThrottledGroupsWait(d: Desk, groups: seq<seq<Event>>, scripts: seq<GroupScript>)
    requires forall i :: 0 <= i < |scripts| ==> scripts[i].throttled
    ensures DeliverAll(d, groups, true, scripts) == d
    decreases |groups|
  {
    if groups != [] && scripts != [] {
      ThrottledGroupsWait(d, groups[1..], scripts[1..]);
    }
  }
}
