/** The attempt ledger of one notification channel
    (internal/adapters/driven/notifications/dispatcher.go).

    The channel status keeps two counters, the last attempt and at most 20 recent ones,
    all updated through retried compare-and-swap writes over possibly stale reads.  It is
    shown to be a bounded view of a simple ledger that lists every attempt ever
    committed, each leaving "in progress" at most once. */
module AttemptLedger {
  import opened Domain
  import opened Faults

  const MAX_RECENT := 20
  const MAX_TRIES := 5

  datatype Phase = InProgress | Succeeded | Failed

  datatype Attempt = Attempt(id: nat, refs: seq<string>, phase: Phase, startedAt: int, completedAt: Option<int>)

  datatype Status = Status(totalSent: nat, totalErrors: nat, last: Option<Attempt>, recent: seq<Attempt>)

  // ---------------------------------------------------------------- the three status mutations

  function IndexOf(recent: seq<Attempt>, id: nat): (i: nat)
    ensures i <= |recent|
    ensures i < |recent| ==> recent[i].id == id
    ensures forall k :: 0 <= k < i ==> recent[k].id != id
  {
    if recent == [] || recent[0].id == id then 0 else 1 + IndexOf(recent[1..], id)
  }

  function Trim(recent: seq<Attempt>): seq<Attempt> {
    if |recent| > MAX_RECENT then recent[|recent| - MAX_RECENT..] else recent
  }

  function StoreAttempt(st: Status, a: Attempt): Status {
    var i := IndexOf(st.recent, a.id);
    st.(last := Some(a), recent := if i < |st.recent| then st.recent[i := a] else Trim(st.recent + [a]))
  }

  function Completed(a: Attempt, ok: bool, now: int): Attempt {
    a.(phase := if ok then Succeeded else Failed, completedAt := Some(now))
  }

  function FinishAttempt(st: Status, a: Attempt, ok: bool, now: int): Status {
    if st.last.Some? && st.last.value.id == a.id && !st.last.value.phase.InProgress? then st
    else
      var counted := if ok then st.(totalSent := st.totalSent + 1) else st.(totalErrors := st.totalErrors + 1);
      StoreAttempt(counted, Completed(a, ok, now))
  }

  predicate Recoverable(a: Attempt, startedBefore: int) {
    a.phase.InProgress? && a.startedAt <= startedBefore
  }

  function Recover(a: Attempt, startedBefore: int, now: int): Attempt {
    if Recoverable(a, startedBefore) then Completed(a, false, now) else a
  }

  function RecoverAll(s: seq<Attempt>, startedBefore: int, now: int): (r: seq<Attempt>)
    ensures |r| == |s| && forall i :: 0 <= i < |s| ==> r[i] == Recover(s[i], startedBefore, now)
  {
    seq(|s|, i requires 0 <= i < |s| => Recover(s[i], startedBefore, now))
  }

  function CountRecoverable(s: seq<Attempt>, startedBefore: int): nat {
    if s == [] then 0
    else CountRecoverable(s[..|s| - 1], startedBefore) + if Recoverable(s[|s| - 1], startedBefore) then 1 else 0
  }

  /** The last attempt is counted on its own only when the history does not hold it. */
  function RecoverStatus(st: Status, startedBefore: int, now: int): Status {
    var inHistory := exists i :: 0 <= i < |st.recent| && Recoverable(st.recent[i], startedBefore) && st.last.Some? && st.recent[i].id == st.last.value.id;
    var extra := if st.last.Some? && Recoverable(st.last.value, startedBefore) && !inHistory then 1 else 0;
    Status(st.totalSent, st.totalErrors + CountRecoverable(st.recent, startedBefore) + extra,
           if st.last.Some? then Some(Recover(st.last.value, startedBefore, now)) else None,
           RecoverAll(st.recent, startedBefore, now))
  }

  datatype Mutation = Begin(a: Attempt) | Finish(a: Attempt, ok: bool, now: int) | RecoverIncomplete(startedBefore: int, now: int)

  function Mutate(st: Status, m: Mutation): Status {
    match m
    case Begin(a) => StoreAttempt(st, a)
    case Finish(a, ok, now) => FinishAttempt(st, a, ok, now)
    case RecoverIncomplete(startedBefore, now) => RecoverStatus(st, startedBefore, now)
  }

  // ---------------------------------------------------------------- retried compare-and-swap

  /** One try of updateChannelStatus: the read fails, or returns version `at`; then the
      write meets its fate. */
  datatype Try = Try(readable: bool, at: nat, fate: Fate)

  /** `versions` are the committed statuses.  `ledger` lists every attempt ever committed,
      oldest first; a committed mutation is entered in it as well. */
  datatype Channel = Channel(versions: seq<Status>, ledger: seq<Attempt>) {
    ghost predicate Live() {
      |versions| > 0
    }

    function Current(): Status
      requires |versions| > 0
    {
      versions[|versions| - 1]
    }
  }

  type LiveChannel = c: Channel | c.Live() witness Channel([Status(0, 0, None, [])], [])

  function TryUpdate(c: LiveChannel, m: Mutation, t: Try): (r: (LiveChannel, Reply))
    ensures m.Begin? && r.1.Ok? ==> r.0.ledger != []
  {
    if !t.readable || t.at >= |c.versions| then (c, if t.fate.Dies() then Dead else Error) else
    var fits := t.at == |c.versions| - 1;
    (if fits && t.fate.Commits()
     then Channel(c.versions + [Mutate(c.versions[t.at], m)], Enter(c.ledger, m))
     else c,
     ReplyTo(t.fate, fits))
  }

  /** At most five tries; a shorter list means the context was cancelled. */
  function Update(c: LiveChannel, m: Mutation, tries: seq<Try>, left: nat): (r: (LiveChannel, Reply))
    ensures m.Begin? && r.1.Ok? ==> r.0.ledger != []
    decreases left
  {
    if left == 0 || tries == [] then (c, Error) else
    var (c1, reply) := TryUpdate(c, m, tries[0]);
    if reply.Error? then Update(c1, m, tries[1..], left - 1) else (c1, reply)
  }

  // ---------------------------------------------------------------- the ledger

  function Enter(ledger: seq<Attempt>, m: Mutation): seq<Attempt> {
    match m
    case Begin(a) => if ledger != [] && ledger[|ledger| - 1].id == a.id then ledger else ledger + [a]
    case Finish(a, ok, now) =>
      if ledger != [] && ledger[|ledger| - 1].id == a.id && ledger[|ledger| - 1].phase.InProgress?
      then ledger[|ledger| - 1 := Completed(a, ok, now)] else ledger
    case RecoverIncomplete(startedBefore, now) =>
      ledger[..|ledger| - |Trim(ledger)|] + RecoverAll(Trim(ledger), startedBefore, now)
  }

  function Count(s: seq<Attempt>, phase: Phase): nat {
    if s == [] then 0 else Count(s[..|s| - 1], phase) + if s[|s| - 1].phase == phase then 1 else 0
  }

  predicate DistinctIds(s: seq<Attempt>) {
    forall i, j :: 0 <= i < j < |s| ==> s[i].id != s[j].id
  }

  /** The status is the bounded view of the ledger. */
  predicate Views(st: Status, ledger: seq<Attempt>) {
    && st.recent == Trim(ledger)
    && st.last == (if ledger == [] then None else Some(ledger[|ledger| - 1]))
    && st.totalSent == Count(ledger, Succeeded) && st.totalErrors == Count(ledger, Failed)
  }

  predicate Inv(c: LiveChannel) {
    DistinctIds(c.ledger) && Views(c.Current(), c.ledger)
  }

  /** The single dispatcher begins with a fresh identifier or retries its own begin, and
      finishes only the attempt it began last. */
  predicate Admissible(ledger: seq<Attempt>, m: Mutation) {
    match m
    case Begin(a) =>
      a.phase.InProgress? &&
      ((forall i :: 0 <= i < |ledger| ==> ledger[i].id != a.id) || (ledger != [] && ledger[|ledger| - 1] == a))
    case Finish(a, ok, now) =>
      && ledger != [] && ledger[|ledger| - 1].id == a.id && a.phase.InProgress?
      && (ledger[|ledger| - 1].phase.InProgress? ==> ledger[|ledger| - 1] == a)
    case RecoverIncomplete(_, _) => true
  }

  /** Attempts keep their identity, and one that left "in progress" never changes again. */
  predicate Advances(before: seq<Attempt>, after: seq<Attempt>) {
    |before| <= |after| &&
    forall i :: 0 <= i < |before| ==>
      && after[i].id == before[i].id && after[i].refs == before[i].refs
      && (!before[i].phase.InProgress? ==> after[i] == before[i])
  }

  // ---------------------------------------------------------------- lemmas

  lemma AdvancesTransitive(a: seq<Attempt>, b: seq<Attempt>, c: seq<Attempt>)
    requires Advances(a, b) && Advances(b, c)
    ensures Advances(a, c)
  {
  }

  lemma {:induction false} CountConcat(a: seq<Attempt>, b: seq<Attempt>, phase: Phase)
    ensures Count(a + b, phase) == Count(a, phase) + Count(b, phase)
  {
    if b == [] {
      assert a + b == a;
    } else {
      CountConcat(a, b[..|b| - 1], phase);
      assert (a + b)[..|a + b| - 1] == a + b[..|b| - 1];
    }
  }

  lemma {:induction false} CountRecovered(s: seq<Attempt>, startedBefore: int, now: int)
    ensures Count(RecoverAll(s, startedBefore, now), Failed) == Count(s, Failed) + CountRecoverable(s, startedBefore)
    ensures Count(RecoverAll(s, startedBefore, now), Succeeded) == Count(s, Succeeded)
  {
    if s != [] {
      CountRecovered(s[..|s| - 1], startedBefore, now);
      var r := RecoverAll(s, startedBefore, now);
      assert r[..|r| - 1] == RecoverAll(s[..|s| - 1], startedBefore, now);
    }
  }

  lemma LastInTrim(ledger: seq<Attempt>)
    requires ledger != []
    ensures Trim(ledger) != [] && Trim(ledger)[|Trim(ledger)| - 1] == ledger[|ledger| - 1]
  {
  }

  lemma IndexOfLast(recent: seq<Attempt>)
    requires recent != [] && DistinctIds(recent)
    ensures IndexOf(recent, recent[|recent| - 1].id) == |recent| - 1
  {
  }

  lemma IndexOfAbsent(recent: seq<Attempt>, id: nat)
    requires forall i :: 0 <= i < |recent| ==> recent[i].id != id
    ensures IndexOf(recent, id) == |recent|
  {
  }

  lemma TrimDistinct(ledger: seq<Attempt>)
    requires DistinctIds(ledger)
    ensures DistinctIds(Trim(ledger))
  {
  }

  // how the ledger moves

  lemma BeginAdvances(ledger: seq<Attempt>, a: Attempt)
    requires DistinctIds(ledger) && Admissible(ledger, Begin(a))
    ensures var l := Enter(ledger, Begin(a)); DistinctIds(l) && Advances(ledger, l) && Entered(l, Begin(a))
  {
  }

  lemma FinishAdvances(ledger: seq<Attempt>, a: Attempt, ok: bool, now: int)
    requires DistinctIds(ledger) && Admissible(ledger, Finish(a, ok, now))
    ensures var l := Enter(ledger, Finish(a, ok, now)); DistinctIds(l) && Advances(ledger, l) && Entered(l, Finish(a, ok, now))
  {
  }

  lemma RecoverAdvances(ledger: seq<Attempt>, startedBefore: int, now: int)
    requires DistinctIds(ledger)
    ensures var l := Enter(ledger, RecoverIncomplete(startedBefore, now)); DistinctIds(l) && Advances(ledger, l)
  {
    hide Enter;
    RecoverLength(ledger, startedBefore, now);
    var l := Enter(ledger, RecoverIncomplete(startedBefore, now));
    forall i | 0 <= i < |ledger|
      ensures l[i] == ledger[i] || l[i] == Recover(ledger[i], startedBefore, now)
    {
      RecoverAt(ledger, startedBefore, now, i);
    }
  }

  lemma RecoverLength(ledger: seq<Attempt>, startedBefore: int, now: int)
    ensures |Enter(ledger, RecoverIncomplete(startedBefore, now))| == |ledger|
  {
  }

  lemma RecoverAt(ledger: seq<Attempt>, startedBefore: int, now: int, i: nat)
    requires i < |ledger|
    ensures var l := Enter(ledger, RecoverIncomplete(startedBefore, now));
            |l| == |ledger| && (l[i] == ledger[i] || l[i] == Recover(ledger[i], startedBefore, now))
  {
    hide Enter, Trim, Recover, RecoverAll;
    var n := if |ledger| > 20 then |ledger| - 20 else 0;
    RecoverySplits(ledger, startedBefore, now, n);
    var recovered := RecoverAll(ledger[n..], startedBefore, now);
    if i >= n {
      assert recovered[i - n] == Recover(ledger[n..][i - n], startedBefore, now);
    }
  }

  lemma RecoverySplits(ledger: seq<Attempt>, startedBefore: int, now: int, n: nat)
    requires n == if |ledger| > 20 then |ledger| - 20 else 0
    ensures Enter(ledger, RecoverIncomplete(startedBefore, now)) == ledger[..n] + RecoverAll(ledger[n..], startedBefore, now)
  {
    hide RecoverAll;
    assert Trim(ledger) == ledger[n..];
  }

  // how the status follows

  lemma BeginAgainViews(st: Status, ledger: seq<Attempt>, a: Attempt)
    requires DistinctIds(ledger) && Views(st, ledger) && ledger != [] && ledger[|ledger| - 1] == a
    ensures StoreAttempt(st, a) == st
  {
    TrimDistinct(ledger);
    LastInTrim(ledger);
    IndexOfLast(st.recent);
  }

  lemma TrimMember(ledger: seq<Attempt>, id: nat)
    requires forall i :: 0 <= i < |ledger| ==> ledger[i].id != id
    ensures forall i :: 0 <= i < |Trim(ledger)| ==> Trim(ledger)[i].id != id
  {
  }

  lemma TrimAppend(ledger: seq<Attempt>, a: Attempt)
    ensures Trim(Trim(ledger) + [a]) == Trim(ledger + [a])
  {
  }

  lemma CountAppend(ledger: seq<Attempt>, a: Attempt, phase: Phase)
    ensures Count(ledger + [a], phase) == Count(ledger, phase) + if a.phase == phase then 1 else 0
  {
    assert (ledger + [a])[..|ledger|] == ledger;
  }

  lemma BeginFreshViews(st: Status, ledger: seq<Attempt>, a: Attempt)
    requires Views(st, ledger) && a.phase.InProgress? && forall i :: 0 <= i < |ledger| ==> ledger[i].id != a.id
    ensures Views(StoreAttempt(st, a), ledger + [a])
  {
    hide Count;
    TrimMember(ledger, a.id);
    IndexOfAbsent(st.recent, a.id);
    TrimAppend(ledger, a);
    CountAppend(ledger, a, Succeeded);
    CountAppend(ledger, a, Failed);
  }

  lemma BeginViews(st: Status, ledger: seq<Attempt>, a: Attempt)
    requires DistinctIds(ledger) && Views(st, ledger) && Admissible(ledger, Begin(a))
    ensures Views(StoreAttempt(st, a), Enter(ledger, Begin(a)))
  {
    hide StoreAttempt, Views;
    if ledger != [] && ledger[|ledger| - 1] == a {
      BeginAgainViews(st, ledger, a);
    } else {
      BeginFreshViews(st, ledger, a);
    }
  }

  lemma ReplaceLast(st: Status, ledger: seq<Attempt>, done: Attempt)
    requires DistinctIds(ledger) && ledger != [] && st.recent == Trim(ledger) && ledger[|ledger| - 1].id == done.id
    ensures StoreAttempt(st, done) == st.(last := Some(done), recent := Trim(ledger[|ledger| - 1 := done]))
  {
    TrimDistinct(ledger);
    LastInTrim(ledger);
    IndexOfLast(st.recent);
    assert Trim(ledger[|ledger| - 1 := done]) == Trim(ledger)[|Trim(ledger)| - 1 := done];
  }

  lemma CountReplaced(ledger: seq<Attempt>, done: Attempt, phase: Phase)
    requires ledger != []
    ensures Count(ledger[|ledger| - 1 := done], phase)
            == Count(ledger[..|ledger| - 1], phase) + if done.phase == phase then 1 else 0
  {
    assert ledger[|ledger| - 1 := done][..|ledger| - 1] == ledger[..|ledger| - 1];
  }

  lemma FinishViews(st: Status, ledger: seq<Attempt>, a: Attempt, ok: bool, now: int)
    requires DistinctIds(ledger) && Views(st, ledger) && Admissible(ledger, Finish(a, ok, now))
    ensures Views(FinishAttempt(st, a, ok, now), Enter(ledger, Finish(a, ok, now)))
  {
    hide StoreAttempt, Trim;
    var n := |ledger| - 1;
    if ledger[n].phase.InProgress? {
      var done := Completed(a, ok, now);
      CountReplaced(ledger, done, Succeeded);
      CountReplaced(ledger, done, Failed);
      ReplaceLast(if ok then st.(totalSent := st.totalSent + 1) else st.(totalErrors := st.totalErrors + 1), ledger, done);
    }
  }

  lemma RecoverCounts(ledger: seq<Attempt>, startedBefore: int, now: int)
    ensures var l := Enter(ledger, RecoverIncomplete(startedBefore, now));
            && Count(l, Failed) == Count(ledger, Failed) + CountRecoverable(Trim(ledger), startedBefore)
            && Count(l, Succeeded) == Count(ledger, Succeeded)
            && Trim(l) == RecoverAll(Trim(ledger), startedBefore, now)
  {
    hide Count, CountRecoverable, RecoverAll, Recover;
    var tail := Trim(ledger);
    var front := ledger[..|ledger| - |tail|];
    var recovered := RecoverAll(tail, startedBefore, now);
    assert ledger == front + tail;
    assert Trim(front + recovered) == recovered;
    CountRecovered(tail, startedBefore, now);
    CountConcat(front, tail, Failed);
    CountConcat(front, tail, Succeeded);
    CountConcat(front, recovered, Failed);
    CountConcat(front, recovered, Succeeded);
  }

  /** The last attempt is in the history, so it is never counted twice. */
  lemma NothingExtra(st: Status, startedBefore: int, now: int)
    requires st.last.Some? ==> st.recent != [] && st.recent[|st.recent| - 1] == st.last.value
    ensures RecoverStatus(st, startedBefore, now).totalErrors == st.totalErrors + CountRecoverable(st.recent, startedBefore)
  {
    hide CountRecoverable, RecoverAll, Recoverable;
    if st.last.Some? && Recoverable(st.last.value, startedBefore) {
      var i := |st.recent| - 1;
      assert Recoverable(st.recent[i], startedBefore) && st.recent[i].id == st.last.value.id;
    }
  }

  lemma RecoverViews(st: Status, ledger: seq<Attempt>, startedBefore: int, now: int)
    requires Views(st, ledger)
    ensures Views(RecoverStatus(st, startedBefore, now), Enter(ledger, RecoverIncomplete(startedBefore, now)))
  {
    hide Count, CountRecoverable, Enter, Recoverable, Trim, Recover;
    RecoverCounts(ledger, startedBefore, now);
    RecoverLength(ledger, startedBefore, now);
    if ledger != [] {
      LastInTrim(ledger);
      LastInTrim(Enter(ledger, RecoverIncomplete(startedBefore, now)));
    }
    NothingExtra(st, startedBefore, now);
  }

  /** What a committed mutation leaves behind. */
  predicate Entered(ledger: seq<Attempt>, m: Mutation) {
    match m
    case Begin(a) => ledger != [] && ledger[|ledger| - 1] == a
    case Finish(a, ok, now) => ledger != [] && ledger[|ledger| - 1].id == a.id && !ledger[|ledger| - 1].phase.InProgress?
    case RecoverIncomplete(_, _) => true
  }

  lemma CommitKeeps(c: LiveChannel, m: Mutation)
    requires Inv(c) && Admissible(c.ledger, m)
    ensures var r: LiveChannel := Channel(c.versions + [Mutate(c.Current(), m)], Enter(c.ledger, m));
            Inv(r) && Advances(c.ledger, r.ledger) && Admissible(r.ledger, m) && Entered(r.ledger, m)
  {
    hide StoreAttempt, FinishAttempt, RecoverStatus, Views, DistinctIds, Advances;
    match m
    case Begin(a) =>
      BeginAdvances(c.ledger, a);
      BeginViews(c.Current(), c.ledger, a);
    case Finish(a, ok, now) =>
      FinishAdvances(c.ledger, a, ok, now);
      FinishViews(c.Current(), c.ledger, a, ok, now);
    case RecoverIncomplete(startedBefore, now) =>
      RecoverAdvances(c.ledger, startedBefore, now);
      RecoverViews(c.Current(), c.ledger, startedBefore, now);
  }

  lemma TryKeeps(c: LiveChannel, m: Mutation, t: Try)
    requires Inv(c) && Admissible(c.ledger, m)
    ensures var r := TryUpdate(c, m, t);
            && Inv(r.0) && Advances(c.ledger, r.0.ledger) && Admissible(r.0.ledger, m)
            && (r.1.Ok? ==> Entered(r.0.ledger, m))
            && (r.0.ledger == c.ledger || r.0.ledger == Enter(c.ledger, m))
  {
    hide Inv, Admissible, Mutate, Enter, Entered;
    if t.readable && t.at == |c.versions| - 1 {
      CommitKeeps(c, m);
    }
  }

  /** Whatever the reads return and whichever replies are lost, a retried status write
      enters its mutation in the ledger at most once. */
  lemma {:induction false} UpdateKeeps(c: LiveChannel, m: Mutation, tries: seq<Try>, left: nat)
    requires Inv(c) && Admissible(c.ledger, m)
    ensures var r := Update(c, m, tries, left);
            && Inv(r.0) && Advances(c.ledger, r.0.ledger)
            && (r.1.Ok? ==> Entered(r.0.ledger, m))
            && Admissible(r.0.ledger, m)
    decreases left
  {
    hide Inv, Admissible, TryUpdate;
    if left > 0 && tries != [] {
      TryKeeps(c, m, tries[0]);
      var (c1, reply) := TryUpdate(c, m, tries[0]);
      if reply.Error? {
        UpdateKeeps(c1, m, tries[1..], left - 1);
        AdvancesTransitive(c.ledger, c1.ledger, Update(c, m, tries, left).0.ledger);
      }
    }
  }

  lemma {:induction false} BeginGrowsByOne(c: LiveChannel, a: Attempt, tries: seq<Try>, left: nat)
    requires Inv(c) && Admissible(c.ledger, Begin(a))
    ensures var l := Update(c, Begin(a), tries, left).0.ledger; l == c.ledger || l == Enter(c.ledger, Begin(a))
    decreases left
  {
    hide Inv, Admissible, TryUpdate;
    if left > 0 && tries != [] {
      TryKeeps(c, Begin(a), tries[0]);
      var (c1, reply) := TryUpdate(c, Begin(a), tries[0]);
      if reply.Error? {
        BeginGrowsByOne(c1, a, tries[1..], left - 1);
        EnterTwice(c.ledger, a);
      }
    }
  }

  lemma EnterTwice(ledger: seq<Attempt>, a: Attempt)
    ensures Enter(Enter(ledger, Begin(a)), Begin(a)) == Enter(ledger, Begin(a))
  {
  }

  /** Counters plus attempts still in progress, evicted ones included, account for every
      attempt ever committed; the history has at most 20 entries with distinct
      identifiers, and its last entry is the last attempt. */
  lemma Conservation(c: LiveChannel)
    requires Inv(c)
    ensures var st := c.Current();
            && st.totalSent + st.totalErrors + Count(c.ledger, InProgress) == |c.ledger|
            && |st.recent| <= 20 && DistinctIds(st.recent)
            && (st.last.Some? <==> st.recent != [])
            && (st.last.Some? ==> st.recent[|st.recent| - 1] == st.last.value)
  {
    CountsAddUp(c.ledger);
    TrimDistinct(c.ledger);
  }

  lemma {:induction false} CountsAddUp(s: seq<Attempt>)
    ensures Count(s, Succeeded) + Count(s, Failed) + Count(s, InProgress) == |s|
  {
    if s != [] {
      CountsAddUp(s[..|s| - 1]);
    }
  }
}
