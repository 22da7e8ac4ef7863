/** Streaming the newest audit events (internal/adapters/driving/api/audit_pages.go): a
    bounded slice updated page by page equals the head of a stable newest-first sort of
    the whole history. */
module AuditPages {
  datatype Event = Event(name: string, created: int)

  // ---------------------------------------------------------------- stable newest-first order

  predicate NewestFirst(s: seq<Event>) {
    forall i, j :: 0 <= i < j < |s| ==> s[i].created >= s[j].created
  }

  /** The events created at `t`, in their order. */
  function At(s: seq<Event>, t: int): seq<Event> {
    if s == [] then []
    else At(s[..|s| - 1], t) + if s[|s| - 1].created == t then [s[|s| - 1]] else []
  }

  /** Newest first, and events of one instant keep their order. */
  ghost predicate StableSortOf(sorted: seq<Event>, s: seq<Event>) {
    NewestFirst(sorted) && forall t: int :: At(sorted, t) == At(s, t)
  }

  /** How many events at the front are at least as new as `e`. */
  function Rank(s: seq<Event>, e: Event): (k: nat)
    ensures k <= |s|
    ensures forall i :: 0 <= i < k ==> s[i].created >= e.created
    ensures k < |s| ==> s[k].created < e.created
  {
    if s == [] || s[0].created < e.created then 0 else 1 + Rank(s[1..], e)
  }

  function Insert(s: seq<Event>, e: Event): seq<Event> {
    s[..Rank(s, e)] + [e] + s[Rank(s, e)..]
  }

  function InsertAll(s: seq<Event>, es: seq<Event>): seq<Event> {
    if es == [] then s else Insert(InsertAll(s, es[..|es| - 1]), es[|es| - 1])
  }

  function Sort(es: seq<Event>): seq<Event> {
    InsertAll([], es)
  }

  function Head(s: seq<Event>, limit: nat): seq<Event> {
    if |s| <= limit then s else s[..limit]
  }

  // ---------------------------------------------------------------- Sort is the stable sort

  lemma RankUnique(s: seq<Event>, e: Event, k: nat)
    requires NewestFirst(s) && k <= |s|
    requires k > 0 ==> s[k - 1].created >= e.created
    requires k < |s| ==> s[k].created < e.created
    ensures Rank(s, e) == k
  {
  }

  lemma InsertKeepsOrder(s: seq<Event>, e: Event)
    requires NewestFirst(s)
    ensures NewestFirst(Insert(s, e)) && |Insert(s, e)| == |s| + 1
  {
  }

  lemma {:induction false} AtConcat(a: seq<Event>, b: seq<Event>, t: int)
    ensures At(a + b, t) == At(a, t) + At(b, t)
  {
    if b == [] {
      assert a + b == a;
    } else {
      AtConcat(a, b[..|b| - 1], t);
      assert (a + b)[..|a + b| - 1] == a + b[..|b| - 1];
    }
  }

  lemma {:induction false} AtNone(s: seq<Event>, t: int)
    requires forall i :: 0 <= i < |s| ==> s[i].created != t
    ensures At(s, t) == []
  {
    if s != [] {
      AtNone(s[..|s| - 1], t);
    }
  }

  lemma InsertIsStable(s: seq<Event>, e: Event, t: int)
    requires NewestFirst(s)
    ensures At(Insert(s, e), t) == At(s + [e], t)
  {
    var k := Rank(s, e);
    if t == e.created {
      OlderAfterRank(s, e);
      AtNone(s[k..], t);
    } else {
      AtNone([e], t);
    }
    AtSpliced(s, e, k, t);
  }

  /** Where an event is put matters only to the events of its own time. */
  lemma AtSpliced(s: seq<Event>, e: Event, k: nat, t: int)
    requires k <= |s| && (At(s[k..], t) == [] || At([e], t) == [])
    ensures At(s[..k] + [e] + s[k..], t) == At(s + [e], t)
  {
    hide At;
    var front, back := s[..k], s[k..];
    AtConcat(front + [e], back, t);
    AtConcat(front, [e], t);
    AtConcat(s, [e], t);
    AtConcat(front, back, t);
    assert s == front + back;
  }

  lemma OlderAfterRank(s: seq<Event>, e: Event)
    requires NewestFirst(s)
    ensures forall i :: Rank(s, e) <= i < |s| ==> s[i].created < e.created
  {
  }

  lemma {:induction false} InsertAllOrdered(s: seq<Event>, es: seq<Event>)
    requires NewestFirst(s)
    ensures NewestFirst(InsertAll(s, es)) && |InsertAll(s, es)| == |s| + |es|
  {
    if es != [] {
      InsertAllOrdered(s, es[..|es| - 1]);
      InsertKeepsOrder(InsertAll(s, es[..|es| - 1]), es[|es| - 1]);
    }
  }

  lemma {:induction false} InsertAllStable(s: seq<Event>, es: seq<Event>, t: int)
    requires NewestFirst(s)
    ensures At(InsertAll(s, es), t) == At(s + es, t)
  {
    if es == [] {
      assert s + es == s;
    } else {
      var front, e := es[..|es| - 1], es[|es| - 1];
      InsertAllOrdered(s, front);
      InsertAllStable(s, front, t);
      InsertIsStable(InsertAll(s, front), e, t);
      AtConcat(InsertAll(s, front), [e], t);
      AtConcat(s + front, [e], t);
      assert s + es == s + front + [e];
    }
  }

  lemma SortIsStableSort(es: seq<Event>)
    ensures StableSortOf(Sort(es), es) && |Sort(es)| == |es|
  {
    InsertAllOrdered([], es);
    forall t: int
      ensures At(Sort(es), t) == At(es, t)
    {
      InsertAllStable([], es, t);
      assert [] + es == es;
    }
  }

  /** There is only one stable newest-first order. */
  lemma {:induction false} StableSortUnique(a: seq<Event>, b: seq<Event>)
    requires NewestFirst(a) && NewestFirst(b) && forall t: int :: At(a, t) == At(b, t)
    ensures a == b
  {
    EmptyTogether(a, b);
    EmptyTogether(b, a);
    if a != [] && b != [] {
      LastIsShared(a, b);
      LastIsShared(b, a);
      var x, y := a[|a| - 1], b[|b| - 1];
      assert At(a, x.created)[|At(a, x.created)| - 1] == x;
      assert At(b, x.created)[|At(b, x.created)| - 1] == y;
      var front, front' := a[..|a| - 1], b[..|b| - 1];
      forall t: int
        ensures At(front, t) == At(front', t)
      {
        assert At(a, t) == At(b, t);
        assert At(a, t) == At(front, t) + if t == x.created then [x] else [];
        assert At(b, t) == At(front', t) + if t == x.created then [x] else [];
        SameFront(At(front, t), At(front', t), if t == x.created then [x] else []);
      }
      StableSortUnique(front, front');
      assert a == front + [x] && b == front' + [y];
    }
  }

  /** `Sort` yields the stable newest-first order, and nothing else is one. */
  lemma SortIsTheStableSort(es: seq<Event>, sorted: seq<Event>)
    ensures StableSortOf(sorted, es) <==> sorted == Sort(es)
  {
    SortIsStableSort(es);
    if StableSortOf(sorted, es) {
      forall t: int
        ensures At(sorted, t) == At(Sort(es), t)
      {
        assert At(sorted, t) == At(es, t);
      }
      StableSortUnique(sorted, Sort(es));
    }
  }

  lemma EmptyTogether(a: seq<Event>, b: seq<Event>)
    requires forall t: int :: At(a, t) == At(b, t)
    ensures a == [] ==> b == []
  {
    if a == [] && b != [] {
      assert At(a, b[|b| - 1].created) == [];
    }
  }

  lemma SameFront(a: seq<Event>, b: seq<Event>, tail: seq<Event>)
    requires a + tail == b + tail
    ensures a == b
  {
    assert |a| == |b|;
    assert a == (a + tail)[..|a|] && b == (b + tail)[..|b|];
  }

  lemma LastIsShared(a: seq<Event>, b: seq<Event>)
    requires a != [] && b != [] && NewestFirst(b) && forall t: int :: At(a, t) == At(b, t)
    ensures b[|b| - 1].created <= a[|a| - 1].created
  {
    hide At;
    var t := a[|a| - 1].created;
    AtOwnTime(a);
    assert At(b, t) == At(a, t);
    if b[|b| - 1].created > t {
      AtNone(b, t);
    }
  }

  lemma AtOwnTime(s: seq<Event>)
    requires s != []
    ensures At(s, s[|s| - 1].created) != []
  {
  }

  // ---------------------------------------------------------------- keeping only the head

  lemma InsertIntoHead(s: seq<Event>, e: Event, limit: nat)
    requires NewestFirst(s)
    ensures Head(Insert(Head(s, limit), e), limit) == Head(Insert(s, e), limit)
  {
    RankInHead(s, e, limit);
    SpliceHead(s, e, Rank(s, e), limit);
  }

  lemma RankInHead(s: seq<Event>, e: Event, limit: nat)
    requires NewestFirst(s)
    ensures var h := Head(s, limit); Rank(h, e) == if Rank(s, e) <= |h| then Rank(s, e) else |h|
  {
    var h := Head(s, limit);
    RankUnique(h, e, if Rank(s, e) <= |h| then Rank(s, e) else |h|);
  }

  lemma SpliceHead(s: seq<Event>, e: Event, k: nat, limit: nat)
    requires k <= |s|
    ensures var h := Head(s, limit);
            var k' := if k <= |h| then k else |h|;
            Head(h[..k'] + [e] + h[k'..], limit) == Head(s[..k] + [e] + s[k..], limit)
  {
  }

  lemma {:induction false} InsertAllIntoHead(s: seq<Event>, es: seq<Event>, limit: nat)
    requires NewestFirst(s)
    ensures Head(InsertAll(Head(s, limit), es), limit) == Head(InsertAll(s, es), limit)
  {
    if es == [] {
      assert Head(Head(s, limit), limit) == Head(s, limit);
    } else {
      var front, e := es[..|es| - 1], es[|es| - 1];
      var small, large := InsertAll(Head(s, limit), front), InsertAll(s, front);
      InsertAllIntoHead(s, front, limit);
      InsertAllOrdered(s, front);
      InsertAllOrdered(Head(s, limit), front);
      InsertIntoHead(small, e, limit);
      InsertIntoHead(large, e, limit);
    }
  }

  lemma InsertLast(front: seq<Event>, e: Event)
    requires NewestFirst(front + [e])
    ensures NewestFirst(front) && Insert(front, e) == front + [e]
  {
    assert forall i :: 0 <= i < |front| ==> (front + [e])[i] == front[i];
    assert (front + [e])[|front|] == e;
    RankUnique(front, e, |front|);
  }

  lemma {:induction false} SortedIsFixed(s: seq<Event>)
    requires NewestFirst(s)
    ensures Sort(s) == s
  {
    if s != [] {
      var front, e := s[..|s| - 1], s[|s| - 1];
      SortedIsFixed(front);
      InsertLast(front, e);
      hide Insert;
      assert s == front + [e];
    }
  }

  lemma {:induction false} InsertAllConcat(s: seq<Event>, a: seq<Event>, b: seq<Event>)
    ensures InsertAll(s, a + b) == InsertAll(InsertAll(s, a), b)
  {
    hide Insert;
    if b == [] {
      assert a + b == a;
    } else {
      InsertAllConcat(s, a, b[..|b| - 1]);
      assert (a + b)[..|a + b| - 1] == a + b[..|b| - 1];
    }
  }

  // ---------------------------------------------------------------- the imperative form

  lemma InsertAt(s: seq<Event>, e: Event, k: nat)
    requires NewestFirst(s) && k <= |s|
    requires k > 0 ==> s[k - 1].created >= e.created
    requires k < |s| ==> s[k].created < e.created
    ensures Insert(s, e) == s[..k] + [e] + s[k..]
  {
    RankUnique(s, e, k);
  }

  lemma SortStep(es: seq<Event>, i: nat)
    requires i < |es|
    ensures Sort(es[..i + 1]) == Insert(Sort(es[..i]), es[i])
  {
    assert es[..i + 1][..i] == es[..i];
  }

  /** In-place insertion sort by adjacent swaps. */
  method SortAuditNewest(events: array<Event>)
    modifies events
    ensures events[..] == Sort(old(events[..]))
  {
    hide Sort, Insert;
    ghost var all := events[..];
    if events.Length == 0 {
      SortedIsFixed(all);
      return;
    }
    SortedIsFixed(all[..1]);
    var i := 1;
    while i < events.Length
      invariant 1 <= i <= events.Length
      invariant events[..i] == Sort(all[..i])
      invariant events[i..] == all[i..]
    {
      InsertAllOrderedSort(all[..i]);
      assert events[i] == events[i..][0] == all[i];
      SortStep(all, i);
      SinkNewest(events, i);
      i := i + 1;
    }
    assert events[..i] == events[..] && all[..i] == all;
  }

  /** The inner loop: moves the event at `i` up past the older ones before it. */
  method SinkNewest(events: array<Event>, i: nat)
    requires i < events.Length && NewestFirst(events[..i])
    modifies events
    ensures events[..i + 1] == Insert(old(events[..i]), old(events[i]))
    ensures events[i + 1..] == old(events[i + 1..])
  {
    hide Insert, NewestFirst;
    ghost var sorted, e, rest := events[..i], events[i], events[i + 1..];
    var j := i;
    while j > 0 && events[j].created > events[j - 1].created
      invariant 0 <= j <= i
      invariant events[..i + 1] == sorted[..j] + [e] + sorted[j..]
      invariant events[i + 1..] == rest
      invariant j < i ==> sorted[j].created < e.created
    {
      ghost var s := events[..i + 1];
      SwapDown(s, sorted, e, j);
      assert s[j] == events[j] && s[j - 1] == events[j - 1];
      events[j], events[j - 1] := events[j - 1], events[j];
      assert events[..i + 1] == s[j := s[j - 1]][j - 1 := s[j]];
      j := j - 1;
    }
    if j > 0 {
      SwapDown(events[..i + 1], sorted, e, j);
      assert events[j] == events[..i + 1][j] && events[j - 1] == events[..i + 1][j - 1];
    }
    InsertAt(sorted, e, j);
  }

  lemma InsertAllOrderedSort(es: seq<Event>)
    ensures NewestFirst(Sort(es)) && |Sort(es)| == |es|
  {
    InsertAllOrdered([], es);
  }

  lemma SwapDown(s: seq<Event>, sorted: seq<Event>, e: Event, j: nat)
    requires 0 < j <= |sorted| && s == sorted[..j] + [e] + sorted[j..]
    ensures s[j] == e && s[j - 1] == sorted[j - 1]
    ensures s[j := s[j - 1]][j - 1 := s[j]] == sorted[..j - 1] + [e] + sorted[j - 1..]
  {
  }

  method RetainNewest(events: seq<Event>, incoming: seq<Event>, limit: nat) returns (kept: seq<Event>)
    ensures kept == Head(Sort(events + incoming), limit)
  {
    var all := events + incoming;
    var buffer := new Event[|all|](i requires 0 <= i < |all| => all[i]);
    assert buffer[..] == all;
    SortAuditNewest(buffer);
    kept := buffer[..];
    if |kept| > limit {
      kept := kept[..limit];
    }
  }

  /** A list call answers with a page or an error. */
  datatype Page = Page(items: seq<Event>) | Unreadable

  predicate Readable(pages: seq<Page>) {
    forall i :: 0 <= i < |pages| ==> pages[i].Page?
  }

  function Flatten(pages: seq<Page>): seq<Event>
    requires Readable(pages)
  {
    if pages == [] then [] else Flatten(pages[..|pages| - 1]) + pages[|pages| - 1].items
  }

  /** Folding the bounded slice over the pages, in any paging of the history, keeps
      exactly the first `limit` events of the one stable newest-first order of the
      whole history, and counts all of it; an unreadable page ends the walk. */
  method VisitNewest(pages: seq<Page>, limit: nat) returns (kept: seq<Event>, total: nat, ok: bool)
    ensures ok <==> Readable(pages)
    ensures ok ==> total == |Flatten(pages)| && kept == Head(Sort(Flatten(pages)), limit)
    ensures ok ==> forall sorted: seq<Event> :: StableSortOf(sorted, Flatten(pages)) ==> kept == Head(sorted, limit)
  {
    kept, total, ok := [], 0, true;
    assert Sort([]) == [];
    hide Sort, StableSortOf;
    for i := 0 to |pages|
      invariant Readable(pages[..i])
      invariant total == |Flatten(pages[..i])|
      invariant kept == Head(Sort(Flatten(pages[..i])), limit)
    {
      if pages[i].Unreadable? {
        return kept, total, false;
      }
      var items := pages[i].items;
      ghost var seen := Flatten(pages[..i]);
      assert pages[..i + 1][..i] == pages[..i];
      total := total + |items|;
      kept := RetainNewest(kept, items, limit);
      PageKeepsHead(seen, items, limit);
    }
    assert pages[..|pages|] == pages;
    forall sorted: seq<Event> | StableSortOf(sorted, Flatten(pages))
      ensures kept == Head(sorted, limit)
    {
      SortIsTheStableSort(Flatten(pages), sorted);
    }
  }

  lemma PageKeepsHead(seen: seq<Event>, items: seq<Event>, limit: nat)
    ensures Head(Sort(Head(Sort(seen), limit) + items), limit) == Head(Sort(seen + items), limit)
  {
    SortIsStableSort(seen);
    var kept := Head(Sort(seen), limit);
    InsertAllConcat([], kept, items);
    SortedIsFixed(kept);
    InsertAllConcat([], seen, items);
    InsertAllIntoHead(Sort(seen), items, limit);
  }
}
