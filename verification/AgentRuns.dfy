/** Whole runs of the agent reducer: what one session sees does not depend on the others, and an
    accepted event can be delivered again without effect. */
module AgentRuns {
  import opened AgentIds
  import opened AgentStatus

  function Run(s: Snapshot, events: seq<Event>): Snapshot
    decreases |events|
  {
    if events == [] then s else Run(Reduce(s, events[0]), events[1..])
  }

  /** The events of one pair, in their order. */
  function Restrict(events: seq<Event>, p: Pair): seq<Event> {
    if events == [] then []
    else if events[0].pair == p then [events[0]] + Restrict(events[1..], p)
    else Restrict(events[1..], p)
  }

  /** Every entry is filed under its own id, which names its terminal, session and agent. */
  ghost predicate KeysMatch(s: Snapshot) {
    forall id :: id in s.entries ==> s.entries[id].identity.entryId == id
  }

  lemma ReduceKeepsKeys(s: Snapshot, e: Event)
    requires KeysMatch(s)
    ensures KeysMatch(Reduce(s, e))
    ensures Accepts(s, e) ==> GetOrCreate(s, e).value.identity.entryId == EntryKey(e.pair, Target(e))
  {
  }

  lemma {:induction false} RunKeepsKeys(s: Snapshot, events: seq<Event>)
    requires KeysMatch(s)
    ensures KeysMatch(Run(s, events))
    decreases |events|
  {
    if events != [] {
      ReduceKeepsKeys(s, events[0]);
      RunKeepsKeys(Reduce(s, events[0]), events[1..]);
    }
  }

  lemma {:induction false} RunConcat(s: Snapshot, a: seq<Event>, b: seq<Event>)
    ensures Run(s, a + b) == Run(Run(s, a), b)
    decreases |a|
  {
    if a == [] {
      assert a + b == b;
    } else {
      assert (a + b)[1..] == a[1..] + b;
      RunConcat(Reduce(s, a[0]), a[1..], b);
    }
  }

  // ---- One pair sees only its own events ----

  predicate SameEntry(a: Snapshot, b: Snapshot, id: string) {
    (id in a.entries <==> id in b.entries) && (id in a.entries ==> a.entries[id] == b.entries[id])
  }

  /** Two snapshots hold the same entries and cursors for a pair. */
  ghost predicate Agree(p: Pair, a: Snapshot, b: Snapshot) {
    && (forall agent :: SameEntry(a, b, EntryKey(p, agent)))
    && (forall provider :: CursorAt(a, StreamKey(provider, p)) == CursorAt(b, StreamKey(provider, p)))
  }

  lemma OtherPairsKeys(p: Pair, q: Pair, agent: string, other: string)
    requires p != q
    ensures EntryKey(p, agent) != EntryKey(q, other)
    ensures StreamKey(agent, p) != StreamKey(other, q)
  {
    IdsInjective(p.terminal, p.session, agent, q.terminal, q.session, other);
    IdsInjective(agent, p.terminal, p.session, other, q.terminal, q.session);
  }

  lemma OwnTarget(a: Snapshot, b: Snapshot, e: Event)
    requires Agree(e.pair, a, b)
    ensures Accepts(a, e) == Accepts(b, e) && GetOrCreate(a, e) == GetOrCreate(b, e)
  {
    assert SameEntry(a, b, EntryKey(e.pair, Target(e)));
    assert CursorAt(a, StreamKey(e.provider, e.pair)) == CursorAt(b, StreamKey(e.provider, e.pair));
  }

  lemma OwnPut(p: Pair, a: Snapshot, b: Snapshot, entry: Entry, stream: string, cursor: Cursor)
    requires Agree(p, a, b)
    ensures Agree(p, Put(a, entry, stream, cursor), Put(b, entry, stream, cursor))
  {
    var x, y := Put(a, entry, stream, cursor), Put(b, entry, stream, cursor);
    forall agent ensures SameEntry(x, y, EntryKey(p, agent)) {
      assert SameEntry(a, b, EntryKey(p, agent));
    }
    forall provider ensures CursorAt(x, StreamKey(provider, p)) == CursorAt(y, StreamKey(provider, p)) {
      assert CursorAt(a, StreamKey(provider, p)) == CursorAt(b, StreamKey(provider, p));
    }
  }

  lemma OwnStep(a: Snapshot, b: Snapshot, e: Event)
    requires Agree(e.pair, a, b)
    ensures Accepts(a, e) == Accepts(b, e) && GetOrCreate(a, e) == GetOrCreate(b, e)
    ensures Agree(e.pair, Reduce(a, e), Reduce(b, e))
  {
    OwnTarget(a, b, e);
    if Accepts(a, e) {
      OwnPut(e.pair, a, b, ApplyLifecycleEvent(GetOrCreate(a, e).value, e), StreamKey(e.provider, e.pair),
             Cursor(e.sequence, e.occurredAt.at));
    }
  }

  lemma OtherStep(p: Pair, s: Snapshot, e: Event)
    requires KeysMatch(s) && e.pair != p
    ensures Agree(p, s, Reduce(s, e))
  {
    forall agent ensures SameEntry(s, Reduce(s, e), EntryKey(p, agent)) {
      OtherPairsKeys(p, e.pair, agent, Target(e));
    }
    forall provider ensures CursorAt(s, StreamKey(provider, p)) == CursorAt(Reduce(s, e), StreamKey(provider, p)) {
      OtherPairsKeys(p, e.pair, provider, e.provider);
    }
  }

  lemma AgreeTransitive(p: Pair, a: Snapshot, b: Snapshot, c: Snapshot)
    requires Agree(p, a, b) && Agree(p, b, c)
    ensures Agree(p, a, c) && Agree(p, b, a)
  {
    forall agent ensures SameEntry(a, c, EntryKey(p, agent)) && SameEntry(b, a, EntryKey(p, agent)) {
      assert SameEntry(a, b, EntryKey(p, agent)) && SameEntry(b, c, EntryKey(p, agent));
    }
  }

  lemma {:induction false} RestrictedRun(a: Snapshot, b: Snapshot, events: seq<Event>, p: Pair)
    requires KeysMatch(a) && KeysMatch(b) && Agree(p, a, b)
    ensures Agree(p, Run(a, events), Run(b, Restrict(events, p)))
    decreases |events|
  {
    if events != [] {
      var e, rest := events[0], Restrict(events[1..], p);
      ReduceKeepsKeys(a, e);
      ReduceKeepsKeys(b, e);
      if e.pair == p {
        OwnStep(a, b, e);
        assert ([e] + rest)[1..] == rest;
        RestrictedRun(Reduce(a, e), Reduce(b, e), events[1..], p);
      } else {
        OtherStep(p, a, e);
        AgreeTransitive(p, a, Reduce(a, e), Reduce(a, e));
        AgreeTransitive(p, Reduce(a, e), a, b);
        RestrictedRun(Reduce(a, e), b, events[1..], p);
      }
    }
  }

  /** The entries and cursors of one terminal and session are what its own events alone give. */
  lemma PairSeesOnlyItsOwn(s: Snapshot, events: seq<Event>, p: Pair)
    requires KeysMatch(s)
    ensures Agree(p, Run(s, events), Run(s, Restrict(events, p)))
  {
    RestrictedRun(s, s, events, p);
  }

  // ---- Interleavings ----

  /** Events of different pairs commute. */
  lemma Commute(s: Snapshot, x: Event, y: Event)
    requires KeysMatch(s) && x.pair != y.pair
    ensures Reduce(Reduce(s, x), y) == Reduce(Reduce(s, y), x)
  {
    ReduceKeepsKeys(s, x);
    ReduceKeepsKeys(s, y);
    OtherStep(y.pair, s, x);
    OtherStep(x.pair, s, y);
    OwnStep(s, Reduce(s, x), y);
    OwnStep(s, Reduce(s, y), x);
    OtherPairsKeys(x.pair, y.pair, Target(x), Target(y));
    OtherPairsKeys(x.pair, y.pair, x.provider, y.provider);
    if Accepts(s, x) && Accepts(s, y) {
      PutsCommute(
        s, ApplyLifecycleEvent(GetOrCreate(s, x).value, x), StreamKey(x.provider, x.pair),
        Cursor(x.sequence, x.occurredAt.at), ApplyLifecycleEvent(GetOrCreate(s, y).value, y),
        StreamKey(y.provider, y.pair), Cursor(y.sequence, y.occurredAt.at));
    }
  }

  lemma PutsCommute(s: Snapshot, a: Entry, p: string, c: Cursor, b: Entry, q: string, d: Cursor)
    requires a.identity.entryId != b.identity.entryId && p != q
    ensures Put(Put(s, a, p, c), b, q, d) == Put(Put(s, b, q, d), a, p, c)
  {
    var m, n := a.identity.entryId, b.identity.entryId;
    assert s.entries[m := a][n := b] == s.entries[n := b][m := a];
    assert s.cursors[p := c][q := d] == s.cursors[q := d][p := c];
  }

  lemma {:induction false} MoveToFront(s: Snapshot, before: seq<Event>, e: Event)
    requires KeysMatch(s) && Restrict(before, e.pair) == []
    ensures Run(s, before + [e]) == Run(s, [e] + before)
    decreases |before|
  {
    if before == [] {
      assert before + [e] == [e] + before;
    } else {
      var x := before[0];
      ReduceKeepsKeys(s, x);
      assert (before + [e])[1..] == before[1..] + [e];
      MoveToFront(Reduce(s, x), before[1..], e);
      Commute(s, x, e);
      assert ([e] + before)[1..] == before && ([e] + before[1..])[1..] == before[1..];
    }
  }

  function FirstOf(events: seq<Event>, p: Pair): (k: nat)
    requires Restrict(events, p) != []
    ensures k < |events| && events[k].pair == p && Restrict(events[..k], p) == []
  {
    if events[0].pair == p then 0
    else
      var k := FirstOf(events[1..], p);
      assert events[..k + 1][1..] == events[1..][..k];
      k + 1
  }

  lemma {:induction false} RestrictConcat(a: seq<Event>, b: seq<Event>, p: Pair)
    ensures Restrict(a + b, p) == Restrict(a, p) + Restrict(b, p)
    decreases |a|
  {
    if a == [] {
      assert a + b == b;
    } else {
      assert (a + b)[1..] == a[1..] + b;
      RestrictConcat(a[1..], b, p);
    }
  }

  function FirstPair(events: seq<Event>): Pair {
    if events == [] then Pair("", "") else events[0].pair
  }

  lemma NothingLeft(events: seq<Event>)
    requires Restrict(events, FirstPair(events)) == []
    ensures events == []
  {
  }

  /** Taking the first event of its own pair out of a run leaves every pair's order as it was. */
  lemma TakeOut(events: seq<Event>, k: nat, p: Pair)
    requires k < |events| && Restrict(events[..k], events[k].pair) == []
    ensures Restrict(events, p) == Restrict([events[k]] + (events[..k] + events[k + 1..]), p)
  {
    var e, left, right := events[k], events[..k], events[k + 1..];
    assert events == left + ([e] + right);
    RestrictConcat(left, [e] + right, p);
    RestrictConcat([e], right, p);
    RestrictConcat(left, right, p);
    RestrictConcat([e], left + right, p);
    assert [e][1..] == [];
  }

  ghost predicate SameOrders(a: seq<Event>, b: seq<Event>) {
    forall p :: Restrict(a, p) == Restrict(b, p)
  }

  lemma {:induction false} SameOrdersTail(e: Event, a: seq<Event>, b: seq<Event>)
    requires SameOrders([e] + a, [e] + b)
    ensures SameOrders(a, b)
  {
    assert ([e] + a)[1..] == a && ([e] + b)[1..] == b;
    forall p ensures Restrict(a, p) == Restrict(b, p) {
      assert Restrict([e] + a, p) == Restrict([e] + b, p);
      if e.pair == p {
        assert Restrict(a, p) == Restrict([e] + a, p)[1..];
        assert Restrict(b, p) == Restrict([e] + b, p)[1..];
      }
    }
  }

  lemma {:induction false} FirstIsThere(events: seq<Event>, k: nat, p: Pair)
    requires k < |events| && events[k].pair == p && Restrict(events[..k], p) == []
    ensures Restrict(events, p) != [] && Restrict(events, p)[0] == events[k]
  {
    assert events == events[..k] + events[k..];
    RestrictConcat(events[..k], events[k..], p);
  }

  lemma RunFrom(s: Snapshot, e: Event, rest: seq<Event>)
    ensures Run(s, [e] + rest) == Run(Reduce(s, e), rest)
  {
    assert ([e] + rest)[1..] == rest;
  }

  lemma MoveInside(s: Snapshot, left: seq<Event>, e: Event, right: seq<Event>)
    requires KeysMatch(s) && Restrict(left, e.pair) == []
    ensures Run(s, (left + [e]) + right) == Run(Reduce(s, e), left + right)
  {
    RunConcat(s, left + [e], right);
    MoveToFront(s, left, e);
    RunFrom(s, e, left);
    RunConcat(Reduce(s, e), left, right);
  }

  lemma BringForward(s: Snapshot, events: seq<Event>, k: nat)
    requires KeysMatch(s) && k < |events| && Restrict(events[..k], events[k].pair) == []
    ensures Run(s, events) == Run(Reduce(s, events[k]), events[..k] + events[k + 1..])
  {
    MoveInside(s, events[..k], events[k], events[k + 1..]);
    assert events == (events[..k] + [events[k]]) + events[k + 1..];
  }

  /** Confluence: two interleavings that keep every pair's own order end in the same snapshot,
      revision included. */
  lemma {:induction false} InterleavingsAgree(s: Snapshot, a: seq<Event>, b: seq<Event>)
    requires KeysMatch(s) && SameOrders(a, b)
    ensures Run(s, a) == Run(s, b)
    decreases |a|
  {
    if a == [] {
      assert Restrict(a, FirstPair(b)) == Restrict(b, FirstPair(b));
      NothingLeft(b);
    } else {
      var e := a[0];
      assert Restrict(b, e.pair) == Restrict(a, e.pair) != [];
      var k := FirstOf(b, e.pair);
      FirstIsThere(b, k, e.pair);
      BringForward(s, b, k);
      var others := b[..k] + b[k + 1..];
      RestKeepsOrders(a, b, k);
      ReduceKeepsKeys(s, e);
      InterleavingsAgree(Reduce(s, e), a[1..], others);
    }
  }

  lemma RestKeepsOrders(a: seq<Event>, b: seq<Event>, k: nat)
    requires SameOrders(a, b) && a != []
    requires k < |b| && a[0] == b[k] && Restrict(b[..k], b[k].pair) == []
    ensures SameOrders(a[1..], b[..k] + b[k + 1..])
  {
    var e, others := a[0], b[..k] + b[k + 1..];
    assert [e] + a[1..] == a;
    forall p ensures Restrict([e] + a[1..], p) == Restrict([e] + others, p) {
      TakeOut(b, k, p);
    }
    SameOrdersTail(e, a[1..], others);
  }
}
