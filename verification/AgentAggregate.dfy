/** The one status a terminal presents (`src/agentStatusStore.ts`), and what acknowledging it leaves. */
module AgentAggregate {
  import opened Common
  import opened AgentStatus
  import opened AgentRuns
  import opened AgentStore

  datatype Aggregate = Aggregate(state: AgentState, since: real, unread: bool)

  predicate IsEnded(e: Entry) {
    !e.status.active
    && (e.status.lastEvent == SessionStopped || e.status.lastEvent == AgentExited
        || e.status.lastEvent == SubagentStopped)
  }

  /** A root bound to the terminal whose own stream has not ended. */
  predicate IsLiveRoot(e: Entry, terminal: string) {
    Bound(e, terminal) && e.identity.kind.Root? && !IsEnded(e)
  }

  predicate LiveRoot(s: Snapshot, terminal: string, id: string) {
    id in s.entries && IsLiveRoot(s.entries[id], terminal)
  }

  function Rank(state: AgentState): nat {
    match state
    case Idle => 0
    case Done => 1
    case Working => 2
    case Waiting => 3
    case Blocked => 4
  }

  /** What a terminal with live roots must present: the most urgent of their states, since when the
      latest of the roots in that state entered it, and whether any of them is unread. */
  ghost predicate Presents(s: Snapshot, terminal: string, a: Option<Aggregate>) {
    match a
    case None => forall id :: !LiveRoot(s, terminal, id)
    case Some(a) =>
      && (exists id :: LiveRoot(s, terminal, id) && s.entries[id].status.state == a.state
                       && s.entries[id].status.stateStartedAt == a.since)
      && (forall id :: LiveRoot(s, terminal, id) ==> NoMoreUrgent(s.entries[id].status, a))
      && (a.unread <==> exists id :: LiveRoot(s, terminal, id) && s.entries[id].status.unread)
  }

  predicate NoMoreUrgent(s: Status, a: Aggregate) {
    Rank(s.state) <= Rank(a.state) && (s.state == a.state ==> s.stateStartedAt <= a.since)
  }

  lemma PresentsOneThing(s: Snapshot, terminal: string, a: Option<Aggregate>, b: Option<Aggregate>)
    requires Presents(s, terminal, a) && Presents(s, terminal, b)
    ensures a == b
  {
    if a.Some? && b.Some? {
      var x :| LiveRoot(s, terminal, x) && s.entries[x].status.state == a.value.state
               && s.entries[x].status.stateStartedAt == a.value.since;
      var y :| LiveRoot(s, terminal, y) && s.entries[y].status.state == b.value.state
               && s.entries[y].status.stateStartedAt == b.value.since;
      assert NoMoreUrgent(s.entries[x].status, b.value) && NoMoreUrgent(s.entries[y].status, a.value);
    }
  }

  // ---- The computation ----

  predicate AnyIn(roots: seq<Status>, state: AgentState) {
    exists k :: 0 <= k < |roots| && roots[k].state == state
  }

  function MostUrgent(roots: seq<Status>): AgentState {
    if AnyIn(roots, Blocked) then Blocked
    else if AnyIn(roots, Waiting) then Waiting
    else if AnyIn(roots, Working) then Working
    else if AnyIn(roots, Done) then Done
    else Idle
  }

  /** The live roots of a terminal, in some order of their ids. */
  method SelectRoots(s: Snapshot, terminal: string) returns (ids: seq<string>)
    ensures forall id :: id in ids <==> LiveRoot(s, terminal, id)
  {
    ids := [];
    var left := s.entries.Keys;
    while left != {}
      invariant left <= s.entries.Keys
      invariant forall id :: id in ids <==> LiveRoot(s, terminal, id) && id !in left
      decreases |left|
    {
      var id :| id in left;
      left := left - {id};
      if IsLiveRoot(s.entries[id], terminal) {
        ids := ids + [id];
      }
    }
  }

  /** The latest start among the roots in the given state. */
  method LatestStart(roots: seq<Status>, state: AgentState) returns (since: real)
    requires AnyIn(roots, state)
    ensures exists k :: 0 <= k < |roots| && roots[k].state == state && roots[k].stateStartedAt == since
    ensures forall k :: 0 <= k < |roots| && roots[k].state == state ==> roots[k].stateStartedAt <= since
  {
    var latest: Option<real> := None;
    for i := 0 to |roots|
      invariant latest == None <==> !AnyIn(roots[..i], state)
      invariant latest.Some? ==>
        exists k :: 0 <= k < i && roots[k].state == state && roots[k].stateStartedAt == latest.value
      invariant forall k :: 0 <= k < i && roots[k].state == state ==>
        latest.Some? && roots[k].stateStartedAt <= latest.value
    {
      if roots[i].state == state && (latest == None || roots[i].stateStartedAt > latest.value) {
        latest := Some(roots[i].stateStartedAt);
      }
    }
    since := latest.value;
  }

  method AggregateAgentStatusForTerminal(s: Snapshot, terminal: string) returns (a: Option<Aggregate>)
    ensures Presents(s, terminal, a)
  {
    var ids := SelectRoots(s, terminal);
    if ids == [] {
      return None;
    }
    var roots := seq(|ids|, k requires 0 <= k < |ids| => assert ids[k] in ids; s.entries[ids[k]].status);
    assert roots[0].state == roots[0].state;
    var state := MostUrgent(roots);
    var since := LatestStart(roots, state);
    var unread := exists k :: 0 <= k < |roots| && roots[k].unread;
    a := Some(Aggregate(state, since, unread));
    forall id | LiveRoot(s, terminal, id) ensures NoMoreUrgent(s.entries[id].status, a.value) {
      var k :| 0 <= k < |ids| && ids[k] == id;
      assert roots[k].state == s.entries[id].status.state;
    }
    ghost var k :| 0 <= k < |roots| && roots[k].state == state && roots[k].stateStartedAt == since;
    assert ids[k] in ids && s.entries[ids[k]].status == roots[k];
    forall id | LiveRoot(s, terminal, id) && s.entries[id].status.unread ensures unread {
      var k :| 0 <= k < |ids| && ids[k] == id;
      assert roots[k].unread;
    }
    if unread {
      ghost var k :| 0 <= k < |roots| && roots[k].unread;
      assert ids[k] in ids && s.entries[ids[k]].status == roots[k];
    }
  }

  // ---- Seeing a terminal ----

  /** How one root's status changes when its terminal is seen. */
  predicate Seen(before: Status, after: Status) {
    && !after.unread
    && after.state == (if before.state == Done then Idle else before.state)
    && (before.state != Done ==> after.stateStartedAt == before.stateStartedAt)
  }

  lemma SeeingARoot(s: Snapshot, terminal: string, at: real, id: string)
    requires KeysMatch(s)
    ensures var next := MarkTerminalAcknowledged(s, terminal, Finite(at));
      && LiveRoot(next, terminal, id) == LiveRoot(s, terminal, id)
      && (LiveRoot(s, terminal, id) ==> Seen(s.entries[id].status, next.entries[id].status))
  {
    assert LiveRoot(s, terminal, id) ==>
        (id in ToAcknowledge(s, terminal) <==> NeedsAcknowledgement(s.entries[id]));
  }

  ghost predicate SeenFrom(s: Snapshot, next: Snapshot, terminal: string) {
    forall id :: LiveRoot(next, terminal, id) == LiveRoot(s, terminal, id)
                 && (LiveRoot(s, terminal, id) ==> Seen(s.entries[id].status, next.entries[id].status))
  }

  lemma SeenState(s: Snapshot, next: Snapshot, terminal: string, before: Aggregate, after: Aggregate)
    requires SeenFrom(s, next, terminal)
    requires Presents(s, terminal, Some(before)) && Presents(next, terminal, Some(after))
    ensures after.state == if before.state == Done then Idle else before.state
    ensures before.state != Done ==> after.since == before.since
  {
    var x :| LiveRoot(s, terminal, x) && s.entries[x].status.state == before.state
             && s.entries[x].status.stateStartedAt == before.since;
    var y :| LiveRoot(next, terminal, y) && next.entries[y].status.state == after.state
             && next.entries[y].status.stateStartedAt == after.since;
    assert LiveRoot(next, terminal, x) && LiveRoot(s, terminal, y);
    assert NoMoreUrgent(s.entries[y].status, before) && NoMoreUrgent(next.entries[x].status, after);
  }

  /** Seeing a terminal leaves it neither unread nor done: a finished result turns idle, and any
      other state it presented stays, with its start. */
  lemma SeeingATerminal(s: Snapshot, terminal: string, at: real, before: Aggregate, after: Option<Aggregate>)
    requires KeysMatch(s) && Presents(s, terminal, Some(before))
    requires Presents(MarkTerminalAcknowledged(s, terminal, Finite(at)), terminal, after)
    ensures after.Some? && !after.value.unread
    ensures after.value.state == if before.state == Done then Idle else before.state
    ensures before.state != Done ==> after.value.since == before.since
  {
    var next := MarkTerminalAcknowledged(s, terminal, Finite(at));
    forall id
      ensures LiveRoot(next, terminal, id) == LiveRoot(s, terminal, id)
              && (LiveRoot(s, terminal, id) ==> Seen(s.entries[id].status, next.entries[id].status))
    {
      SeeingARoot(s, terminal, at, id);
    }
    assert SeenFrom(s, next, terminal);
    var x :| LiveRoot(s, terminal, x);
    assert LiveRoot(next, terminal, x);
    SeenState(s, next, terminal, before, after.value);
  }
}
