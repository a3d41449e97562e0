/** The store of `src/agentStatusStore.ts`: events, acknowledgements and clearing over one snapshot,
    and what every run of them keeps. */
module AgentStore {
  import opened Common
  import opened AgentIds
  import opened AgentStatus
  import opened AgentRuns

  // ---- Acknowledgement ----

  predicate IsUnseenResult(e: Entry) {
    e.identity.kind.Root? && e.status.state == Done
  }

  predicate NeedsAcknowledgement(e: Entry) {
    e.status.unread || IsUnseenResult(e)
  }

  function Later(previous: Option<real>, at: real): real {
    if previous.Some? && previous.value > at then previous.value else at
  }

  function AcknowledgedEntry(e: Entry, at: real): Entry {
    var status := e.status.(unread := false, acknowledgedAt := Some(Later(e.status.acknowledgedAt, at)));
    if !IsUnseenResult(e) then e.(status := status)
    else
      e.(status := status.(state := Idle, stateStartedAt := at),
         details := e.details.(outcome := None, summary := None))
  }

  function MarkAcknowledged(s: Snapshot, id: string, at: Moment): Snapshot {
    if id !in s.entries || at.NotFinite? then s
    else
      var entry := s.entries[id];
      var next := AcknowledgedEntry(entry, at.at);
      if !NeedsAcknowledgement(entry) && next.status.acknowledgedAt == entry.status.acknowledgedAt then s
      else s.(revision := s.revision + 1, entries := s.entries[id := next])
  }

  predicate Bound(e: Entry, terminal: string) {
    !e.identity.external && e.identity.terminal == Some(terminal)
  }

  function ToAcknowledge(s: Snapshot, terminal: string): set<string> {
    set id | id in s.entries && Bound(s.entries[id], terminal) && NeedsAcknowledgement(s.entries[id])
  }

  function MarkTerminalAcknowledged(s: Snapshot, terminal: string, at: Moment): Snapshot {
    if at.NotFinite? || ToAcknowledge(s, terminal) == {} then s
    else
      var chosen := ToAcknowledge(s, terminal);
      s.(revision := s.revision + 1,
         entries := map id | id in s.entries ::
           if id in chosen then AcknowledgedEntry(s.entries[id], at.at) else s.entries[id])
  }

  function Clear(s: Snapshot): Snapshot {
    if s.entries == map[] && s.cursors == map[] then s else Snapshot(s.revision + 1, map[], map[], None)
  }

  // ---- Runs ----

  datatype Op =
    | Dispatch(event: Event)
    | Acknowledge(id: string, at: Moment)
    | AcknowledgeTerminal(terminal: string, when: Moment)
    | ClearAll

  function Apply(s: Snapshot, op: Op): Snapshot {
    match op
    case Dispatch(e) => Reduce(s, e)
    case Acknowledge(id, at) => MarkAcknowledged(s, id, at)
    case AcknowledgeTerminal(t, at) => MarkTerminalAcknowledged(s, t, at)
    case ClearAll => Clear(s)
  }

  function RunOps(s: Snapshot, ops: seq<Op>): Snapshot
    decreases |ops|
  {
    if ops == [] then s else RunOps(Apply(s, ops[0]), ops[1..])
  }

  // ---- What every run keeps ----

  ghost predicate GoodStatus(i: Identity, s: Status) {
    && Ordered(s.tools)
    && (!s.active ==> s.tools == [])
    && (Attention(s.state) ==> s.unread || s.acknowledgedAt.Some?)
    && (i.kind.Root? && s.state == Done ==> s.unread)
    && (s.inferred == Some(true) ==> OnHold(s.state))
  }

  predicate OnHold(state: AgentState) {
    state == Waiting || state == Blocked
  }

  predicate GoodDetails(s: Status, d: Details) {
    d.waitingReason.Some? ==> OnHold(s.state)
  }

  predicate GoodIdentity(i: Identity) {
    (i.terminal.Some? && !i.external) ==>
      var p := Pair(i.terminal.value, i.session);
      && i.entryId == EntryKey(p, i.agentId)
      && (i.kind.Root? ==> i.agentId == i.session && i.kind.terminalSession == i.terminal.value)
      && (i.kind.Subagent? ==> i.kind.parentEntry == EntryKey(p, i.kind.parentAgent))
  }

  ghost predicate Good(e: Entry) {
    GoodIdentity(e.identity) && GoodStatus(e.identity, e.status) && GoodDetails(e.status, e.details)
  }

  ghost predicate WellFormed(s: Snapshot) {
    KeysMatch(s) && forall id :: id in s.entries ==> Good(s.entries[id])
  }

  lemma NextToolsAreOrdered(tools: seq<Tool>, body: Body, at: real)
    requires Ordered(tools)
    ensures Ordered(NextTools(tools, body, at))
  {
    match body
    case ToolStart(id, name, description) => AddToolKeepsOrder(tools, Tool(id, name, description, at));
    case ToolFinish(id) => WithoutKeepsOrder(tools, id);
    case _ =>
  }

  lemma NextStatusIsGood(i: Identity, s: Status, e: Event)
    requires GoodStatus(i, s)
    ensures GoodStatus(i, NextStatus(s, e))
  {
    NextToolsAreOrdered(s.tools, e.body, At(e));
  }

  lemma NextDetailsAreGood(s: Status, d: Details, e: Event)
    requires GoodDetails(s, d)
    ensures GoodDetails(NextStatus(s, e), NextDetails(d, e))
  {
  }

  lemma TargetIsGood(s: Snapshot, e: Event)
    requires WellFormed(s) && GetOrCreate(s, e).Some?
    ensures Good(ApplyLifecycleEvent(GetOrCreate(s, e).value, e))
  {
    var entry := GetOrCreate(s, e).value;
    assert Good(entry);
    NextStatusIsGood(entry.identity, entry.status, e);
    NextDetailsAreGood(entry.status, entry.details, e);
  }

  lemma PutIsGood(s: Snapshot, entry: Entry, stream: string, cursor: Cursor)
    requires WellFormed(s) && Good(entry)
    ensures WellFormed(Put(s, entry, stream, cursor))
  {
  }

  lemma ReduceIsGood(s: Snapshot, e: Event)
    requires WellFormed(s)
    ensures WellFormed(Reduce(s, e))
  {
    if Accepts(s, e) {
      TargetIsGood(s, e);
      PutIsGood(s, ApplyLifecycleEvent(GetOrCreate(s, e).value, e), StreamKey(e.provider, e.pair),
                Cursor(e.sequence, e.occurredAt.at));
    }
  }

  lemma AcknowledgedIsGood(e: Entry, at: real)
    requires Good(e)
    ensures Good(AcknowledgedEntry(e, at)) && AcknowledgedEntry(e, at).identity == e.identity
    ensures !NeedsAcknowledgement(AcknowledgedEntry(e, at))
  {
  }

  lemma MarkTerminalIsGood(s: Snapshot, terminal: string, at: Moment)
    requires WellFormed(s)
    ensures WellFormed(MarkTerminalAcknowledged(s, terminal, at))
  {
    var next := MarkTerminalAcknowledged(s, terminal, at);
    if at.Finite? {
      forall id | id in next.entries ensures Good(next.entries[id]) && next.entries[id].identity.entryId == id {
        AcknowledgedIsGood(s.entries[id], at.at);
      }
    }
  }

  /** Every operation keeps each entry filed under the id of its terminal, session and agent; its tools
      in order, without repeats and gone once it is inactive; a reason to wait and an inferred wait only
      while it waits; and a finished root unread until it is acknowledged. */
  lemma ApplyIsGood(s: Snapshot, op: Op)
    requires WellFormed(s)
    ensures WellFormed(Apply(s, op))
  {
    match op
    case Dispatch(e) => ReduceIsGood(s, e);
    case Acknowledge(id, at) =>
      if id in s.entries && at.Finite? { AcknowledgedIsGood(s.entries[id], at.at); }
    case AcknowledgeTerminal(t, at) => MarkTerminalIsGood(s, t, at);
    case ClearAll =>
  }

  lemma {:induction false} EveryRunIsGood(s: Snapshot, ops: seq<Op>)
    requires WellFormed(s)
    ensures WellFormed(RunOps(s, ops))
    decreases |ops|
  {
    if ops != [] {
      ApplyIsGood(s, ops[0]);
      EveryRunIsGood(Apply(s, ops[0]), ops[1..]);
    }
  }

  function Changes(s: Snapshot, ops: seq<Op>): nat
    decreases |ops|
  {
    if ops == [] then 0
    else (if Apply(s, ops[0]) != s then 1 else 0) + Changes(Apply(s, ops[0]), ops[1..])
  }

  /** The revision counts exactly the operations that changed the snapshot. */
  lemma {:induction false} RevisionCountsChanges(s: Snapshot, ops: seq<Op>)
    ensures RunOps(s, ops).revision == s.revision + Changes(s, ops)
    decreases |ops|
  {
    if ops != [] {
      RevisionCountsChanges(Apply(s, ops[0]), ops[1..]);
    }
  }

  // ---- Cursors and redelivery ----

  ghost predicate Rises(before: Option<Cursor>, after: Option<Cursor>) {
    before.Some? ==>
      after.Some? && before.value.sequence <= after.value.sequence && before.value.occurredAt <= after.value.occurredAt
  }

  ghost predicate CursorsRise(a: Snapshot, b: Snapshot) {
    forall stream :: Rises(CursorAt(a, stream), CursorAt(b, stream))
  }

  /** Without a clear, no stream's cursor falls back in sequence or in time; an accepted event moves its own up. */
  lemma StepRises(s: Snapshot, op: Op)
    requires !op.ClearAll?
    ensures CursorsRise(s, Apply(s, op))
    ensures op.Dispatch? && Accepts(s, op.event) ==>
      var stream := StreamKey(op.event.provider, op.event.pair);
      && CursorAt(Apply(s, op), stream) == Some(Cursor(op.event.sequence, op.event.occurredAt.at))
      && (stream in s.cursors ==> s.cursors[stream].sequence < op.event.sequence)
  {
  }

  lemma {:induction false} RunRises(s: Snapshot, ops: seq<Op>)
    requires ClearAll !in ops
    ensures CursorsRise(s, RunOps(s, ops))
    decreases |ops|
  {
    if ops != [] {
      StepRises(s, ops[0]);
      var next := Apply(s, ops[0]);
      RunRises(next, ops[1..]);
      forall stream ensures Rises(CursorAt(s, stream), CursorAt(RunOps(s, ops), stream)) {
        assert Rises(CursorAt(s, stream), CursorAt(next, stream));
        assert Rises(CursorAt(next, stream), CursorAt(RunOps(next, ops[1..]), stream));
      }
    }
  }

  /** Once an event is out of order it stays so. */
  lemma OutOfOrderStays(s: Snapshot, ops: seq<Op>, e: Event)
    requires ClearAll !in ops && !InOrder(s, e)
    ensures !InOrder(RunOps(s, ops), e)
  {
    RunRises(s, ops);
    var stream := StreamKey(e.provider, e.pair);
    assert Rises(CursorAt(s, stream), CursorAt(RunOps(s, ops), stream));
  }

  ghost predicate RepeatChangesNothing(s: Snapshot, ops: seq<Op>, e: Event) {
    Reduce(RunOps(Reduce(s, e), ops), e) == RunOps(Reduce(s, e), ops)
  }

  /** A copy of an accepted event changes nothing, however much happens in between. */
  lemma AcceptedOnlyOnce(s: Snapshot, ops: seq<Op>, e: Event)
    requires Accepts(s, e) && ClearAll !in ops
    ensures RepeatChangesNothing(s, ops, e)
  {
    OutOfOrderStays(Reduce(s, e), ops, e);
  }

  // An event can also be turned away because it names an agent nobody has introduced. Introduced
  // later, by a stream of its own, the agent makes a second delivery count.

  ghost function LongestOf(keys: set<string>): (n: nat)
    ensures forall k :: k in keys ==> |k| <= n
  {
    if keys == {} then 0
    else
      var some :| some in keys;
      var n := LongestOf(keys - {some});
      if |some| > n then |some| else n
  }

  lemma {:induction false} EscapeIsNoShorter(bytes: seq<Byte>)
    ensures |bytes| <= |Escape(bytes)|
  {
    if bytes != [] {
      EscapeIsNoShorter(bytes[1..]);
    }
  }

  lemma {:induction false} Utf8IsNoShorter(s: string)
    ensures |s| <= |Utf8(s)|
  {
    if s != [] {
      Utf8IsNoShorter(s[1..]);
    }
  }

  /** A provider that neither a cursor nor the event speaks of. */
  ghost function FreshProvider(s: Snapshot, e: Event): (r: string)
    ensures r != e.provider
  {
    seq(LongestOf(s.cursors.Keys + {e.provider}) + 1, _ => 'x')
  }

  lemma FreshProviderIsFresh(s: Snapshot, e: Event)
    ensures StreamKey(FreshProvider(s, e), e.pair) !in s.cursors
  {
    var name := FreshProvider(s, e);
    Utf8IsNoShorter(name);
    EscapeIsNoShorter(Utf8(name));
    assert |StreamKey(name, e.pair)| > LongestOf(s.cursors.Keys + {e.provider});
  }

  /** Another provider introduces the agent an event names. */
  ghost function Introduction(s: Snapshot, e: Event): Event {
    Event(FreshProvider(s, e), e.pair, 0, Finite(0.0), None, None, None, None, SubagentStart(Target(e), None, None))
  }

  lemma AcceptedIsFiled(s: Snapshot, e: Event)
    requires KeysMatch(s) && Accepts(s, e)
    ensures EntryKey(e.pair, Target(e)) in Reduce(s, e).entries
    ensures forall stream :: stream != StreamKey(e.provider, e.pair) ==>
              CursorAt(Reduce(s, e), stream) == CursorAt(s, stream)
  {
  }

  lemma IntroductionCounts(s: Snapshot, e: Event)
    requires KeysMatch(s)
    ensures Accepts(s, Introduction(s, e)) && KeysMatch(Reduce(s, Introduction(s, e)))
    ensures EntryKey(e.pair, Target(e)) in Reduce(s, Introduction(s, e)).entries
    ensures var stream := StreamKey(e.provider, e.pair);
      CursorAt(Reduce(s, Introduction(s, e)), stream) == CursorAt(s, stream)
  {
    var first := Introduction(s, e);
    FreshProviderIsFresh(s, e);
    IdsInjective(first.provider, e.pair.terminal, e.pair.session, e.provider, e.pair.terminal, e.pair.session);
    AcceptedIsFiled(s, first);
    ReduceKeepsKeys(s, first);
  }

  lemma UnknownTargetCanCountLater(s: Snapshot, e: Event)
    requires KeysMatch(s) && InOrder(s, e) && !Accepts(s, e)
    ensures !RepeatChangesNothing(s, [Dispatch(Introduction(s, e))], e)
  {
    var first := Introduction(s, e);
    IntroductionCounts(s, e);
    var next := Reduce(s, first);
    assert [Dispatch(first)][1..] == [];
    assert RunOps(next, []) == next;
    assert RunOps(s, [Dispatch(first)]) == next;
    assert Accepts(next, e);
    assert Reduce(next, e).revision == next.revision + 1;
  }

  /** From the empty store: a subagent's tool call arrives before anyone has announced the subagent and is
      turned away; once it is introduced, the same event counts. */
  lemma EarlyToolCountsLater(provider: string, pair: Pair, id: string)
    requires id != "" && id != pair.session
    ensures var tool := Event(provider, pair, 0, Finite(0.0), Some(id), None, None, None, ToolStart("1", "Read", None));
      && InOrder(EMPTY, tool) && !Accepts(EMPTY, tool)
      && !RepeatChangesNothing(EMPTY, [Dispatch(Introduction(EMPTY, tool))], tool)
  {
    var tool := Event(provider, pair, 0, Finite(0.0), Some(id), None, None, None, ToolStart("1", "Read", None));
    UnknownTargetCanCountLater(EMPTY, tool);
  }

  /** Delivering an event twice has no effect, whatever happens in between short of a clear, exactly
      when the first delivery was accepted or came out of order. */
  lemma RepeatsAreHarmlessExactly(s: Snapshot, e: Event)
    requires KeysMatch(s)
    ensures (forall ops: seq<Op> | ClearAll !in ops :: RepeatChangesNothing(s, ops, e))
            <==> Accepts(s, e) || !InOrder(s, e)
  {
    if Accepts(s, e) || !InOrder(s, e) {
      forall ops: seq<Op> | ClearAll !in ops ensures RepeatChangesNothing(s, ops, e) {
        if Accepts(s, e) {
          AcceptedOnlyOnce(s, ops, e);
        } else {
          OutOfOrderStays(s, ops, e);
        }
      }
    } else {
      UnknownTargetCanCountLater(s, e);
      assert ClearAll !in [Dispatch(Introduction(s, e))];
    }
  }
}
