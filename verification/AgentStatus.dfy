/** The reducer of `src/agentStatusStore.ts`: lifecycle events of agents folded into one snapshot
    of entries and stream cursors. */
module AgentStatus {
  import opened Common
  import opened AgentIds

  datatype AgentState = Working | Waiting | Blocked | Done | Idle

  /** A time as the program sees it: `Number.isFinite` fails on the second case. */
  datatype Moment = Finite(at: real) | NotFinite

  datatype Tool = Tool(id: string, name: string, description: Option<string>, startedAt: real)

  datatype EventKind =
    | SessionStarted | AgentMetadata | SessionStopped | TurnStarted | ToolStarted | ToolFinished
    | WaitStarted | WaitFinished | AgentDone | SubagentStarted | SubagentStopped | AgentExited

  /** What an event of each kind carries. */
  datatype Body =
    | SessionStart(displayName: Option<string>)
    | Metadata
    | SessionStop(reason: Option<string>)
    | TurnStart(turnId: Option<string>)
    | ToolStart(toolId: string, name: string, description: Option<string>)
    | ToolFinish(finishedId: string)
    | WaitStart(blocked: bool, waitReason: Option<string>, inferred: bool)
    | WaitFinish
    | Finish(outcome: Option<string>, summary: Option<string>)
    | SubagentStart(subagentId: string, parentAgentId: Option<string>, subagentName: Option<string>)
    | SubagentStop(stoppedId: string, stopOutcome: Option<string>, stopSummary: Option<string>)
    | Exit(exitCode: Option<int>, signal: Option<string>)
  {
    function Kind(): EventKind {
      match this
      case SessionStart(_) => SessionStarted
      case Metadata => AgentMetadata
      case SessionStop(_) => SessionStopped
      case TurnStart(_) => TurnStarted
      case ToolStart(_, _, _) => ToolStarted
      case ToolFinish(_) => ToolFinished
      case WaitStart(_, _, _) => WaitStarted
      case WaitFinish => WaitFinished
      case Finish(_, _) => AgentDone
      case SubagentStart(_, _, _) => SubagentStarted
      case SubagentStop(_, _, _) => SubagentStopped
      case Exit(_, _) => AgentExited
    }
  }

  /** The terminal and provider session an event belongs to. */
  datatype Pair = Pair(terminal: string, session: string)

  datatype Event = Event(
    provider: string,
    pair: Pair,
    sequence: int,
    occurredAt: Moment,
    agentId: Option<string>,
    promptText: Option<string>,
    model: Option<string>,
    providerName: Option<string>,
    body: Body)

  datatype EntryKind = Root(terminalSession: string) | Subagent(parentAgent: string, parentEntry: string)

  /** The part of an entry that no event changes. */
  datatype Identity = Identity(
    entryId: string,
    kind: EntryKind,
    provider: string,
    agentId: string,
    session: string,
    terminal: Option<string>,
    external: bool,
    projectIds: seq<string>,
    providerName: Option<string>)

  datatype Status = Status(
    state: AgentState,
    stateStartedAt: real,
    updatedAt: real,
    lastEvent: EventKind,
    lastSequence: int,
    active: bool,
    tools: seq<Tool>,
    inferred: Option<bool>,
    unread: bool,
    acknowledgedAt: Option<real>)

  datatype Details = Details(
    displayName: Option<string>,
    promptText: Option<string>,
    model: Option<string>,
    turnId: Option<string>,
    waitingReason: Option<string>,
    outcome: Option<string>,
    summary: Option<string>,
    exitCode: Option<int>,
    exitSignal: Option<string>)

  datatype Entry = Entry(identity: Identity, status: Status, details: Details)

  datatype Cursor = Cursor(sequence: int, occurredAt: real)

  datatype Snapshot = Snapshot(
    revision: nat,
    entries: map<string, Entry>,
    cursors: map<string, Cursor>,
    processId: Option<string>)

  const EMPTY := Snapshot(0, map[], map[], None)

  const MAX_SAFE_INTEGER := 0x1F_FFFF_FFFF_FFFF

  // ---- Tools, kept in the order of their ids ----

  function Without(tools: seq<Tool>, id: string): (r: seq<Tool>)
    ensures forall t :: t in r <==> t in tools && t.id != id
    ensures |r| <= |tools|
  {
    if tools == [] then []
    else if tools[0].id == id then Without(tools[1..], id)
    else [tools[0]] + Without(tools[1..], id)
  }

  function Insert(tool: Tool, tools: seq<Tool>): (r: seq<Tool>)
    ensures multiset(r) == multiset(tools) + multiset{tool}
  {
    if tools == [] then [tool]
    else if CompareStrings(tool.id, tools[0].id) < 0 then [tool] + tools
    else
      assert tools == [tools[0]] + tools[1..];
      [tools[0]] + Insert(tool, tools[1..])
  }

  /** A stable sort by id. */
  function Sort(tools: seq<Tool>): (r: seq<Tool>)
    ensures multiset(r) == multiset(tools)
  {
    if tools == [] then []
    else
      var n := |tools| - 1;
      assert tools == tools[..n] + [tools[n]];
      Insert(tools[n], Sort(tools[..n]))
  }

  function AddTool(tools: seq<Tool>, tool: Tool): seq<Tool> {
    Sort(Without(tools, tool.id) + [tool])
  }

  /** Sorted by id, and so with no id twice. */
  ghost predicate Ordered(tools: seq<Tool>) {
    forall i, j :: 0 <= i < j < |tools| ==> CompareStrings(tools[i].id, tools[j].id) < 0
  }

  ghost predicate DistinctIds(tools: seq<Tool>) {
    forall i, j :: 0 <= i < j < |tools| ==> tools[i].id != tools[j].id
  }

  lemma {:induction false} InsertKeepsOrder(tool: Tool, tools: seq<Tool>)
    requires Ordered(tools) && forall t :: t in tools ==> t.id != tool.id
    ensures Ordered(Insert(tool, tools))
  {
    if tools != [] {
      var head := tools[0];
      StringsAntisymmetric(tool.id, head.id);
      if CompareStrings(tool.id, head.id) < 0 {
        forall k | 0 < k < |tools| ensures CompareStrings(tool.id, tools[k].id) < 0 {
          StringsTransitive(tool.id, head.id, tools[k].id);
        }
      } else {
        InsertKeepsOrder(tool, tools[1..]);
        var rest := Insert(tool, tools[1..]);
        forall k | 0 <= k < |rest| ensures CompareStrings(head.id, rest[k].id) < 0 {
          InSame(rest, tools[1..] + [tool], rest[k]);
        }
      }
    }
  }

  lemma {:induction false} SortOrders(tools: seq<Tool>)
    requires DistinctIds(tools)
    ensures Ordered(Sort(tools))
  {
    if tools != [] {
      var n := |tools| - 1;
      SortOrders(tools[..n]);
      forall t | t in Sort(tools[..n]) ensures t.id != tools[n].id {
        InSame(Sort(tools[..n]), tools[..n], t);
      }
      InsertKeepsOrder(tools[n], Sort(tools[..n]));
    }
  }

  lemma {:induction false} WithoutKeepsOrder(tools: seq<Tool>, id: string)
    requires Ordered(tools)
    ensures Ordered(Without(tools, id))
  {
    if tools != [] {
      WithoutKeepsOrder(tools[1..], id);
    }
  }

  /** A started tool replaces the one with its id and the others stay; the list stays in order. */
  lemma AddToolKeepsOrder(tools: seq<Tool>, tool: Tool)
    requires Ordered(tools)
    ensures Ordered(AddTool(tools, tool))
    ensures forall t :: t in AddTool(tools, tool) <==> t == tool || (t in tools && t.id != tool.id)
  {
    var kept := Without(tools, tool.id);
    WithoutKeepsOrder(tools, tool.id);
    forall i, j | 0 <= i < j < |kept| ensures kept[i].id != kept[j].id {
      StringsAntisymmetric(kept[i].id, kept[j].id);
    }
    forall i | 0 <= i < |kept| ensures kept[i].id != tool.id {
      assert kept[i] in kept;
    }
    SortOrders(kept + [tool]);
    forall t ensures t in AddTool(tools, tool) <==> t == tool || (t in tools && t.id != tool.id) {
      InSame(AddTool(tools, tool), kept + [tool], t);
    }
  }

  // ---- One event ----

  predicate Attention(state: AgentState) {
    state == Waiting || state == Blocked || state == Done
  }

  function Target(e: Event): string {
    match e.body
    case SubagentStart(id, _, _) => id
    case SubagentStop(id, _, _) => id
    case _ => if e.agentId.Some? && e.agentId.value != "" then e.agentId.value else e.pair.session
  }

  function EntryKey(p: Pair, agent: string): string {
    EntryId(p.terminal, p.session, agent)
  }

  function StreamKey(provider: string, p: Pair): string {
    StreamId(provider, p.terminal, p.session)
  }

  function At(e: Event): real {
    if e.occurredAt.Finite? then e.occurredAt.at else 0.0
  }

  function NewEntry(e: Event, agent: string, kind: EntryKind): Entry {
    Entry(
      Identity(EntryKey(e.pair, agent), kind, e.provider, agent, e.pair.session, Some(e.pair.terminal), false, [],
               e.providerName),
      Status(Idle, At(e), At(e), e.body.Kind(), e.sequence, kind.Root?, [], None, false, None),
      Details(None, None, None, None, None, None, None, None, None))
  }

  function RootEntryFor(e: Event): Entry {
    NewEntry(e, e.pair.session, Root(e.pair.terminal))
  }

  function SubagentEntryFor(e: Event): Entry {
    var parent :=
      if e.body.SubagentStart? && e.body.parentAgentId.Some? then e.body.parentAgentId.value else e.pair.session;
    NewEntry(e, Target(e), Subagent(parent, EntryKey(e.pair, parent)))
  }

  function GetOrCreate(s: Snapshot, e: Event): Option<Entry> {
    var id := EntryKey(e.pair, Target(e));
    if id in s.entries then Some(s.entries[id])
    else if e.body.SubagentStart? || e.body.SubagentStop? then Some(SubagentEntryFor(e))
    else if Target(e) != e.pair.session then None
    else Some(RootEntryFor(e))
  }

  /** The state an event of each kind leaves. */
  function NextState(state: AgentState, body: Body): AgentState {
    match body
    case SessionStart(_) => Idle
    case SessionStop(_) => Idle
    case TurnStart(_) => Working
    case WaitStart(blocked, _, _) => if blocked then Blocked else Waiting
    case WaitFinish => Working
    case Finish(_, _) => Done
    case SubagentStart(_, _, _) => Working
    case SubagentStop(_, _, _) => Done
    case Exit(_, _) => Done
    case _ => state
  }

  function NextActive(active: bool, body: Body): bool {
    match body
    case Metadata => active
    case SessionStop(_) => false
    case SubagentStop(_, _, _) => false
    case Exit(_, _) => false
    case _ => true
  }

  function NextTools(tools: seq<Tool>, body: Body, at: real): seq<Tool> {
    match body
    case ToolStart(id, name, description) => AddTool(tools, Tool(id, name, description, at))
    case ToolFinish(id) => Without(tools, id)
    case Metadata => tools
    case WaitStart(_, _, _) => tools
    case WaitFinish => tools
    case _ => []
  }

  function NextInferred(inferred: Option<bool>, body: Body): Option<bool> {
    match body
    case ToolStart(_, _, _) => inferred
    case ToolFinish(_) => inferred
    case WaitStart(_, _, guess) => Some(guess)
    case _ => Some(false)
  }

  function NextStatus(s: Status, e: Event): Status {
    var state := NextState(s.state, e.body);
    Status(
      state, if state == s.state then s.stateStartedAt else At(e), At(e), e.body.Kind(), e.sequence,
      NextActive(s.active, e.body), NextTools(s.tools, e.body, At(e)), NextInferred(s.inferred, e.body),
      s.unread || Attention(state), s.acknowledgedAt)
  }

  function NextDetails(d: Details, e: Event): Details {
    var d := d.(promptText := Either(e.promptText, d.promptText), model := Either(e.model, d.model));
    match e.body
    case SessionStart(name) =>
      d.(displayName := Either(name, d.displayName), waitingReason := None, outcome := None, summary := None,
         exitCode := None, exitSignal := None)
    case SessionStop(reason) => d.(waitingReason := None, summary := Either(reason, d.summary))
    case TurnStart(turn) => d.(turnId := turn, waitingReason := None, outcome := None, summary := None)
    case WaitStart(_, reason, _) => d.(waitingReason := reason)
    case WaitFinish => d.(waitingReason := None)
    case Finish(outcome, summary) => d.(waitingReason := None, outcome := outcome, summary := summary)
    case SubagentStart(_, _, name) =>
      d.(displayName := Either(name, d.displayName), waitingReason := None, outcome := None, summary := None)
    case SubagentStop(_, outcome, summary) => d.(waitingReason := None, outcome := outcome, summary := summary)
    case Exit(code, signal) =>
      d.(waitingReason := None, exitCode := code, exitSignal := signal,
         outcome := if code == None || code == Some(0) then d.outcome else Some("error"))
    case _ => d
  }

  function ApplyLifecycleEvent(entry: Entry, e: Event): Entry {
    Entry(entry.identity, NextStatus(entry.status, e), NextDetails(entry.details, e))
  }

  predicate IsOrderedAfter(cursor: Option<Cursor>, e: Event) {
    && 0 <= e.sequence <= MAX_SAFE_INTEGER
    && e.occurredAt.Finite?
    && (cursor.Some? ==> e.sequence > cursor.value.sequence && e.occurredAt.at >= cursor.value.occurredAt)
  }

  function CursorAt(s: Snapshot, stream: string): Option<Cursor> {
    if stream in s.cursors then Some(s.cursors[stream]) else None
  }

  predicate InOrder(s: Snapshot, e: Event) {
    IsOrderedAfter(CursorAt(s, StreamKey(e.provider, e.pair)), e)
  }

  predicate Accepts(s: Snapshot, e: Event) {
    InOrder(s, e) && GetOrCreate(s, e).Some?
  }

  function Put(s: Snapshot, entry: Entry, stream: string, cursor: Cursor): Snapshot {
    Snapshot(s.revision + 1, s.entries[entry.identity.entryId := entry], s.cursors[stream := cursor], None)
  }

  function Reduce(s: Snapshot, e: Event): Snapshot {
    if !Accepts(s, e) then s
    else
      Put(s, ApplyLifecycleEvent(GetOrCreate(s, e).value, e), StreamKey(e.provider, e.pair),
          Cursor(e.sequence, e.occurredAt.at))
  }
}
