/** `bindRemoteServerUiDocumentEndpoint` of `electron/serverUiDocumentEndpoint.ts`: one window's
    endpoint on a remote server, as a state machine whose steps are the pieces of code that run
    between two awaits. */
module RemoteEndpoint {
  import opened Common

  /** The life of `startTransport`'s promise chain for one transport. */
  datatype Pump = Idle | Scheduled | Opening | Reading | Ended

  /** Where an unfinished run of `recoverConnection`'s async body stands. */
  datatype Stage = ClosingOld | Awaiting | ClosingNew

  /** A call on a transport; transports are numbered in the order they come into being. */
  datatype Call = Open(transport: nat) | Close(transport: nat)

  /** The variables about the renderer's document; `handovers` counts the ports sent to it. */
  datatype Document = Document(ready: bool, attached: bool, hasAttached: bool, port: bool, handovers: nat)

  /** `failedReconnects`, `reconnectRetry`, and the timers armed and not yet fired. */
  datatype Retry = Retry(failed: nat, handle: Option<nat>, timers: set<nat>, next: nat)

  /** The closure variables and what is outstanding on the event loop. */
  datatype State = State(
    canReconnect: bool,
    connectionClosed: bool,
    reconnecting: bool,
    transport: nat,
    transportReady: bool,
    document: Document,
    retry: Retry,
    pumps: seq<Pump>,
    bodies: seq<Stage>,
    refused: bool,                // the last reconnect was refused with `window-limit`
    calls: seq<Call>)

  /** What can happen next. `posts` says whether posting `null` to the document's port returns;
      `accepted` whether the renderer took the port it was sent. */
  datatype Step =
    | OpenCalled(t: nat)
    | OpenResolved(t: nat, accepted: bool)
    | OpenRejected(t: nat, posts: bool)
    | FramePosted(t: nat)
    | PumpStopped(t: nat, posts: bool)     // the incoming stream ends or fails, or a frame cannot be posted
    | SendFailed(posts: bool)              // a send, possibly on an earlier transport, is rejected
    | PacketRefused
    | DocumentReady(accepted: bool)
    | PortRequested(accepted: bool)
    | LoadStarted
    | DocumentGone
    | Unbound                              // unbound, superseded or destroyed
    | OldClosed(i: nat)
    | ReconnectResolved(i: nat)
    | ReconnectRejected(i: nat, limit: bool)
    | NewClosed(i: nat)
    | TimerFired(timer: nat)

  function Init(canReconnect: bool): State {
    State(canReconnect, false, false, 0, false, Document(false, false, false, false, 0),
          Retry(0, None, {}, 0), [Scheduled], [], false, [])
  }

  // ---- The functions inside the closure ----

  function Cleared(r: Retry): Retry {
    if r.handle.Some? then r.(timers := r.timers - {r.handle.value}) else r
  }

  function Armed(r: Retry): Retry {
    Retry(r.failed + 1, Some(r.next), r.timers + {r.next}, r.next + 1)
  }

  function CloseConnection(s: State): (r: State)
    ensures r.canReconnect == s.canReconnect && (s.connectionClosed ==> r.connectionClosed)
  {
    if s.connectionClosed then s
    else s.(connectionClosed := true, retry := Cleared(s.retry), document := s.document.(port := false),
            calls := s.calls + [Close(s.transport)])
  }

  function Attach(s: State, replace: bool, accepted: bool): (r: State)
    ensures r.canReconnect == s.canReconnect && (s.connectionClosed ==> r.connectionClosed)
  {
    if s.connectionClosed || !s.document.ready || !s.transportReady || (s.document.attached && !replace) then s
    else s.(document := Document(true, true, true, accepted, s.document.handovers + 1))
  }

  function StartTransport(s: State): State
    requires s.transport < |s.pumps|
  {
    s.(transportReady := false, pumps := s.pumps[s.transport := Scheduled])
  }

  /** `recoverConnection`. The async body runs up to its first await before `reconnecting` is
      assigned; should posting to the document throw, its `finally` has already run by then. */
  function Recover(s: State, notify: bool, posts: bool): (r: State)
    ensures r.canReconnect == s.canReconnect && (s.connectionClosed ==> r.connectionClosed)
  {
    if s.connectionClosed || !s.canReconnect then CloseConnection(s)
    else if s.reconnecting then s
    else
      var c := s.(retry := Cleared(s.retry).(handle := None), transportReady := false,
                  reconnecting := true, refused := false);
      if notify && s.document.port && !posts then c.(retry := Armed(c.retry))
      else c.(calls := c.calls + [Close(c.transport)], bodies := c.bodies + [ClosingOld])
  }

  /** The async body ends: its `finally` clears `reconnecting`. */
  function Finish(s: State, i: nat): (r: State)
    requires i < |s.bodies|
    ensures r.canReconnect == s.canReconnect && (s.connectionClosed ==> r.connectionClosed)
  {
    s.(reconnecting := false, bodies := s.bodies[..i] + s.bodies[i + 1..])
  }

  // ---- Steps ----

  function CallOpen(s: State, t: nat): (r: State)
    requires t < |s.pumps|
    ensures r.canReconnect == s.canReconnect && (s.connectionClosed ==> r.connectionClosed)
  {
    s.(pumps := s.pumps[t := Opening], calls := s.calls + [Open(t)])
  }

  function AfterOpen(s: State, t: nat, accepted: bool): (r: State)
    requires t < |s.pumps|
    ensures r.canReconnect == s.canReconnect && (s.connectionClosed ==> r.connectionClosed)
  {
    if s.connectionClosed || s.transport != t then s.(pumps := s.pumps[t := Ended])
    else Attach(s.(transportReady := true, pumps := s.pumps[t := Reading]), false, accepted)
  }

  function AfterFrame(s: State, t: nat): (r: State)
    requires t < |s.pumps|
    ensures r.canReconnect == s.canReconnect && (s.connectionClosed ==> r.connectionClosed)
  {
    if s.connectionClosed || s.transport != t then s.(pumps := s.pumps[t := Ended]) else s
  }

  /** The pump of transport `t` is over; only the current one's end recovers. */
  function PumpOver(s: State, t: nat, posts: bool): (r: State)
    requires t < |s.pumps|
    ensures r.canReconnect == s.canReconnect && (s.connectionClosed ==> r.connectionClosed)
  {
    var over := s.(pumps := s.pumps[t := Ended]);
    if s.transport == t then Recover(over, true, posts) else over
  }

  function BecomeReady(s: State, accepted: bool): (r: State)
    ensures r.canReconnect == s.canReconnect && (s.connectionClosed ==> r.connectionClosed)
  {
    var ready := s.(document := s.document.(ready := true));
    if s.connectionClosed then s else if s.reconnecting then ready else Attach(ready, false, accepted)
  }

  function LoadStart(s: State): (r: State)
    ensures r.canReconnect == s.canReconnect && (s.connectionClosed ==> r.connectionClosed)
  {
    var loading := s.(document := s.document.(ready := false, attached := false, port := false));
    if s.connectionClosed then s
    else if s.document.hasAttached then Recover(loading, false, true) else loading
  }

  function AfterOldClosed(s: State, i: nat): (r: State)
    requires i < |s.bodies|
    ensures r.canReconnect == s.canReconnect && (s.connectionClosed ==> r.connectionClosed)
  {
    if s.connectionClosed then Finish(s, i) else s.(bodies := s.bodies[i := Awaiting])
  }

  function AfterReconnect(s: State, i: nat): (r: State)
    requires i < |s.bodies|
    ensures r.canReconnect == s.canReconnect && (s.connectionClosed ==> r.connectionClosed)
  {
    var n := |s.pumps|;
    if s.connectionClosed then
      s.(transport := n, pumps := s.pumps + [Idle], calls := s.calls + [Close(n)], bodies := s.bodies[i := ClosingNew])
    else
      Finish(StartTransport(Adopt(s)), i)
  }

  /** A new transport replaces the retired one; the document's port belongs to the old one. */
  function Adopt(s: State): (r: State)
    ensures r.transport == |s.pumps| < |r.pumps| && r.bodies == s.bodies && r.canReconnect == s.canReconnect
  {
    s.(transport := |s.pumps|, pumps := s.pumps + [Idle], retry := s.retry.(failed := 0),
       document := s.document.(attached := false))
  }

  function AfterRejection(s: State, i: nat, limit: bool): (r: State)
    requires i < |s.bodies|
    ensures r.canReconnect == s.canReconnect && (s.connectionClosed ==> r.connectionClosed)
  {
    var r := s.(transportReady := false);
    Finish(if s.connectionClosed then r
           else if limit then r.(refused := true)
           else r.(retry := Armed(s.retry)), i)
  }

  function AfterTimer(s: State, timer: nat): (r: State)
    ensures r.canReconnect == s.canReconnect && (s.connectionClosed ==> r.connectionClosed)
  {
    Recover(s.(retry := s.retry.(timers := s.retry.timers - {timer}, handle := None)), false, true)
  }

  predicate Enabled(s: State, step: Step) {
    match step
    case OpenCalled(t) => t < |s.pumps| && s.pumps[t] == Scheduled
    case OpenResolved(t, _) => t < |s.pumps| && s.pumps[t] == Opening
    case OpenRejected(t, _) => t < |s.pumps| && s.pumps[t] == Opening
    case FramePosted(t) => t < |s.pumps| && s.pumps[t] == Reading
    case PumpStopped(t, _) => t < |s.pumps| && s.pumps[t] == Reading
    case OldClosed(i) => i < |s.bodies| && s.bodies[i] == ClosingOld
    case ReconnectResolved(i) => i < |s.bodies| && s.bodies[i] == Awaiting
    case ReconnectRejected(i, _) => i < |s.bodies| && s.bodies[i] == Awaiting
    case NewClosed(i) => i < |s.bodies| && s.bodies[i] == ClosingNew
    case TimerFired(timer) => timer in s.retry.timers
    case _ => true
  }

  function Next(s: State, step: Step): (r: State)
    ensures r.canReconnect == s.canReconnect && (s.connectionClosed ==> r.connectionClosed)
  {
    if !Enabled(s, step) then s else
    match step
    case OpenCalled(t) => CallOpen(s, t)
    case OpenResolved(t, accepted) => AfterOpen(s, t, accepted)
    case OpenRejected(t, posts) => PumpOver(s, t, posts)
    case FramePosted(t) => AfterFrame(s, t)
    case PumpStopped(t, posts) => PumpOver(s, t, posts)
    case SendFailed(posts) => Recover(s, true, posts)
    case PacketRefused => CloseConnection(s)
    case DocumentReady(accepted) => BecomeReady(s, accepted)
    case PortRequested(accepted) => if s.reconnecting then s else Attach(s, true, accepted)
    case LoadStarted => LoadStart(s)
    case DocumentGone => s.(document := s.document.(port := false))
    case Unbound => CloseConnection(s)
    case OldClosed(i) => AfterOldClosed(s, i)
    case ReconnectResolved(i) => AfterReconnect(s, i)
    case ReconnectRejected(i, limit) => AfterRejection(s, i, limit)
    case NewClosed(i) => Finish(s, i)
    case TimerFired(timer) => AfterTimer(s, timer)
  }

  function Run(s: State, steps: seq<Step>): State
    decreases |steps|
  {
    if steps == [] then s else Run(Next(s, steps[0]), steps[1..])
  }

  lemma {:induction false} RunConcat(s: State, a: seq<Step>, b: seq<Step>)
    ensures Run(s, a + b) == Run(Run(s, a), b)
    decreases |a|
  {
    if a == [] {
      assert a + b == b;
    } else {
      assert (a + b)[1..] == a[1..] + b;
      RunConcat(Next(s, a[0]), a[1..], b);
    }
  }

  // ---- What every reachable state satisfies ----

  /** A pump that will still come to an end, and so to `recoverConnection`. */
  predicate Alive(p: Pump) {
    p == Scheduled || p == Opening || p == Reading
  }

  /** `reconnecting` is set and nothing is running that would clear it. */
  predicate Stuck(s: State) {
    s.reconnecting && s.bodies == []
  }

  /** Something will still happen for this window by itself, or the server refused it. */
  predicate Live(s: State) {
    (s.transport < |s.pumps| && Alive(s.pumps[s.transport])) || s.bodies != [] || s.retry.timers != {} || s.refused
  }

  predicate OneTimer(r: Retry) {
    forall h | h in r.timers :: r.handle == Some(h) && h < r.next
  }

  /** An idle, open endpoint whose lane is up is reading it, and a document that is ready has
      been sent a port, whether or not it took it. */
  predicate Served(s: State) {
    !s.connectionClosed && !s.reconnecting && s.transportReady ==>
      && s.transport < |s.pumps| && s.pumps[s.transport] == Reading
      && (s.document.ready ==> s.document.attached)
  }

  predicate Base(s: State) {
    && |s.pumps| == s.transport + 1
    && |s.bodies| <= 1
    && (s.bodies != [] ==> s.reconnecting && s.canReconnect && s.retry.timers == {})
    && (s.bodies != [] && s.bodies[0] == ClosingNew ==> s.connectionClosed)
    && OneTimer(s.retry)
    && (s.connectionClosed ==> s.retry.timers == {} && !s.document.port)
    && (!s.connectionClosed ==> s.pumps[s.transport] != Idle)
    && (!s.canReconnect && !s.connectionClosed ==> s.retry.timers == {} && !s.reconnecting)
    && (Stuck(s) ==> !s.refused)
  }

  /** At most one reconnect and one timer, none once closed; a document sent its port; and, unless
      `reconnecting` is stuck, an open endpoint still has something coming. */
  predicate Inv(s: State) {
    && Base(s)
    && Served(s)
    && (!s.connectionClosed && !s.canReconnect ==> Alive(s.pumps[s.transport]))
    && (!s.connectionClosed && s.canReconnect && !Stuck(s) ==> Live(s))
  }

  lemma RecoverKeepsInv(s: State, notify: bool, posts: bool)
    requires Base(s)
    ensures Inv(Recover(s, notify, posts))
  {
  }

  lemma AttachKeepsInv(s: State, replace: bool, accepted: bool)
    requires Inv(s)
    ensures Inv(Attach(s, replace, accepted))
  {
  }

  lemma CloseKeepsInv(s: State)
    requires Inv(s)
    ensures Inv(CloseConnection(s))
  {
  }

  lemma PumpKeepsInv(s: State, t: nat, accepted: bool, posts: bool)
    requires Inv(s) && t < |s.pumps|
    ensures s.pumps[t] == Scheduled ==> Inv(CallOpen(s, t))
    ensures s.pumps[t] == Opening ==> Inv(AfterOpen(s, t, accepted))
    ensures s.pumps[t] == Reading ==> Inv(AfterFrame(s, t))
    ensures s.pumps[t] != Idle ==> Inv(PumpOver(s, t, posts))
  {
    if t == s.transport && s.pumps[t] != Idle {
      RecoverKeepsInv(s.(pumps := s.pumps[t := Ended]), true, posts);
    }
  }

  lemma DocumentKeepsInv(s: State, accepted: bool)
    requires Inv(s)
    ensures Inv(BecomeReady(s, accepted)) && Inv(LoadStart(s)) && Inv(s.(document := s.document.(port := false)))
  {
    RecoverKeepsInv(s.(document := s.document.(ready := false, attached := false, port := false)), false, true);
  }

  lemma FinishIs(s: State, i: nat)
    requires |s.bodies| <= 1 && i < |s.bodies|
    ensures Finish(s, i) == s.(reconnecting := false, bodies := [])
  {
  }

  lemma BodyKeepsInv(s: State, i: nat, limit: bool)
    requires Inv(s) && i < |s.bodies|
    ensures s.connectionClosed || s.bodies[i] == ClosingOld ==> Inv(AfterOldClosed(s, i))
    ensures s.bodies[i] == Awaiting ==> Inv(AfterReconnect(s, i))
    ensures s.bodies[i] == Awaiting ==> Inv(AfterRejection(s, i, limit))
    ensures s.bodies[i] == ClosingNew ==> Inv(Finish(s, i))
  {
    FinishIs(s, i);
    var r := s.(transportReady := false);
    FinishIs(r, i);
    FinishIs(r.(refused := true), i);
    FinishIs(r.(retry := Armed(s.retry)), i);
  }

  lemma TimerKeepsInv(s: State, timer: nat)
    requires Inv(s) && timer in s.retry.timers
    ensures Inv(AfterTimer(s, timer))
  {
    RecoverKeepsInv(s.(retry := s.retry.(timers := s.retry.timers - {timer}, handle := None)), false, true);
  }

  lemma NextKeepsInv(s: State, step: Step)
    requires Inv(s)
    ensures Inv(Next(s, step))
  {
    if Enabled(s, step) {
      match step
      case OpenCalled(t) => PumpKeepsInv(s, t, true, true);
      case OpenResolved(t, accepted) => PumpKeepsInv(s, t, accepted, true);
      case OpenRejected(t, posts) => PumpKeepsInv(s, t, true, posts);
      case FramePosted(t) => PumpKeepsInv(s, t, true, true);
      case PumpStopped(t, posts) => PumpKeepsInv(s, t, true, posts);
      case SendFailed(posts) => RecoverKeepsInv(s, true, posts);
      case PacketRefused => CloseKeepsInv(s);
      case DocumentReady(accepted) => DocumentKeepsInv(s, accepted);
      case PortRequested(accepted) => AttachKeepsInv(s, true, accepted);
      case LoadStarted => DocumentKeepsInv(s, true);
      case DocumentGone => DocumentKeepsInv(s, true);
      case Unbound => CloseKeepsInv(s);
      case OldClosed(i) => BodyKeepsInv(s, i, false);
      case ReconnectResolved(i) => BodyKeepsInv(s, i, false);
      case ReconnectRejected(i, limit) => BodyKeepsInv(s, i, limit);
      case NewClosed(i) => BodyKeepsInv(s, i, false);
      case TimerFired(timer) => TimerKeepsInv(s, timer);
    }
  }

  // ---- The closure itself ----

  /** The variables of `bindRemoteServerUiDocumentEndpoint` and its callbacks. The ghost fields
      only record what the event loop and the transports owe. */
  class Endpoint {
    const canReconnect: bool
    var connectionClosed: bool
    var reconnecting: bool
    var transport: nat
    var transportReady: bool
    var documentReady: bool
    var attachedForDocument: bool
    var hasAttachedDocument: bool
    var documentPort: bool
    var failedReconnects: nat
    var reconnectRetry: Option<nat>
    var nextTimer: nat
    ghost var handovers: nat
    ghost var timers: set<nat>
    ghost var pumps: seq<Pump>
    ghost var bodies: seq<Stage>
    ghost var refused: bool
    ghost var calls: seq<Call>

    ghost function Value(): State
      reads this
    {
      State(canReconnect, connectionClosed, reconnecting, transport, transportReady,
            Document(documentReady, attachedForDocument, hasAttachedDocument, documentPort, handovers),
            Retry(failedReconnects, reconnectRetry, timers, nextTimer), pumps, bodies, refused, calls)
    }

    constructor (canReconnect: bool)
      ensures Value() == Init(canReconnect)
    {
      this.canReconnect := canReconnect;
      connectionClosed, reconnecting, transport, transportReady := false, false, 0, false;
      documentReady, attachedForDocument, hasAttachedDocument, documentPort := false, false, false, false;
      failedReconnects, reconnectRetry, nextTimer := 0, None, 0;
      handovers, timers, pumps, bodies, refused, calls := 0, {}, [Scheduled], [], false, [];
    }

    method ClearRetry()
      modifies this`timers
      ensures Value() == old(Value()).(retry := Cleared(old(Value()).retry))
    {
      if reconnectRetry.Some? { timers := timers - {reconnectRetry.value}; }
    }

    method SetRetry()
      modifies this`failedReconnects, this`reconnectRetry, this`nextTimer, this`timers
      ensures Value() == old(Value()).(retry := Armed(old(Value()).retry))
    {
      failedReconnects := failedReconnects + 1;
      reconnectRetry := Some(nextTimer);
      timers := timers + {nextTimer};
      nextTimer := nextTimer + 1;
    }

    method Close()
      modifies this
      ensures Value() == CloseConnection(old(Value()))
    {
      if connectionClosed { return; }
      connectionClosed := true;
      ClearRetry();
      documentPort := false;
      calls := calls + [Call.Close(transport)];
    }

    method AttachPort(replace: bool, accepted: bool)
      modifies this
      ensures Value() == Attach(old(Value()), replace, accepted)
    {
      if connectionClosed || !documentReady || !transportReady { return; }
      if attachedForDocument && !replace { return; }
      attachedForDocument, hasAttachedDocument, documentPort := true, true, accepted;
      handovers := handovers + 1;
    }

    method LeaveTransport()
      modifies this`timers, this`reconnectRetry, this`refused, this`transportReady
      ensures Value() == old(Value()).(retry := Cleared(old(Value()).retry).(handle := None), transportReady := false,
                                       refused := false)
    {
      ClearRetry();
      reconnectRetry := None;
      refused, transportReady := false, false;
    }

    method RecoverConnection(notify: bool, posts: bool)
      modifies this
      ensures Value() == Recover(old(Value()), notify, posts)
    {
      if connectionClosed || !canReconnect {
        Close();
        return;
      }
      if reconnecting { return; }
      LeaveTransport();
      if notify && documentPort && !posts {
        SetRetry();                  // the catch clause; its `finally` finds nothing to clear
      } else {
        calls := calls + [Call.Close(transport)];
        bodies := bodies + [ClosingOld];
      }
      reconnecting := true;          // the assignment of the promise comes last
    }

    /** `startTransport` on the current transport. */
    method Start()
      requires transport < |pumps|
      modifies this
      ensures Value() == StartTransport(old(Value()))
    {
      transportReady := false;
      pumps := pumps[transport := Scheduled];
    }

    /** The `finally` of the async body. */
    method Done(ghost i: nat)
      requires i < |bodies|
      modifies this
      ensures Value() == Finish(old(Value()), i)
    {
      reconnecting := false;
      bodies := bodies[..i] + bodies[i + 1..];
    }

    method OnOpenResolved(t: nat, accepted: bool)
      requires Enabled(Value(), OpenResolved(t, accepted))
      modifies this
      ensures Value() == Next(old(Value()), OpenResolved(t, accepted))
    {
      pumps := pumps[t := Ended];
      if connectionClosed || transport != t { return; }
      pumps := pumps[t := Reading];
      transportReady := true;
      AttachPort(false, accepted);
    }

    /** `open` rejects, or the incoming stream ends or fails. */
    method OnPumpOver(t: nat, posts: bool)
      requires t < |pumps|
      modifies this
      ensures Value() == PumpOver(old(Value()), t, posts)
    {
      pumps := pumps[t := Ended];
      if transport == t { RecoverConnection(true, posts); }
    }

    method OnDocumentReady(accepted: bool)
      modifies this
      ensures Value() == Next(old(Value()), DocumentReady(accepted))
    {
      if connectionClosed { return; }
      documentReady := true;
      if !reconnecting { AttachPort(false, accepted); }
    }

    method OnReplace(accepted: bool)
      modifies this
      ensures Value() == Next(old(Value()), PortRequested(accepted))
    {
      if connectionClosed { return; }
      if reconnecting || !documentReady { return; }
      AttachPort(true, accepted);
    }

    method OnDocumentLoadStart()
      modifies this
      ensures Value() == Next(old(Value()), LoadStarted)
    {
      if connectionClosed { return; }
      documentReady, attachedForDocument, documentPort := false, false, false;
      if hasAttachedDocument { RecoverConnection(false, true); }
    }

    /** Closing the retired transport has settled. */
    method OnOldClosed(ghost i: nat)
      requires Enabled(Value(), OldClosed(i))
      modifies this
      ensures Value() == Next(old(Value()), OldClosed(i))
    {
      if connectionClosed {
        Done(i);
        return;
      }
      bodies := bodies[i := Awaiting];
    }

    /** `reconnect` yields the transport numbered `next`. */
    method OnReconnected(ghost i: nat, next: nat)
      requires Enabled(Value(), ReconnectResolved(i)) && next == |pumps|
      modifies this
      ensures Value() == Next(old(Value()), ReconnectResolved(i))
    {
      if connectionClosed {
        transport := next;
        pumps := pumps + [Idle];
        calls := calls + [Call.Close(transport)];
        bodies := bodies[i := ClosingNew];
        return;
      }
      AdoptTransport(next);
      Start();
      Done(i);
    }

    method AdoptTransport(next: nat)
      requires next == |pumps|
      modifies this
      ensures Value() == Adopt(old(Value()))
    {
      transport := next;
      pumps := pumps + [Idle];
      failedReconnects := 0;
      attachedForDocument := false;
    }

    /** `reconnect` fails; `limit` when the server refuses with `window-limit`. */
    method OnReconnectFailed(ghost i: nat, limit: bool)
      requires Enabled(Value(), ReconnectRejected(i, limit))
      modifies this
      ensures Value() == Next(old(Value()), ReconnectRejected(i, limit))
    {
      transportReady := false;
      if !connectionClosed {
        if limit { refused := true; } else { SetRetry(); }
      }
      Done(i);
    }

    method OnTimer(ghost timer: nat)
      requires Enabled(Value(), TimerFired(timer))
      modifies this
      ensures Value() == Next(old(Value()), TimerFired(timer))
    {
      timers := timers - {timer};
      reconnectRetry := None;
      RecoverConnection(false, true);
    }
  }
}
