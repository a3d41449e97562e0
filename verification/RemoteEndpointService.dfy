/** What a remote endpoint has done by the end of a run: which documents hold a port, and which
    transports were left open. */
module RemoteEndpointService {
  import opened Common
  import opened RemoteEndpoint
  import opened RemoteEndpointRuns

  // ---- The document's port ----

  predicate Accepts(step: Step) {
    match step
    case OpenResolved(_, accepted) => accepted
    case DocumentReady(accepted) => accepted
    case PortRequested(accepted) => accepted
    case _ => false
  }

  /** The last port handed over was refused, or the document that took it has gone since. */
  predicate Withheld(s: State, steps: seq<Step>, was: bool)
    decreases |steps|
  {
    if steps == [] then was
    else Withheld(Next(s, steps[0]), steps[1..], WithheldNow(s, Next(s, steps[0]), steps[0], was))
  }

  predicate WithheldNow(s: State, r: State, step: Step, was: bool) {
    if r.document.handovers > s.document.handovers then !Accepts(step) else was || step.DocumentGone?
  }

  predicate PortIs(s: State, withheld: bool) {
    !s.connectionClosed && s.document.attached ==> (s.document.port <==> !withheld)
  }

  /** Nothing is handed over, and the port stays as it is as long as the document counts as attached. */
  predicate KeepsDocument(s: State, r: State) {
    && r.document.handovers == s.document.handovers
    && (r.connectionClosed || !r.document.attached || r.document == s.document)
  }

  lemma RecoverKeepsDocument(s: State, notify: bool, posts: bool)
    ensures KeepsDocument(s, Recover(s, notify, posts))
  {
  }

  lemma PumpKeepsDocument(s: State, t: nat, posts: bool)
    requires t < |s.pumps|
    ensures KeepsDocument(s, CallOpen(s, t)) && KeepsDocument(s, AfterFrame(s, t))
    ensures KeepsDocument(s, PumpOver(s, t, posts))
  {
    RecoverKeepsDocument(s.(pumps := s.pumps[t := Ended]), true, posts);
  }

  lemma BodyKeepsDocument(s: State, i: nat, limit: bool)
    requires i < |s.bodies|
    ensures KeepsDocument(s, AfterOldClosed(s, i)) && KeepsDocument(s, AfterReconnect(s, i))
    ensures KeepsDocument(s, AfterRejection(s, i, limit)) && KeepsDocument(s, Finish(s, i))
  {
  }

  lemma AttachKeepsPort(s: State, r: State, replace: bool, step: Step, was: bool)
    requires PortIs(s, was) && r == Attach(s, replace, Accepts(step)) && !step.DocumentGone?
    ensures PortIs(r, WithheldNow(s, r, step, was))
  {
  }

  lemma OthersKeepDocument(s: State, step: Step)
    requires !step.OpenResolved? && !step.DocumentReady? && !step.PortRequested? && !step.DocumentGone?
    ensures KeepsDocument(s, Next(s, step))
  {
    if Enabled(s, step) {
      match step
      case OpenCalled(t) => PumpKeepsDocument(s, t, true);
      case OpenRejected(t, posts) => PumpKeepsDocument(s, t, posts);
      case FramePosted(t) => PumpKeepsDocument(s, t, true);
      case PumpStopped(t, posts) => PumpKeepsDocument(s, t, posts);
      case SendFailed(posts) => RecoverKeepsDocument(s, true, posts);
      case LoadStarted =>
        var loading := s.(document := s.document.(ready := false, attached := false, port := false));
        RecoverKeepsDocument(loading, false, true);
      case OldClosed(i) => BodyKeepsDocument(s, i, false);
      case ReconnectResolved(i) => BodyKeepsDocument(s, i, false);
      case ReconnectRejected(i, limit) => BodyKeepsDocument(s, i, limit);
      case NewClosed(i) => BodyKeepsDocument(s, i, false);
      case TimerFired(timer) =>
        RecoverKeepsDocument(s.(retry := s.retry.(timers := s.retry.timers - {timer}, handle := None)), false, true);
      case _ =>
    }
  }

  lemma NextKeepsPort(s: State, step: Step, was: bool)
    requires PortIs(s, was)
    ensures PortIs(Next(s, step), WithheldNow(s, Next(s, step), step, was))
  {
    match step
    case OpenResolved(t, accepted) =>
      if Enabled(s, step) && !s.connectionClosed && s.transport == t {
        var reading := s.(transportReady := true, pumps := s.pumps[t := Reading]);
        AttachKeepsPort(reading, Next(s, step), false, step, was);
      }
    case DocumentReady(accepted) =>
      if !s.connectionClosed && !s.reconnecting {
        AttachKeepsPort(s.(document := s.document.(ready := true)), Next(s, step), false, step, was);
      }
    case PortRequested(accepted) => if !s.reconnecting { AttachKeepsPort(s, Next(s, step), true, step, was); }
    case DocumentGone =>
    case _ => OthersKeepDocument(s, step);
  }

  lemma {:induction false} RunKeepsPort(s: State, steps: seq<Step>, was: bool)
    requires PortIs(s, was)
    ensures PortIs(Run(s, steps), Withheld(s, steps, was))
    decreases |steps|
  {
    if steps != [] {
      NextKeepsPort(s, steps[0], was);
      RunKeepsPort(Next(s, steps[0]), steps[1..], WithheldNow(s, Next(s, steps[0]), steps[0], was));
    }
  }

  /** Over every run, an open endpoint that is not reconnecting and whose lane is up has given its
      ready document a port, exactly unless the document refused the last one or has gone since. */
  lemma ReadyDocumentHasPortExactly(canReconnect: bool, steps: seq<Step>)
    ensures var s := Run(Init(canReconnect), steps);
      !s.connectionClosed && !s.reconnecting && s.transportReady && s.document.ready ==>
        (s.document.port <==> !Withheld(Init(canReconnect), steps, true))
  {
    RunKeeps(Init(canReconnect), steps);
    RunKeepsPort(Init(canReconnect), steps, true);
  }

  lemma RunThree(s: State, a: Step, b: Step, c: Step)
    ensures Run(s, [a, b, c]) == Next(Next(Next(s, a), b), c)
  {
    assert [a, b, c][1..] == [b, c];
    RunTwo(Next(s, a), b, c);
  }

  /** A refused port is not offered again unless the document asks: the lane is up, the document ready, and
      it has none. */
  lemma RefusedPortIsNotOfferedAgain(canReconnect: bool)
    ensures var s := Run(Init(canReconnect), [OpenCalled(0), DocumentReady(true), OpenResolved(0, false)]);
      && !s.connectionClosed && !s.reconnecting && s.transportReady && s.document.ready
      && s.document.attached && !s.document.port
  {
    RunThree(Init(canReconnect), OpenCalled(0), DocumentReady(true), OpenResolved(0, false));
  }

  // ---- Transports whose last call is `open` ----

  /** The last call on a transport. */
  function LastOn(calls: seq<Call>, t: nat): Option<Call> {
    if calls == [] then None
    else if calls[|calls| - 1].transport == t then Some(calls[|calls| - 1])
    else LastOn(calls[..|calls| - 1], t)
  }

  /** It was asked to close, and opened after the last such request. */
  ghost predicate OpenedAfterClose(calls: seq<Call>, t: nat) {
    LastOn(calls, t) == Some(Open(t)) && AskedToClose(calls, t)
  }

  lemma AfterCall(calls: seq<Call>, call: Call, t: nat)
    ensures LastOn(calls + [call], t) == if call.transport == t then Some(call) else LastOn(calls, t)
    ensures AskedToClose(calls + [call], t) <==> AskedToClose(calls, t) || call == Close(t)
  {
    assert (calls + [call])[..|calls|] == calls;
  }

  /** The call made between two states; no step makes two. */
  function Made(s: State, r: State): Option<Call> {
    if |r.calls| == |s.calls| + 1 then Some(r.calls[|s.calls|]) else None
  }

  /** When the transport was last asked to close, its pump had yet to call `open`. */
  predicate ClosedWhileScheduled(s: State, steps: seq<Step>, t: nat, was: bool)
    decreases |steps|
  {
    if steps == [] then was
    else ClosedWhileScheduled(Next(s, steps[0]), steps[1..], t, ClosedNow(s, Next(s, steps[0]), t, was))
  }

  predicate ClosedNow(s: State, r: State, t: nat, was: bool) {
    if Made(s, r) == Some(Close(t)) then PumpOf(s.pumps, t) == Scheduled else was
  }

  /** The pump of a transport; idle when there is no such transport. */
  function PumpOf(pumps: seq<Pump>, t: nat): Pump {
    if t < |pumps| then pumps[t] else Idle
  }

  predicate Started(p: Pump) {
    p != Idle && p != Scheduled
  }

  /** What one piece of code does to the pumps and what it calls. */
  datatype Change =
    | Quiet
    | Starts(u: nat)
    | MovesOn(u: nat, to: Pump)
    | Adds(pump: Pump)

  ghost predicate Pumps(s: State, r: State, change: Change) {
    match change
    case Quiet => r.pumps == s.pumps
    case Starts(u) => PumpOf(s.pumps, u) == Scheduled && u < |s.pumps| && r.pumps == s.pumps[u := Opening]
    case MovesOn(u, to) => Started(PumpOf(s.pumps, u)) && Started(to) && u < |s.pumps| && r.pumps == s.pumps[u := to]
    case Adds(pump) => !Started(pump) && r.pumps == s.pumps + [pump]
  }

  ghost predicate CallsBy(s: State, r: State, change: Change) {
    match change
    case Starts(u) => r.calls == s.calls + [Open(u)]
    case Adds(Idle) => r.calls == s.calls + [Close(|s.pumps|)]
    case Adds(_) => r.calls == s.calls
    case _ => r.calls == s.calls || r.calls == s.calls + [Close(s.transport)]
  }

  /** Every piece of code does one of four things: nothing to the pumps, start one with a call of `open`,
      move a started one on, or add a transport; besides, it may ask the current transport to close. */
  ghost predicate Does(s: State, r: State, change: Change) {
    Pumps(s, r, change) && CallsBy(s, r, change)
  }

  lemma RecoverDoes(s: State, notify: bool, posts: bool)
    ensures Does(s, Recover(s, notify, posts), Quiet)
  {
  }

  lemma PumpDoes(s: State, u: nat, accepted: bool, posts: bool) returns (change: Change)
    requires u < |s.pumps| && Started(s.pumps[u])
    ensures Does(s, AfterOpen(s, u, accepted), change)
    ensures Does(s, PumpOver(s, u, posts), MovesOn(u, Ended))
  {
    RecoverDoes(s.(pumps := s.pumps[u := Ended]), true, posts);
    change := MovesOn(u, AfterOpen(s, u, accepted).pumps[u]);
  }

  lemma FrameDoes(s: State, u: nat)
    requires u < |s.pumps| && Started(s.pumps[u])
    ensures Does(s, AfterFrame(s, u), MovesOn(u, AfterFrame(s, u).pumps[u]))
  {
  }

  lemma BodyDoes(s: State, i: nat, limit: bool)
    requires i < |s.bodies|
    ensures Does(s, AfterOldClosed(s, i), Quiet) && Does(s, Finish(s, i), Quiet)
    ensures Does(s, AfterRejection(s, i, limit), Quiet)
    ensures Does(s, AfterReconnect(s, i), Adds(if s.connectionClosed then Idle else Scheduled))
  {
  }

  lemma NextDoes(s: State, step: Step) returns (change: Change)
    ensures Does(s, Next(s, step), change)
  {
    change := Quiet;
    if Enabled(s, step) {
      match step
      case OpenCalled(u) => change := Starts(u);
      case OpenResolved(u, accepted) => change := PumpDoes(s, u, accepted, true);
      case OpenRejected(u, posts) =>
        change := PumpDoes(s, u, true, posts);
        change := MovesOn(u, Ended);
      case FramePosted(u) =>
        FrameDoes(s, u);
        change := MovesOn(u, AfterFrame(s, u).pumps[u]);
      case PumpStopped(u, posts) =>
        change := PumpDoes(s, u, true, posts);
        change := MovesOn(u, Ended);
      case SendFailed(posts) => RecoverDoes(s, true, posts);
      case LoadStarted =>
        RecoverDoes(s.(document := s.document.(ready := false, attached := false, port := false)), false, true);
      case OldClosed(i) => BodyDoes(s, i, false);
      case ReconnectResolved(i) =>
        BodyDoes(s, i, false);
        change := Adds(if s.connectionClosed then Idle else Scheduled);
      case ReconnectRejected(i, limit) => BodyDoes(s, i, limit);
      case NewClosed(i) => BodyDoes(s, i, false);
      case TimerFired(timer) =>
        RecoverDoes(s.(retry := s.retry.(timers := s.retry.timers - {timer}, handle := None)), false, true);
      case _ =>
    }
  }

  /** What the calls on a transport are by the state of its pump. */
  ghost predicate CallsAre(s: State, t: nat, early: bool) {
    var last := LastOn(s.calls, t);
    && (t >= |s.pumps| ==> last == None && !AskedToClose(s.calls, t))
    && (PumpOf(s.pumps, t) == Idle ==> !early)
    && (!Started(PumpOf(s.pumps, t)) ==> last != Some(Open(t)))
    && (PumpOf(s.pumps, t) == Scheduled ==> (AskedToClose(s.calls, t) <==> early))
    && (Started(PumpOf(s.pumps, t)) ==> (OpenedAfterClose(s.calls, t) <==> early))
  }

  lemma ChangeKeepsCalls(s: State, r: State, change: Change, t: nat, early: bool)
    requires s.transport < |s.pumps| && CallsAre(s, t, early) && Does(s, r, change)
    ensures CallsAre(r, t, ClosedNow(s, r, t, early))
  {
    if r.calls != s.calls { AfterCall(s.calls, r.calls[|s.calls|], t); }
  }

  lemma NextKeepsCalls(s: State, step: Step, t: nat, early: bool)
    requires Base(s) && CallsAre(s, t, early)
    ensures CallsAre(Next(s, step), t, ClosedNow(s, Next(s, step), t, early))
  {
    var change := NextDoes(s, step);
    ChangeKeepsCalls(s, Next(s, step), change, t, early);
  }

  lemma {:induction false} RunKeepsCalls(s: State, steps: seq<Step>, t: nat, early: bool)
    requires Inv(s) && CallsAre(s, t, early)
    ensures CallsAre(Run(s, steps), t, ClosedWhileScheduled(s, steps, t, early))
    decreases |steps|
  {
    if steps != [] {
      NextKeepsInv(s, steps[0]);
      NextKeepsCalls(s, steps[0], t, early);
      RunKeepsCalls(Next(s, steps[0]), steps[1..], t, ClosedNow(s, Next(s, steps[0]), t, early));
    }
  }

  /** Over every run, a transport's last call is an `open` after it was asked to close exactly when that
      last request came while its pump was still scheduled, and the pump has run since. */
  lemma OpenedAfterCloseExactly(canReconnect: bool, steps: seq<Step>, t: nat)
    ensures var s := Run(Init(canReconnect), steps);
      OpenedAfterClose(s.calls, t) <==>
        ClosedWhileScheduled(Init(canReconnect), steps, t, false) && PumpOf(s.pumps, t) != Scheduled
  {
    RunKeepsCalls(Init(canReconnect), steps, t, false);
  }

  /** So once the endpoint is closed and nothing is in flight, every transport's last call is `close`,
      but for those whose pump went on to call `open` after the last request to close. */
  lemma LeftOpenExactly(canReconnect: bool, steps: seq<Step>, t: nat)
    requires var s := Run(Init(canReconnect), steps);
      s.connectionClosed && s.bodies == [] && t < |s.pumps|
    ensures var s := Run(Init(canReconnect), steps);
      var early := ClosedWhileScheduled(Init(canReconnect), steps, t, false);
      LastOn(s.calls, t) == Some(if early && s.pumps[t] != Scheduled then Open(t) else Close(t))
  {
    EveryRun(canReconnect, steps);
    OpenedAfterCloseExactly(canReconnect, steps, t);
    LastOnIs(Run(Init(canReconnect), steps).calls, t);
  }

  lemma {:induction false} LastOnIs(calls: seq<Call>, t: nat)
    requires AskedToClose(calls, t)
    ensures LastOn(calls, t) == Some(Open(t)) || LastOn(calls, t) == Some(Close(t))
    decreases |calls|
  {
    var n := |calls| - 1;
    if calls[n].transport != t {
      assert calls == calls[..n] + [calls[n]];
      LastOnIs(calls[..n], t);
    }
  }

  /** Unbound before the first `open` is called, the endpoint closes its transport and then opens it. */
  lemma UnboundTooEarlyOpens(canReconnect: bool)
    ensures var s := Run(Init(canReconnect), [Unbound, OpenCalled(0)]);
      s.connectionClosed && s.bodies == [] && s.calls == [Close(0), Open(0)]
  {
    RunTwo(Init(canReconnect), Unbound, OpenCalled(0));
  }
}
