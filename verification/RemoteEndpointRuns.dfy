/** What holds over every run of a remote endpoint. */
module RemoteEndpointRuns {
  import opened Common
  import opened RemoteEndpoint

  // ---- Closing before opening ----

  ghost predicate AskedToClose(calls: seq<Call>, t: nat) {
    Close(t) in calls
  }

  /** Every transport but the current one has been asked to close; the current one too, once the
      endpoint is closed or a reconnect has begun. */
  ghost predicate Retired(s: State) {
    forall t: nat | t < |s.pumps| && (t != s.transport || s.connectionClosed || s.bodies != []) ::
      AskedToClose(s.calls, t)
  }

  /** No transport is opened before all the earlier ones have been asked to close. */
  ghost predicate OpensInOrder(calls: seq<Call>) {
    forall k: nat, u: nat | k < |calls| && calls[k].Open? && u < calls[k].transport :: AskedToClose(calls[..k], u)
  }

  lemma CallKeepsOrder(calls: seq<Call>, call: Call)
    requires OpensInOrder(calls)
    requires call.Open? ==> forall u: nat | u < call.transport :: AskedToClose(calls, u)
    ensures OpensInOrder(calls + [call])
  {
    var more := calls + [call];
    forall k: nat, u: nat | k < |more| && more[k].Open? && u < more[k].transport
      ensures AskedToClose(more[..k], u)
    {
      if k < |calls| {
        assert more[..k] == calls[..k] && more[k] == calls[k];
      } else {
        assert more[..k] == calls;
      }
    }
  }

  ghost predicate Orderly(s: State) {
    Retired(s) && OpensInOrder(s.calls)
  }

  lemma CloseKeepsOrder(s: State)
    requires Orderly(s) && Base(s)
    ensures Orderly(CloseConnection(s))
  {
    CallKeepsOrder(s.calls, Close(s.transport));
    assert forall t: nat | AskedToClose(s.calls, t) :: AskedToClose(s.calls + [Close(s.transport)], t);
    assert AskedToClose(s.calls + [Close(s.transport)], s.transport);
  }

  lemma RecoverKeepsOrder(s: State, notify: bool, posts: bool)
    requires Orderly(s) && Base(s)
    ensures Orderly(Recover(s, notify, posts))
  {
    CloseKeepsOrder(s);
    CallKeepsOrder(s.calls, Close(s.transport));
    assert forall t: nat | AskedToClose(s.calls, t) :: AskedToClose(s.calls + [Close(s.transport)], t);
    assert AskedToClose(s.calls + [Close(s.transport)], s.transport);
  }

  lemma OpenKeepsOrder(s: State, t: nat)
    requires Orderly(s) && Base(s) && t < |s.pumps|
    ensures Orderly(CallOpen(s, t))
  {
    CallKeepsOrder(s.calls, Open(t));
    assert forall u: nat | AskedToClose(s.calls, u) :: AskedToClose(s.calls + [Open(t)], u);
  }

  lemma BodyKeepsOrder(s: State, i: nat, limit: bool)
    requires Orderly(s) && Base(s) && i < |s.bodies|
    ensures Orderly(AfterOldClosed(s, i)) && Orderly(AfterReconnect(s, i))
    ensures Orderly(AfterRejection(s, i, limit)) && Orderly(Finish(s, i))
  {
    CallKeepsOrder(s.calls, Close(|s.pumps|));
    assert forall t: nat | AskedToClose(s.calls, t) :: AskedToClose(s.calls + [Close(|s.pumps|)], t);
    assert AskedToClose(s.calls + [Close(|s.pumps|)], |s.pumps|);
  }

  lemma PumpKeepsOrder(s: State, t: nat, accepted: bool, posts: bool)
    requires Orderly(s) && Base(s) && t < |s.pumps|
    ensures Orderly(CallOpen(s, t)) && Orderly(AfterOpen(s, t, accepted))
    ensures Orderly(AfterFrame(s, t))
    ensures s.pumps[t] != Idle ==> Orderly(PumpOver(s, t, posts))
  {
    OpenKeepsOrder(s, t);
    if s.pumps[t] != Idle { RecoverKeepsOrder(s.(pumps := s.pumps[t := Ended]), true, posts); }
  }

  lemma DocumentKeepsOrder(s: State, replace: bool, accepted: bool)
    requires Orderly(s) && Base(s)
    ensures Orderly(BecomeReady(s, accepted)) && Orderly(Attach(s, replace, accepted))
    ensures Orderly(LoadStart(s)) && Orderly(s.(document := s.document.(port := false)))
  {
    RecoverKeepsOrder(s.(document := s.document.(ready := false, attached := false, port := false)), false, true);
  }

  lemma TimerKeepsOrder(s: State, timer: nat)
    requires Orderly(s) && Inv(s) && timer in s.retry.timers
    ensures Orderly(AfterTimer(s, timer))
  {
    RecoverKeepsOrder(s.(retry := s.retry.(timers := s.retry.timers - {timer}, handle := None)), false, true);
  }

  lemma NextKeepsOrder(s: State, step: Step)
    requires Inv(s) && Orderly(s)
    ensures Orderly(Next(s, step))
  {
    if Enabled(s, step) {
      match step
      case OpenCalled(t) => PumpKeepsOrder(s, t, true, true);
      case OpenResolved(t, accepted) => PumpKeepsOrder(s, t, accepted, true);
      case OpenRejected(t, posts) => PumpKeepsOrder(s, t, true, posts);
      case FramePosted(t) => PumpKeepsOrder(s, t, true, true);
      case PumpStopped(t, posts) => PumpKeepsOrder(s, t, true, posts);
      case SendFailed(posts) => RecoverKeepsOrder(s, true, posts);
      case PacketRefused => CloseKeepsOrder(s);
      case DocumentReady(accepted) => DocumentKeepsOrder(s, false, accepted);
      case PortRequested(accepted) => DocumentKeepsOrder(s, true, accepted);
      case LoadStarted => DocumentKeepsOrder(s, false, true);
      case DocumentGone => DocumentKeepsOrder(s, false, true);
      case Unbound => CloseKeepsOrder(s);
      case OldClosed(i) => BodyKeepsOrder(s, i, false);
      case ReconnectResolved(i) => BodyKeepsOrder(s, i, false);
      case ReconnectRejected(i, limit) => BodyKeepsOrder(s, i, limit);
      case NewClosed(i) => BodyKeepsOrder(s, i, false);
      case TimerFired(timer) => TimerKeepsOrder(s, timer);
    }
  }

  // ---- Every run ----

  lemma {:induction false} RunKeeps(s: State, steps: seq<Step>)
    requires Inv(s) && Orderly(s)
    ensures Inv(Run(s, steps)) && Orderly(Run(s, steps))
    decreases |steps|
  {
    if steps != [] {
      NextKeepsInv(s, steps[0]);
      NextKeepsOrder(s, steps[0]);
      RunKeeps(Next(s, steps[0]), steps[1..]);
    }
  }

  /** Over every run: at most one reconnect and at most one retry timer, neither timer nor port
      once closed; a lane that is up is being read, and a ready document has been sent a port, taken
      or not; transports are opened only after all earlier ones were asked to close; and once the
      endpoint is closed and nothing is in flight, every transport there ever was has been asked to
      close, though perhaps before its `open` was called. */
  lemma EveryRun(canReconnect: bool, steps: seq<Step>)
    ensures var s := Run(Init(canReconnect), steps);
      && |s.bodies| <= 1 && OneTimer(s.retry) && Served(s) && OpensInOrder(s.calls)
      && (s.connectionClosed ==> s.retry.timers == {} && !s.document.port)
      && (s.connectionClosed && s.bodies == [] ==> forall t: nat | t < |s.pumps| :: AskedToClose(s.calls, t))
  {
    RunKeeps(Init(canReconnect), steps);
  }

  lemma ClosedStep(s: State, step: Step)
    requires s.connectionClosed
    ensures Next(s, step).connectionClosed && Next(s, step).document.handovers == s.document.handovers
  {
  }

  /** Closed is final: nothing reopens it, and no document is handed a port again. */
  lemma {:induction false} ClosedIsFinal(s: State, steps: seq<Step>)
    requires s.connectionClosed
    ensures Run(s, steps).connectionClosed && Run(s, steps).document.handovers == s.document.handovers
    decreases |steps|
  {
    if steps != [] {
      ClosedStep(s, steps[0]);
      ClosedIsFinal(Next(s, steps[0]), steps[1..]);
    }
  }

  // ---- No dead end, and exactly when there is one ----

  /** Posting to the document's port returns whenever this step posts. */
  predicate Calm(step: Step) {
    match step
    case OpenRejected(_, posts) => posts
    case PumpStopped(_, posts) => posts
    case SendFailed(posts) => posts
    case _ => true
  }

  predicate AllCalm(steps: seq<Step>) {
    forall k | 0 <= k < |steps| :: Calm(steps[k])
  }

  /** This step runs `recoverConnection` with a notice to the document. */
  predicate Notifies(s: State, step: Step) {
    Enabled(s, step) &&
    match step
    case OpenRejected(t, _) => t == s.transport
    case PumpStopped(t, _) => t == s.transport
    case SendFailed(_) => true
    case _ => false
  }

  /** `reconnecting` gets stuck at exactly one kind of step: a recovery that starts on an open
      endpoint holding a document port, when posting to that port throws. */
  lemma StuckExactly(s: State, step: Step)
    requires Inv(s) && !Stuck(s)
    ensures Stuck(Next(s, step)) <==>
            && Notifies(s, step) && !Calm(step) && s.document.port
            && !s.connectionClosed && s.canReconnect && !s.reconnecting
  {
    if s.bodies != [] { FinishIs(s, 0); }
  }

  lemma {:induction false} CalmRunsStayUnstuck(s: State, steps: seq<Step>)
    requires Inv(s) && !Stuck(s) && AllCalm(steps)
    ensures !Stuck(Run(s, steps))
    decreases |steps|
  {
    if steps != [] {
      assert Calm(steps[0]);
      StuckExactly(s, steps[0]);
      NextKeepsInv(s, steps[0]);
      assert forall k | 0 <= k < |steps[1..]| :: steps[1..][k] == steps[k + 1];
      CalmRunsStayUnstuck(Next(s, steps[0]), steps[1..]);
    }
  }

  /** The endpoint never dead-ends: as long as posting to a document's port returns, in every
      state of every run the endpoint is closed, or the current transport's pump is alive, a
      reconnect is in flight, a retry timer is armed, or the server refused the window. */
  lemma NeverDeadEnds(steps: seq<Step>)
    requires AllCalm(steps)
    ensures var s := Run(Init(true), steps);
      s.connectionClosed || Live(s)
  {
    RunKeeps(Init(true), steps);
    CalmRunsStayUnstuck(Init(true), steps);
    CanReconnectStays(Init(true), steps);
  }

  lemma {:induction false} CanReconnectStays(s: State, steps: seq<Step>)
    ensures Run(s, steps).canReconnect == s.canReconnect
    decreases |steps|
  {
    if steps != [] {
      CanReconnectStays(Next(s, steps[0]), steps[1..]);
    }
  }

  /** A stuck endpoint stays stuck until it is closed: nothing reconnects it. */
  lemma {:induction false} StuckIsFinal(s: State, steps: seq<Step>)
    requires Inv(s) && s.canReconnect && (s.connectionClosed || Stuck(s))
    ensures Run(s, steps).connectionClosed || Stuck(Run(s, steps))
    decreases |steps|
  {
    if steps != [] {
      NextKeepsInv(s, steps[0]);
      StuckStep(s, steps[0]);
      StuckIsFinal(Next(s, steps[0]), steps[1..]);
    }
  }

  lemma StuckStep(s: State, step: Step)
    requires Inv(s) && s.canReconnect && (s.connectionClosed || Stuck(s))
    ensures Next(s, step).canReconnect && (Next(s, step).connectionClosed || Stuck(Next(s, step)))
  {
  }

  /** The pump of a stuck endpoint's current transport can end, and nothing comes of it. */
  lemma StuckPumpEnds(s: State) returns (steps: seq<Step>)
    requires Inv(s) && s.canReconnect && !s.connectionClosed && Stuck(s)
    ensures AllCalm(steps)
    ensures var r := Run(s, steps);
      && Inv(r) && r.canReconnect && !r.connectionClosed && Stuck(r)
      && r.pumps[r.transport] == Ended
  {
    var t := s.transport;
    match s.pumps[t] {
      case Scheduled =>
        steps := [OpenCalled(t), OpenRejected(t, true)];
        var opening := Next(s, steps[0]);
        assert steps[1..] == [OpenRejected(t, true)] && steps[1..][1..] == [];
        NextKeepsInv(s, steps[0]);
        NextKeepsInv(opening, steps[1]);
        assert Run(opening, steps[1..]) == Next(opening, steps[1]);
      case Opening =>
        steps := [OpenRejected(t, true)];
        NextKeepsInv(s, steps[0]);
        assert steps[1..] == [];
      case Reading =>
        steps := [PumpStopped(t, true)];
        NextKeepsInv(s, steps[0]);
        assert steps[1..] == [];
      case _ => steps := [];
    }
  }

  lemma StuckTimerFires(s: State) returns (steps: seq<Step>)
    requires Inv(s) && s.canReconnect && !s.connectionClosed && Stuck(s)
    requires s.pumps[s.transport] == Ended
    ensures AllCalm(steps) && !Run(s, steps).connectionClosed && !Live(Run(s, steps))
  {
    steps := [];
    if s.retry.timers != {} {
      var h :| h in s.retry.timers;
      steps := [TimerFired(h)];
      assert steps[1..] == [];
      assert s.retry.timers - {h} == {};
    }
  }

  /** Left to itself a stuck endpoint runs dry: open, and nothing more will happen. */
  lemma StuckDies(s: State) returns (steps: seq<Step>)
    requires Inv(s) && s.canReconnect && !s.connectionClosed && Stuck(s)
    ensures AllCalm(steps) && !Run(s, steps).connectionClosed && !Live(Run(s, steps))
  {
    var first := StuckPumpEnds(s);
    var second := StuckTimerFires(Run(s, first));
    RunConcat(s, first, second);
    steps := first + second;
  }

  /** Exactly the endpoints that are not stuck have nothing to fear from calm runs. */
  lemma LiveForeverExactly(s: State)
    requires Inv(s) && Orderly(s) && s.canReconnect && !s.connectionClosed
    ensures (forall steps | AllCalm(steps) :: Run(s, steps).connectionClosed || Live(Run(s, steps))) <==> !Stuck(s)
  {
    if Stuck(s) {
      var steps := StuckDies(s);
    } else {
      forall steps | AllCalm(steps) ensures Run(s, steps).connectionClosed || Live(Run(s, steps)) {
        RunKeeps(s, steps);
        CalmRunsStayUnstuck(s, steps);
        CanReconnectStays(s, steps);
      }
    }
  }

  /** Such a run: the document is attached, the lane is lost and telling the document throws;
      the retry timer fires into an endpoint that believes it is reconnecting. */
  lemma ThrowingPortStrandsTheWindow()
    ensures var s := Run(Init(true), [OpenCalled(0), DocumentReady(true), OpenResolved(0, true),
                                      PumpStopped(0, false), TimerFired(0)]);
      !s.connectionClosed && !Live(s)
  {
    var s1 := Next(Init(true), OpenCalled(0));
    var s2 := Next(s1, DocumentReady(true));
    var s3 := Next(s2, OpenResolved(0, true));
    var s4 := Next(s3, PumpStopped(0, false));
    assert s4.retry.timers == {0};
    var s5 := Next(s4, TimerFired(0));
    assert Run(s4, [TimerFired(0)]) == s5;
    assert Run(s3, [PumpStopped(0, false), TimerFired(0)]) == s5;
    assert Run(s2, [OpenResolved(0, true), PumpStopped(0, false), TimerFired(0)]) == s5;
    assert Run(s1, [DocumentReady(true), OpenResolved(0, true), PumpStopped(0, false), TimerFired(0)]) == s5;
  }

  // ---- Ports handed out while reconnecting ----

  /** While a reconnect is in flight a document is handed a port in exactly one case: the retiring
      transport's `open`, still outstanding, resolves while the document waits for a port. */
  lemma PortDuringReconnectExactly(s: State, step: Step)
    requires Inv(s) && s.reconnecting && s.bodies != []
    ensures Next(s, step).document.handovers > s.document.handovers <==>
            && Enabled(s, step) && step.OpenResolved? && step.t == s.transport
            && !s.connectionClosed && s.document.ready && !s.document.attached
  {
    FinishIs(s, 0);
  }

  lemma RunTwo(s: State, first: Step, second: Step)
    ensures Run(s, [first, second]) == Next(Next(s, first), second)
  {
    assert [first, second][1..] == [second] && [second][1..] == [];
    var s' := Next(s, first);
    assert Run(s', [second]) == Run(Next(s', second), []);
  }

  /** The first lane is up and serving the document, and then it is lost. */
  lemma FirstLaneLost() returns (lost: State)
    ensures lost == Run(Init(true),
                        [OpenCalled(0), DocumentReady(true)] + [OpenResolved(0, true), PumpStopped(0, true)])
    ensures lost == State(true, false, true, 0, false, Document(true, true, true, true, 1), Retry(0, None, {}, 0),
                          [Ended], [ClosingOld], false, [Open(0), Close(0)])
  {
    var opening := Run(Init(true), [OpenCalled(0), DocumentReady(true)]);
    RunTwo(Init(true), OpenCalled(0), DocumentReady(true));
    RunTwo(opening, OpenResolved(0, true), PumpStopped(0, true));
    RunConcat(Init(true), [OpenCalled(0), DocumentReady(true)], [OpenResolved(0, true), PumpStopped(0, true)]);
    lost := Run(opening, [OpenResolved(0, true), PumpStopped(0, true)]);
  }

  /** It is replaced, and while the replacement opens a send on the first lane is rejected. */
  lemma SecondLaneRetired(lost: State) returns (retired: State)
    requires lost == State(true, false, true, 0, false, Document(true, true, true, true, 1), Retry(0, None, {}, 0),
                           [Ended], [ClosingOld], false, [Open(0), Close(0)])
    ensures retired == Run(lost, [OldClosed(0), ReconnectResolved(0)] + [OpenCalled(1), SendFailed(true)])
    ensures retired == State(true, false, true, 1, false, Document(true, false, true, true, 1), Retry(0, None, {}, 0),
                             [Ended, Opening], [ClosingOld], false, [Open(0), Close(0), Open(1), Close(1)])
  {
    var replaced := Run(lost, [OldClosed(0), ReconnectResolved(0)]);
    RunTwo(lost, OldClosed(0), ReconnectResolved(0));
    FinishIs(StartTransport(Adopt(Next(lost, OldClosed(0)))), 0);
    RunTwo(replaced, OpenCalled(1), SendFailed(true));
    RunConcat(lost, [OldClosed(0), ReconnectResolved(0)], [OpenCalled(1), SendFailed(true)]);
    retired := Run(replaced, [OpenCalled(1), SendFailed(true)]);
  }

  /** And that case arises: a send on the first lane is rejected late, while its replacement is
      still opening. The port then handed out belongs to a lane already asked to close. */
  lemma PortDuringReconnectHappens() returns (steps: seq<Step>)
    ensures AllCalm(steps)
    ensures var s := Run(Init(true), steps);
      && s.reconnecting && s.bodies != [] && AskedToClose(s.calls, s.transport)
      && Next(s, OpenResolved(s.transport, true)).document.handovers == s.document.handovers + 1
  {
    var lost := FirstLaneLost();
    var retired := SecondLaneRetired(lost);
    var first := [OpenCalled(0), DocumentReady(true)] + [OpenResolved(0, true), PumpStopped(0, true)];
    var second := [OldClosed(0), ReconnectResolved(0)] + [OpenCalled(1), SendFailed(true)];
    RunConcat(Init(true), first, second);
    steps := first + second;
    assert retired.calls[3] == Close(1);
  }
}
