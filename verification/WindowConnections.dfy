/** The class of `electron/desktopWindowConnections.ts`: one window's primary connection and the
    lanes attached beside it, cut into steps at every await. */
module WindowConnections {
  import opened Common

  datatype Status = Connecting | Connected | Offline

  datatype Profile = Profile(id: string, serverId: Option<string>)

  /** An attached record; lanes are numbered in the order `openLane` yields them. */
  datatype Record = Record(connectionId: nat, serverId: Option<string>, status: Status, lane: Option<nat>)

  datatype AttachError = WindowClosed | PrimaryProfile | UnknownProfile

  /** `opening` holds the `openLane` calls still outstanding, with their profile; `queue` what
      `dispose` has yet to close; `closes` logs the calls of `close` on lanes, and `lost` the lanes
      given up because they were reported lost. */
  datatype State = State(
    attached: map<string, Record>,
    disposed: bool,
    sequence: nat,
    opening: map<nat, string>,
    queue: seq<Option<nat>>,
    lanes: nat,
    closes: seq<nat>,
    lost: seq<nat>)

  datatype Step =
    | Attach(profileId: string, profiles: seq<Profile>)
    | LaneOpened(connection: nat, serverId: string)
    | OpenFailed(connection: nat)
    | LossReported(connection: nat, profileId: string)
    | Detach(profileId: string)
    | Dispose(order: seq<string>)          // the attached profiles, in the map's order
    | DisposeNext

  const EMPTY := State(map[], false, 0, map[], [], 0, [], [])

  function FindProfile(profiles: seq<Profile>, id: string): Option<Profile> {
    if profiles == [] then None
    else if profiles[0].id == id then Some(profiles[0])
    else FindProfile(profiles[1..], id)
  }

  /** The record one `attach` call made is still the profile's. */
  predicate IsCurrent(s: State, connection: nat, profileId: string) {
    profileId in s.attached && s.attached[profileId].connectionId == connection
  }

  function CloseLane(s: State, lane: Option<nat>): State {
    if lane.Some? then s.(closes := s.closes + [lane.value]) else s
  }

  /** `attach` up to its await: refuses, answers with the record there is, or makes one and
      calls `openLane`. */
  function AttachAnswer(s: State, primary: string, profileId: string, profiles: seq<Profile>)
    : Result<nat, AttachError>
  {
    if s.disposed then Err(WindowClosed)
    else if profileId == primary then Err(PrimaryProfile)
    else if profileId in s.attached then Ok(s.attached[profileId].connectionId)
    else if FindProfile(profiles, profileId).None? then Err(UnknownProfile)
    else Ok(s.sequence + 1)
  }

  function BeginAttach(s: State, primary: string, profileId: string, profiles: seq<Profile>): State {
    if AttachAnswer(s, primary, profileId, profiles).Err? || profileId in s.attached then s
    else
      var connection := s.sequence + 1;
      var serverId := FindProfile(profiles, profileId).value.serverId;
      s.(sequence := connection, opening := s.opening[connection := profileId],
         attached := s.attached[profileId := Record(connection, serverId, Connecting, None)])
  }

  /** `openLane` yields a lane: it is kept if its record is still there, closed otherwise. */
  function KeepOrClose(s: State, connection: nat, serverId: string): State
    requires connection in s.opening
  {
    var profileId, lane := s.opening[connection], s.lanes;
    var t := s.(lanes := lane + 1, opening := s.opening - {connection});
    if s.disposed || !IsCurrent(s, connection, profileId) then CloseLane(t, Some(lane))
    else t.(attached := s.attached[profileId := Record(connection, Some(serverId), Connected, Some(lane))])
  }

  /** `openLane` fails: its record, if still there, goes. */
  function Forget(s: State, connection: nat): State
    requires connection in s.opening
  {
    var profileId := s.opening[connection];
    var t := s.(opening := s.opening - {connection});
    if IsCurrent(s, connection, profileId) then t.(attached := s.attached - {profileId}) else t
  }

  function Lose(s: State, connection: nat, profileId: string): State {
    if !IsCurrent(s, connection, profileId) || s.attached[profileId].status == Offline then s
    else
      var record := s.attached[profileId];
      s.(attached := s.attached[profileId := record.(status := Offline, lane := None)],
         lost := if record.lane.Some? then s.lost + [record.lane.value] else s.lost)
  }

  function DetachProfile(s: State, primary: string, profileId: string): State {
    if profileId == primary || profileId !in s.attached then s
    else CloseLane(s.(attached := s.attached - {profileId}), s.attached[profileId].lane)
  }

  function LanesOf(attached: map<string, Record>, order: seq<string>): seq<Option<nat>>
    requires forall p | p in order :: p in attached
  {
    if order == [] then [] else [attached[order[0]].lane] + LanesOf(attached, order[1..])
  }

  predicate Enumerates(order: seq<string>, attached: map<string, Record>) {
    && (forall p | p in order :: p in attached)
    && (forall p | p in attached :: p in order)
    && (forall i, j | 0 <= i < j < |order| :: order[i] != order[j])
  }

  function CloseFirst(s: State): State {
    if s.queue == [] then s else CloseLane(s.(queue := s.queue[1..]), s.queue[0])
  }

  /** `dispose` up to its first await: the first lane is being closed. */
  function BeginDispose(s: State, order: seq<string>): State
    requires Enumerates(order, s.attached)
  {
    if s.disposed then s
    else CloseFirst(s.(disposed := true, queue := LanesOf(s.attached, order), attached := map[]))
  }

  function Next(s: State, primary: string, step: Step): State {
    match step
    case Attach(profileId, profiles) => BeginAttach(s, primary, profileId, profiles)
    case LaneOpened(connection, serverId) => if connection in s.opening then KeepOrClose(s, connection, serverId) else s
    case OpenFailed(connection) => if connection in s.opening then Forget(s, connection) else s
    case LossReported(connection, profileId) => Lose(s, connection, profileId)
    case Detach(profileId) => DetachProfile(s, primary, profileId)
    case Dispose(order) => if Enumerates(order, s.attached) then BeginDispose(s, order) else s
    case DisposeNext => CloseFirst(s)
  }

  function Run(s: State, primary: string, steps: seq<Step>): State
    decreases |steps|
  {
    if steps == [] then s else Run(Next(s, primary, steps[0]), primary, steps[1..])
  }

  // ---- Records ----

  predicate RecordOk(s: State, r: Record, profileId: string) {
    && 1 <= r.connectionId <= s.sequence
    && (r.connectionId in s.opening ==> s.opening[r.connectionId] == profileId)
    && (r.lane.Some? <==> r.status == Connected)
    && (r.lane.Some? ==> r.lane.value < s.lanes)
    && (r.status == Connected ==> r.connectionId !in s.opening)
    && (r.status == Connecting ==> r.connectionId in s.opening)
  }

  /** The primary has no record, a disposed window has none, and no two records share a lane. */
  ghost predicate Records(s: State, primary: string) {
    && primary !in s.attached
    && (s.disposed ==> s.attached == map[])
    && (!s.disposed ==> s.queue == [])
    && (forall p | p in s.attached :: RecordOk(s, s.attached[p], p))
    && (forall p, q | p in s.attached && q in s.attached && p != q ::
          s.attached[p].lane.Some? ==> s.attached[p].lane != s.attached[q].lane)
    && (forall c | c in s.opening :: 1 <= c <= s.sequence)
  }

  lemma AttachKeepsRecords(s: State, primary: string, profileId: string, profiles: seq<Profile>)
    requires Records(s, primary)
    ensures Records(BeginAttach(s, primary, profileId, profiles), primary)
  {
    var t := BeginAttach(s, primary, profileId, profiles);
    forall p | p in t.attached ensures RecordOk(t, t.attached[p], p) {
      if p in s.attached { assert RecordOk(s, s.attached[p], p); }
    }
  }

  lemma OpenedKeepsRecords(s: State, primary: string, connection: nat, serverId: string)
    requires Records(s, primary) && connection in s.opening
    ensures Records(KeepOrClose(s, connection, serverId), primary)
    ensures Records(Forget(s, connection), primary)
  {
    var t, u := KeepOrClose(s, connection, serverId), Forget(s, connection);
    var profileId := s.opening[connection];
    forall p | p in t.attached ensures RecordOk(t, t.attached[p], p) {
      assert RecordOk(s, s.attached[p], p);
    }
    forall p | p in u.attached ensures RecordOk(u, u.attached[p], p) {
      assert RecordOk(s, s.attached[p], p);
    }
    forall p, q | p in t.attached && q in t.attached && p != q && t.attached[p].lane.Some?
      ensures t.attached[p].lane != t.attached[q].lane
    {
      assert RecordOk(s, s.attached[p], p) && RecordOk(s, s.attached[q], q);
    }
  }

  lemma LoseKeepsRecords(s: State, primary: string, connection: nat, profileId: string)
    requires Records(s, primary)
    ensures Records(Lose(s, connection, profileId), primary)
  {
    var t := Lose(s, connection, profileId);
    forall p | p in t.attached ensures RecordOk(t, t.attached[p], p) {
      assert RecordOk(s, s.attached[p], p);
    }
  }

  lemma DetachKeepsRecords(s: State, primary: string, profileId: string)
    requires Records(s, primary)
    ensures Records(DetachProfile(s, primary, profileId), primary)
  {
    var t := DetachProfile(s, primary, profileId);
    forall p | p in t.attached ensures RecordOk(t, t.attached[p], p) {
      assert RecordOk(s, s.attached[p], p);
    }
  }

  lemma NextKeepsRecords(s: State, primary: string, step: Step)
    requires Records(s, primary)
    ensures Records(Next(s, primary, step), primary)
  {
    match step
    case Attach(profileId, profiles) => AttachKeepsRecords(s, primary, profileId, profiles);
    case LaneOpened(connection, serverId) =>
      if connection in s.opening { OpenedKeepsRecords(s, primary, connection, serverId); }
    case OpenFailed(connection) =>
      if connection in s.opening { OpenedKeepsRecords(s, primary, connection, ""); }
    case LossReported(connection, profileId) => LoseKeepsRecords(s, primary, connection, profileId);
    case Detach(profileId) => DetachKeepsRecords(s, primary, profileId);
    case Dispose(order) =>
    case DisposeNext =>
  }

  // ---- Lanes: who owns each one ----

  ghost predicate Held(s: State, lane: nat) {
    exists p :: p in s.attached && s.attached[p].lane == Some(lane)
  }

  /** In how many places a lane is: held by a record, waiting in `dispose`, closed, given up. */
  ghost function Places(s: State, lane: nat): nat {
    (if Held(s, lane) then 1 else 0) + multiset(s.queue)[Some(lane)] + multiset(s.closes)[lane] + multiset(s.lost)[lane]
  }

  /** A lane `openLane` has yielded is in exactly one place, any other in none. */
  ghost predicate Placed(s: State, lane: nat) {
    Places(s, lane) == if lane < s.lanes then 1 else 0
  }

  /** Every lane `openLane` ever yielded is in exactly one place, closed lanes exactly once. */
  ghost predicate Owned(s: State) {
    forall lane: nat :: Placed(s, lane)
  }

  lemma OpenedKeepsOwned(s: State, primary: string, connection: nat, serverId: string, lane: nat)
    requires Records(s, primary) && connection in s.opening && Placed(s, lane)
    ensures Placed(KeepOrClose(s, connection, serverId), lane) && Placed(Forget(s, connection), lane)
  {
    var t, u := KeepOrClose(s, connection, serverId), Forget(s, connection);
    var profileId := s.opening[connection];
    assert IsCurrent(s, connection, profileId) ==> RecordOk(s, s.attached[profileId], profileId);
    if Held(s, lane) {
      var p :| p in s.attached && s.attached[p].lane == Some(lane);
      assert RecordOk(s, s.attached[p], p);
      assert p in t.attached && t.attached[p].lane == Some(lane);
      assert p in u.attached && u.attached[p].lane == Some(lane);
    }
    if !s.disposed && IsCurrent(s, connection, profileId) {
      assert t.attached[profileId].lane == Some(s.lanes);
    }
  }

  /** Replacing or dropping one record only moves that record's lane. */
  lemma HeldElsewhere(s: State, primary: string, t: State, profileId: string, lane: nat)
    requires Records(s, primary) && profileId in s.attached
    requires t.attached == s.attached - {profileId}
             || (profileId in t.attached && t.attached[profileId].lane == None
                 && t.attached == s.attached[profileId := t.attached[profileId]])
    ensures Held(t, lane) <==> Held(s, lane) && s.attached[profileId].lane != Some(lane)
  {
    if Held(s, lane) {
      var p :| p in s.attached && s.attached[p].lane == Some(lane);
      if p != profileId { assert p in t.attached && t.attached[p].lane == Some(lane); }
    }
  }

  lemma LostKeepsOwned(s: State, primary: string, connection: nat, profileId: string, lane: nat)
    requires Records(s, primary) && Placed(s, lane)
    ensures Placed(Lose(s, connection, profileId), lane)
  {
    var t := Lose(s, connection, profileId);
    if t != s {
      HeldElsewhere(s, primary, t, profileId, lane);
      if s.attached[profileId].lane == Some(lane) { assert Held(s, lane); }
    }
  }

  lemma DetachKeepsOwned(s: State, primary: string, profileId: string, lane: nat)
    requires Records(s, primary) && Placed(s, lane)
    ensures Placed(DetachProfile(s, primary, profileId), lane)
  {
    if profileId != primary && profileId in s.attached {
      HeldElsewhere(s, primary, DetachProfile(s, primary, profileId), profileId, lane);
      if s.attached[profileId].lane == Some(lane) { assert Held(s, lane); }
    }
  }

  predicate HeldIn(attached: map<string, Record>, order: seq<string>, lane: nat)
    requires forall p | p in order :: p in attached
  {
    exists p :: p in order && attached[p].lane == Some(lane)
  }

  lemma {:induction false} QueueHoldsTheHeld(s: State, primary: string, order: seq<string>, lane: nat)
    requires Records(s, primary) && forall p | p in order :: p in s.attached
    requires forall i, j | 0 <= i < j < |order| :: order[i] != order[j]
    ensures multiset(LanesOf(s.attached, order))[Some(lane)] == if HeldIn(s.attached, order, lane) then 1 else 0
    decreases |order|
  {
    if order != [] {
      var first, rest := order[0], order[1..];
      assert forall i | 0 <= i < |rest| :: rest[i] == order[i + 1];
      QueueHoldsTheHeld(s, primary, rest, lane);
      assert first !in rest;
      assert order == [first] + rest;
      if s.attached[first].lane == Some(lane) {
        assert HeldIn(s.attached, order, lane);
        assert !HeldIn(s.attached, rest, lane);
      } else {
        assert HeldIn(s.attached, order, lane) == HeldIn(s.attached, rest, lane);
      }
    }
  }

  lemma CloseFirstKeepsOwned(s: State, lane: nat)
    requires Placed(s, lane)
    ensures Placed(CloseFirst(s), lane)
  {
    if s.queue != [] {
      var first, t := s.queue[0], CloseFirst(s);
      assert t.queue == s.queue[1..] && t.lost == s.lost && t.lanes == s.lanes;
      assert Held(t, lane) == Held(s, lane);
      assert s.queue == [first] + t.queue;
      var moved := if first == Some(lane) then 1 else 0;
      assert multiset(s.queue)[Some(lane)] == multiset(t.queue)[Some(lane)] + moved;
      assert multiset(t.closes)[lane] == multiset(s.closes)[lane] + moved;
    }
  }

  lemma DisposeKeepsOwned(s: State, primary: string, order: seq<string>, lane: nat)
    requires Records(s, primary) && Enumerates(order, s.attached) && Placed(s, lane)
    ensures Placed(BeginDispose(s, order), lane)
  {
    if !s.disposed {
      QueueHoldsTheHeld(s, primary, order, lane);
      var t := s.(disposed := true, queue := LanesOf(s.attached, order), attached := map[]);
      assert Held(s, lane) == HeldIn(s.attached, order, lane);
      CloseFirstKeepsOwned(t, lane);
    }
  }

  lemma AttachKeepsOwned(s: State, primary: string, profileId: string, profiles: seq<Profile>, lane: nat)
    requires Placed(s, lane)
    ensures Placed(BeginAttach(s, primary, profileId, profiles), lane)
  {
    var t := BeginAttach(s, primary, profileId, profiles);
    if Held(s, lane) {
      var p :| p in s.attached && s.attached[p].lane == Some(lane);
      assert p in t.attached && t.attached[p].lane == Some(lane);
    }
    if Held(t, lane) {
      var p :| p in t.attached && t.attached[p].lane == Some(lane);
      assert p in s.attached && s.attached[p].lane == Some(lane);
    }
  }

  lemma NextKeepsPlace(s: State, primary: string, step: Step, lane: nat)
    requires Records(s, primary) && Placed(s, lane)
    ensures Placed(Next(s, primary, step), lane)
  {
    match step
    case Attach(profileId, profiles) => AttachKeepsOwned(s, primary, profileId, profiles, lane);
    case LaneOpened(connection, serverId) =>
      if connection in s.opening { OpenedKeepsOwned(s, primary, connection, serverId, lane); }
    case OpenFailed(connection) =>
      if connection in s.opening { OpenedKeepsOwned(s, primary, connection, "", lane); }
    case LossReported(connection, profileId) => LostKeepsOwned(s, primary, connection, profileId, lane);
    case Detach(profileId) => DetachKeepsOwned(s, primary, profileId, lane);
    case Dispose(order) => if Enumerates(order, s.attached) { DisposeKeepsOwned(s, primary, order, lane); }
    case DisposeNext => CloseFirstKeepsOwned(s, lane);
  }

  lemma NextKeepsOwned(s: State, primary: string, step: Step)
    requires Records(s, primary) && Owned(s)
    ensures Owned(Next(s, primary, step))
  {
    var t := Next(s, primary, step);
    forall lane: nat ensures Placed(t, lane) {
      NextKeepsPlace(s, primary, step, lane);
    }
  }

  lemma {:induction false} RunKeeps(s: State, primary: string, steps: seq<Step>)
    requires Records(s, primary) && Owned(s)
    ensures Records(Run(s, primary, steps), primary) && Owned(Run(s, primary, steps))
    decreases |steps|
  {
    if steps != [] {
      NextKeepsRecords(s, primary, steps[0]);
      NextKeepsOwned(s, primary, steps[0]);
      RunKeeps(Next(s, primary, steps[0]), primary, steps[1..]);
    }
  }

  /** Over every interleaving of attach, open, loss, detach and dispose, each lane ever yielded is
      held by exactly one record, waits to be closed, was closed exactly once or was given up as
      lost, and only one of these. */
  lemma EveryLaneIsOwned(primary: string, steps: seq<Step>)
    ensures var s := Run(EMPTY, primary, steps);
      Records(s, primary) && Owned(s)
  {
    RunKeeps(EMPTY, primary, steps);
  }

  /** Once `dispose` has settled no lane is held: each was closed exactly once or reported lost. */
  lemma DisposedHoldsNothing(primary: string, steps: seq<Step>, lane: nat)
    requires var s := Run(EMPTY, primary, steps);
      s.disposed && s.queue == [] && lane < s.lanes
    ensures var s := Run(EMPTY, primary, steps);
      !Held(s, lane) && multiset(s.closes)[lane] + multiset(s.lost)[lane] == 1
  {
    RunKeeps(EMPTY, primary, steps);
    var s := Run(EMPTY, primary, steps);
    assert Placed(s, lane);
  }

  // ---- When a reported loss counts, and when it stays visible ----

  /** The record this connection made is gone or shows offline, so that a loss reported now is ignored. */
  predicate ShownLost(s: State, connection: nat, profileId: string) {
    IsCurrent(s, connection, profileId) ==> s.attached[profileId].status == Offline
  }

  /** And it cannot come back: a lane that is still being opened finds no record of its own. */
  predicate LostForGood(s: State, connection: nat, profileId: string) {
    IsCurrent(s, connection, profileId) ==> s.attached[profileId].status == Offline && connection !in s.opening
  }

  lemma LostStep(s: State, primary: string, step: Step, connection: nat, profileId: string)
    requires Records(s, primary) && connection <= s.sequence && LostForGood(s, connection, profileId)
    ensures var t := Next(s, primary, step);
      LostForGood(t, connection, profileId) && connection <= t.sequence
  {
    if IsCurrent(s, connection, profileId) { assert RecordOk(s, s.attached[profileId], profileId); }
  }

  lemma {:induction false} LostStays(s: State, primary: string, steps: seq<Step>, connection: nat, profileId: string)
    requires Records(s, primary) && connection <= s.sequence && LostForGood(s, connection, profileId)
    ensures ShownLost(Run(s, primary, steps), connection, profileId)
    decreases |steps|
  {
    if steps != [] {
      NextKeepsRecords(s, primary, steps[0]);
      LostStep(s, primary, steps[0], connection, profileId);
      LostStays(Next(s, primary, steps[0]), primary, steps[1..], connection, profileId);
    }
  }

  ghost predicate AlwaysShownLost(s: State, primary: string, connection: nat, profileId: string) {
    forall steps {:trigger Run(s, primary, steps)} :: ShownLost(Run(s, primary, steps), connection, profileId)
  }

  lemma OneStep(s: State, primary: string, step: Step)
    ensures Run(s, primary, [step]) == Next(s, primary, step)
  {
    assert [step][1..] == [];
  }

  lemma AlwaysShownLostExactly(s: State, primary: string, connection: nat, profileId: string)
    requires Records(s, primary) && connection <= s.sequence
    ensures AlwaysShownLost(s, primary, connection, profileId) <==> LostForGood(s, connection, profileId)
  {
    if LostForGood(s, connection, profileId) {
      forall steps ensures ShownLost(Run(s, primary, steps), connection, profileId) {
        LostStays(s, primary, steps, connection, profileId);
      }
    } else {
      assert RecordOk(s, s.attached[profileId], profileId);
      var steps := if connection in s.opening then [LaneOpened(connection, "")] else [];
      if connection in s.opening { OneStep(s, primary, steps[0]); }
      assert !ShownLost(Run(s, primary, steps), connection, profileId);
    }
  }

  ghost predicate AlwaysIgnored(s: State, primary: string, connection: nat, profileId: string) {
    forall steps {:trigger Run(s, primary, steps)} ::
      Lose(Run(s, primary, steps), connection, profileId) == Run(s, primary, steps)
  }

  lemma IgnoredIsShownLost(s: State, connection: nat, profileId: string)
    ensures Lose(s, connection, profileId) == s <==> ShownLost(s, connection, profileId)
  {
  }

  /** A late loss report changes nothing at any later point of any run exactly when the record of its
      connection is gone or replaced, or already offline with its open settled: connection ids are
      never used again, and a lane still opening for a record that is gone is closed on arrival. */
  lemma LateLossIsIgnoredExactly(s: State, primary: string, connection: nat, profileId: string)
    requires Records(s, primary) && connection <= s.sequence
    ensures AlwaysIgnored(s, primary, connection, profileId) <==>
            || !IsCurrent(s, connection, profileId)
            || (s.attached[profileId].status == Offline && connection !in s.opening)
  {
    AlwaysShownLostExactly(s, primary, connection, profileId);
    forall steps
      ensures Lose(Run(s, primary, steps), connection, profileId) == Run(s, primary, steps)
              <==> ShownLost(Run(s, primary, steps), connection, profileId)
    {
      IgnoredIsShownLost(Run(s, primary, steps), connection, profileId);
    }
  }

  /** A loss reported for an attached connection stays visible over every later run exactly when
      that connection's open had already resolved: a loss reported earlier is overwritten when the
      lane arrives, and the record then shows a dead lane as connected. */
  lemma LossStaysExactly(s: State, primary: string, connection: nat, profileId: string)
    requires Records(s, primary) && IsCurrent(s, connection, profileId)
    ensures AlwaysShownLost(Lose(s, connection, profileId), primary, connection, profileId)
            <==> connection !in s.opening
  {
    LoseKeepsRecords(s, primary, connection, profileId);
    assert RecordOk(s, s.attached[profileId], profileId);
    AlwaysShownLostExactly(Lose(s, connection, profileId), primary, connection, profileId);
  }

  /** The early loss from the start: a server is attached, its lane is reported lost while it is
      still being opened, and once the lane arrives the server shows as connected. */
  lemma EarlyLossIsForgotten(primary: string, profileId: string, serverId: string)
    requires profileId != primary
    ensures var attach := Attach(profileId, [Profile(profileId, None)]);
      var lost := Run(EMPTY, primary, [attach, LossReported(1, profileId)]);
      var after := Run(EMPTY, primary, [attach, LossReported(1, profileId), LaneOpened(1, serverId)]);
      && profileId in lost.attached && lost.attached[profileId].status == Offline
      && profileId in after.attached && after.attached[profileId] == Record(1, Some(serverId), Connected, Some(0))
  {
    var attach := Attach(profileId, [Profile(profileId, None)]);
    var s1 := Next(EMPTY, primary, attach);
    var s2 := Next(s1, primary, LossReported(1, profileId));
    assert [attach, LossReported(1, profileId)][1..] == [LossReported(1, profileId)];
    assert [attach, LossReported(1, profileId), LaneOpened(1, serverId)][1..]
        == [LossReported(1, profileId), LaneOpened(1, serverId)];
    assert [LossReported(1, profileId), LaneOpened(1, serverId)][1..] == [LaneOpened(1, serverId)];
    OneStep(s1, primary, LossReported(1, profileId));
    OneStep(s2, primary, LaneOpened(1, serverId));
  }

  // ---- The class itself ----

  /** One window's bookkeeping; `queue` is what is left of the loop in `dispose`. The ghost fields
      record what is outstanding and what became of each lane. */
  class DesktopWindowConnections {
    const primaryProfileId: string
    var attached: map<string, Record>
    var disposed: bool
    var sequence: nat
    var queue: seq<Option<nat>>
    ghost var opening: map<nat, string>
    ghost var lanes: nat
    ghost var closes: seq<nat>
    ghost var lost: seq<nat>

    ghost function Value(): State
      reads this
    {
      State(attached, disposed, sequence, opening, queue, lanes, closes, lost)
    }

    constructor (primaryProfileId: string)
      ensures this.primaryProfileId == primaryProfileId && Value() == EMPTY
    {
      this.primaryProfileId := primaryProfileId;
      attached, disposed, sequence, queue := map[], false, 0, [];
      opening, lanes, closes, lost := map[], 0, [], [];
    }

    /** `closeQuietly`. */
    method CloseQuietly(lane: Option<nat>)
      modifies this`closes
      ensures Value() == CloseLane(old(Value()), lane)
    {
      if lane.Some? { closes := closes + [lane.value]; }
    }

    /** `attach` up to its await. */
    method Attach(profileId: string, profiles: seq<Profile>) returns (answer: Result<nat, AttachError>)
      modifies this
      ensures Value() == BeginAttach(old(Value()), primaryProfileId, profileId, profiles)
      ensures answer == AttachAnswer(old(Value()), primaryProfileId, profileId, profiles)
    {
      if disposed { return Err(WindowClosed); }
      if profileId == primaryProfileId { return Err(PrimaryProfile); }
      if profileId in attached { return Ok(attached[profileId].connectionId); }
      var profile := FindProfile(profiles, profileId);
      if profile.None? { return Err(UnknownProfile); }
      sequence := sequence + 1;
      attached := attached[profileId := Record(sequence, profile.value.serverId, Connecting, None)];
      opening := opening[sequence := profileId];
      return Ok(sequence);
    }

    /** `attach` after `openLane` has yielded the lane numbered `lane`. */
    method LaneOpened(connectionId: nat, profileId: string, lane: nat, serverId: string) returns (kept: bool)
      requires connectionId in opening && opening[connectionId] == profileId && lane == lanes
      modifies this
      ensures Value() == KeepOrClose(old(Value()), connectionId, serverId)
      ensures kept == (!disposed && IsCurrent(old(Value()), connectionId, profileId))
    {
      lanes, opening := lanes + 1, opening - {connectionId};
      if disposed || profileId !in attached || attached[profileId].connectionId != connectionId {
        CloseQuietly(Some(lane));
        return false;
      }
      attached := attached[profileId := Record(connectionId, Some(serverId), Connected, Some(lane))];
      return true;
    }

    /** `attach` after `openLane` has failed. */
    method OpenFailed(connectionId: nat, profileId: string)
      requires connectionId in opening && opening[connectionId] == profileId
      modifies this
      ensures Value() == Forget(old(Value()), connectionId)
    {
      opening := opening - {connectionId};
      if profileId in attached && attached[profileId].connectionId == connectionId {
        attached := attached - {profileId};
      }
    }

    method MarkLost(profileId: string, connectionId: nat)
      modifies this
      ensures Value() == Lose(old(Value()), connectionId, profileId)
    {
      if profileId !in attached || attached[profileId].connectionId != connectionId { return; }
      var record := attached[profileId];
      if record.status == Offline { return; }
      if record.lane.Some? { lost := lost + [record.lane.value]; }
      attached := attached[profileId := record.(status := Offline, lane := None)];
    }

    method Detach(profileId: string) returns (refused: bool)
      modifies this
      ensures Value() == DetachProfile(old(Value()), primaryProfileId, profileId)
      ensures refused == (profileId == primaryProfileId)
    {
      if profileId == primaryProfileId { return true; }
      if profileId !in attached { return false; }
      var record := attached[profileId];
      attached := attached - {profileId};
      CloseQuietly(record.lane);
      return false;
    }

    /** One turn of the loop in `dispose`. */
    method DisposeNext()
      modifies this
      ensures Value() == CloseFirst(old(Value()))
    {
      if queue == [] { return; }
      var lane := queue[0];
      queue := queue[1..];
      CloseQuietly(lane);
    }

    /** `dispose` up to its first await; `order` is the order the map is iterated in. */
    method Dispose(order: seq<string>)
      requires Enumerates(order, attached)
      modifies this
      ensures Value() == BeginDispose(old(Value()), order)
    {
      if disposed { return; }
      disposed := true;
      queue := LanesOf(attached, order);
      attached := map[];
      DisposeNext();
    }
  }
}
