/** The manual clock of `electron/testServerClock.ts`: a discrete-event scheduler
    whose handlers arm and clear timers while `advance` runs them. */
module ManualClock {
  import opened Common

  /** What a handler does when it runs. `Clear(slot)` clears the handle held in a
      variable the handler can see: `slot` indexes the handles captured by its closure
      followed by the ones it has armed itself. */
  datatype Script =
    | Done
    | Arm(delay: real, handler: Script, next: Script)
    | Clear(slot: nat, next: Script)

  /** A pending timer; `env` holds the handles its handler captured. */
  datatype Timer = Timer(handle: nat, due: real, handler: Script, env: seq<nat>)

  /** The closure variables of `createManualServerClock`. `timers` is in insertion
      order, the order a JavaScript `Map` is iterated in. */
  datatype State = State(current: real, sequence: nat, timers: seq<Timer>)

  datatype Event = Armed(handle: nat, due: real) | Cleared(handle: nat) | Fired(handle: nat, at: real)

  /** A number handed to `advance`. */
  datatype Milliseconds = Finite(value: real) | NotFinite

  datatype Outcome = Outcome(state: State, events: seq<Event>)

  /** One outcome after another. */
  function Then(first: Outcome, second: Outcome): Outcome {
    Outcome(second.state, first.events + second.events)
  }

  // ---- State invariant ----

  ghost predicate Wf(s: State) {
    && (forall i | 0 <= i < |s.timers| :: 1 <= s.timers[i].handle <= s.sequence && s.current <= s.timers[i].due)
    && (forall i, j | 0 <= i < j < |s.timers| :: s.timers[i].handle < s.timers[j].handle)
  }

  // ---- The four operations on values ----

  function Delay(milliseconds: real): real {
    if milliseconds < 0.0 then 0.0 else milliseconds
  }

  function Armed1(s: State, milliseconds: real, handler: Script, env: seq<nat>): State {
    var handle := s.sequence + 1;
    s.(sequence := handle,
    timers := s.timers + [Timer(handle, s.current + Delay(milliseconds), handler, env + [handle])])
  }

  /** The position of a handle in the table, if it is pending. */
  function Position(timers: seq<Timer>, handle: nat): (p: Option<nat>)
    ensures p.Some? ==> p.value < |timers| && timers[p.value].handle == handle
    ensures p.None? <==> forall i | 0 <= i < |timers| :: timers[i].handle != handle
  {
    if timers == [] then None
    else if timers[|timers| - 1].handle == handle then Some(|timers| - 1)
    else Position(timers[..|timers| - 1], handle)
  }

  function RemoveAt(timers: seq<Timer>, i: nat): (r: seq<Timer>)
    requires i < |timers|
    ensures |r| == |timers| - 1
    ensures forall j | 0 <= j < |r| :: r[j] == if j < i then timers[j] else timers[j + 1]
  {
    timers[..i] + timers[i + 1..]
  }

  function Cleared1(s: State, handle: nat): Outcome {
    match Position(s.timers, handle)
    case None => Outcome(s, [])
    case Some(i) => Outcome(s.(timers := RemoveAt(s.timers, i)), [Event.Cleared(handle)])
  }

  function RunScript(s: State, script: Script, env: seq<nat>): Outcome
    decreases script
  {
    match script
    case Done => Outcome(s, [])
    case Arm(delay, handler, next) =>
      var s' := Armed1(s, delay, handler, env);
      Then(Outcome(s', [Event.Armed(s'.sequence, s.current + Delay(delay))]),
           RunScript(s', next, env + [s'.sequence]))
    case Clear(slot, next) =>
      var cleared := if slot < |env| then Cleared1(s, env[slot]) else Outcome(s, []);
      Then(cleared, RunScript(cleared.state, next, env))
  }

  /** The scan inside `advance`: the best of the first `n` timers. */
  function Earliest(timers: seq<Timer>, target: real, n: nat): (best: Option<nat>)
    requires n <= |timers|
    ensures best.Some? ==> best.value < n && timers[best.value].due <= target
    ensures best.Some? ==> forall j | 0 <= j < n && timers[j].due <= target ::
                timers[best.value].due < timers[j].due || (timers[best.value].due == timers[j].due && best.value <= j)
    ensures best.None? <==> forall j | 0 <= j < n :: target < timers[j].due
  {
    if n == 0 then None else
    var best := Earliest(timers, target, n - 1);
    if timers[n - 1].due > target then best
    else if best.None? || timers[n - 1].due < timers[best.value].due then Some(n - 1)
    else best
  }

  /** The timer is out of the table and the clock stands at its due time, if that is later. */
  function Taken(s: State, i: nat): State
    requires i < |s.timers|
  {
    State(if s.current < s.timers[i].due then s.timers[i].due else s.current, s.sequence, RemoveAt(s.timers, i))
  }

  function FireAt(s: State, i: nat): Outcome
    requires i < |s.timers|
  {
    Then(Outcome(Taken(s, i), [Fired(s.timers[i].handle, Taken(s, i).current)]),
         RunScript(Taken(s, i), s.timers[i].handler, s.timers[i].env))
  }

  // ---- Termination measure: the arm actions still to be run ----

  function Weight(script: Script): nat {
    match script
    case Done => 0
    case Arm(_, handler, next) => 1 + Weight(handler) + Weight(next)
    case Clear(_, next) => Weight(next)
  }

  function Load(timers: seq<Timer>): nat {
    if timers == [] then 0 else Load(timers[..|timers| - 1]) + 1 + Weight(timers[|timers| - 1].handler)
  }

  lemma {:induction false} LoadRemove(timers: seq<Timer>, i: nat)
    requires i < |timers|
    ensures Load(RemoveAt(timers, i)) == Load(timers) - 1 - Weight(timers[i].handler)
  {
    var last := |timers| - 1;
    var front := timers[..last];
    if i == last {
      assert RemoveAt(timers, i) == front;
    } else {
      assert RemoveAt(timers, i) == RemoveAt(front, i) + [timers[last]];
      assert RemoveAt(timers, i)[..last - 1] == RemoveAt(front, i);
      LoadRemove(front, i);
    }
  }

  lemma {:induction false} ScriptLoad(s: State, script: Script, env: seq<nat>)
    ensures Load(RunScript(s, script, env).state.timers) <= Load(s.timers) + Weight(script)
    decreases script
  {
    match script
    case Done =>
    case Arm(delay, handler, next) =>
      var s' := Armed1(s, delay, handler, env);
      assert s'.timers[..|s.timers|] == s.timers;
      ScriptLoad(s', next, env + [s'.sequence]);
    case Clear(slot, next) =>
      var cleared := if slot < |env| then Cleared1(s, env[slot]) else Outcome(s, []);
      if slot < |env| && Position(s.timers, env[slot]).Some? {
        LoadRemove(s.timers, Position(s.timers, env[slot]).value);
      }
      ScriptLoad(cleared.state, next, env);
  }

  /** Firing a timer always leaves less to run, whatever its handler arms. */
  lemma FireLoad(s: State, i: nat)
    requires i < |s.timers|
    ensures Load(FireAt(s, i).state.timers) < Load(s.timers)
  {
    LoadRemove(s.timers, i);
    ScriptLoad(Taken(s, i), s.timers[i].handler, s.timers[i].env);
  }

  /** Everything `advance` does up to `target`. */
  function Run(s: State, target: real): Outcome
    decreases Load(s.timers)
  {
    match Earliest(s.timers, target, |s.timers|)
    case None => Outcome(s.(current := target), [])
    case Some(i) =>
      FireLoad(s, i);
      Then(FireAt(s, i), Run(FireAt(s, i).state, target))
  }

  // ---- The invariant is kept, and time never runs backwards ----

  lemma ArmKeepsWf(s: State, delay: real, handler: Script, env: seq<nat>)
    requires Wf(s)
    ensures Wf(Armed1(s, delay, handler, env))
  {
  }

  lemma RemoveKeepsWf(s: State, i: nat)
    requires Wf(s) && i < |s.timers|
    ensures Wf(s.(timers := RemoveAt(s.timers, i)))
    ensures (forall j | 0 <= j < |s.timers| :: s.timers[i].due <= s.timers[j].due) ==> Wf(Taken(s, i))
  {
  }

  lemma {:induction false} ScriptKeepsWf(s: State, script: Script, env: seq<nat>)
    requires Wf(s)
    ensures var r := RunScript(s, script, env).state;
      Wf(r) && r.current == s.current && s.sequence <= r.sequence
    decreases script
  {
    match script
    case Done =>
    case Arm(delay, handler, next) =>
      var s' := Armed1(s, delay, handler, env);
      ArmKeepsWf(s, delay, handler, env);
      ScriptKeepsWf(s', next, env + [s'.sequence]);
    case Clear(slot, next) =>
      var cleared := if slot < |env| then Cleared1(s, env[slot]) else Outcome(s, []);
      if slot < |env| && Position(s.timers, env[slot]).Some? {
        RemoveKeepsWf(s, Position(s.timers, env[slot]).value);
      }
      ScriptKeepsWf(cleared.state, next, env);
  }

  /** Firing the earliest due timer keeps the invariant, and its handler sees `now()`
      equal to its own due time. */
  lemma FireKeepsWf(s: State, target: real)
    requires Wf(s) && Earliest(s.timers, target, |s.timers|).Some?
    ensures var i := Earliest(s.timers, target, |s.timers|).value;
      var r := FireAt(s, i);
      Wf(r.state) && r.state.current == s.timers[i].due && s.sequence <= r.state.sequence
      && |r.events| > 0 && r.events[0] == Fired(s.timers[i].handle, s.timers[i].due)
  {
    var i := Earliest(s.timers, target, |s.timers|).value;
    RemoveKeepsWf(s, i);
    ScriptKeepsWf(Taken(s, i), s.timers[i].handler, s.timers[i].env);
  }

  /** `advance` ends at the target with nothing left that was due by then. */
  lemma {:induction false} RunReachesTarget(s: State, target: real)
    requires Wf(s) && s.current <= target
    ensures var r := Run(s, target).state;
      Wf(r) && r.current == target && s.sequence <= r.sequence
      && forall i | 0 <= i < |r.timers| :: target < r.timers[i].due
    decreases Load(s.timers)
  {
    match Earliest(s.timers, target, |s.timers|)
    case None =>
    case Some(i) =>
      FireLoad(s, i);
      FireKeepsWf(s, target);
      RunReachesTarget(FireAt(s, i).state, target);
  }

  // ---- Splitting an advance ----

  lemma {:induction false} EarliestUnique(timers: seq<Timer>, target: real, i: nat)
    requires i < |timers| && timers[i].due <= target
    requires forall j | 0 <= j < |timers| && timers[j].due <= target ::
               timers[i].due < timers[j].due || (timers[i].due == timers[j].due && i <= j)
    ensures Earliest(timers, target, |timers|) == Some(i)
  {
    var best := Earliest(timers, target, |timers|);
    assert best.Some?;
    assert timers[best.value].due <= timers[i].due;
  }

  lemma ThenAssociates(a: Outcome, b: Outcome, c: Outcome)
    ensures Then(a, Then(b, c)) == Then(Then(a, b), c)
  {
    assert a.events + (b.events + c.events) == (a.events + b.events) + c.events;
  }

  lemma RunUnfolds(s: State, target: real, i: nat)
    requires Earliest(s.timers, target, |s.timers|) == Some(i)
    ensures Run(s, target) == Then(FireAt(s, i), Run(FireAt(s, i).state, target))
  {
    FireLoad(s, i);
  }

  lemma {:induction false} IdleAdvance(s: State, t1: real, t2: real)
    requires Wf(s) && s.current <= t1 <= t2
    requires Earliest(s.timers, t1, |s.timers|).None?
    ensures Run(s.(current := t1), t2) == Run(s, t2)
  {
    var s1 := s.(current := t1);
    var next := Earliest(s.timers, t2, |s.timers|);
    if next.Some? {
      FireLoad(s, next.value);
      FireLoad(s1, next.value);
      assert FireAt(s, next.value) == FireAt(s1, next.value);
    }
  }

  /** Advancing to `t1` and then to `t2` is advancing to `t2`: the same arms, clears and
      firings in the same order at the same times, and the same final state. */
  lemma {:induction false} AdvanceSplits(s: State, t1: real, t2: real)
    requires Wf(s) && s.current <= t1 <= t2
    ensures Run(s, t2) == Then(Run(s, t1), Run(Run(s, t1).state, t2))
    decreases Load(s.timers)
  {
    match Earliest(s.timers, t1, |s.timers|)
    case None =>
      IdleAdvance(s, t1, t2);
      assert [] + Run(s, t2).events == Run(s, t2).events;
    case Some(i) =>
      EarliestUnique(s.timers, t2, i);
      var fired := FireAt(s, i);
      assert Load(fired.state.timers) < Load(s.timers) && Wf(fired.state) && fired.state.current <= t1 by {
        FireLoad(s, i);
        FireKeepsWf(s, t1);
      }
      AdvanceSplits(fired.state, t1, t2);
      RunUnfolds(s, t1, i);
      RunUnfolds(s, t2, i);
      ThenAssociates(fired, Run(fired.state, t1), Run(Run(fired.state, t1).state, t2));
  }

  // ---- Firing order ----

  /** Due time first, then arming order. */
  predicate Before(due1: real, handle1: nat, due2: real, handle2: nat) {
    due1 < due2 || (due1 == due2 && handle1 < handle2)
  }

  function Firings(events: seq<Event>): seq<Event> {
    if events == [] then []
    else (if events[0].Fired? then [events[0]] else []) + Firings(events[1..])
  }

  /** Firings by due time and, among equals, by arming order, all after the floor given. */
  predicate Ascending(firings: seq<Event>, due: real, handle: nat, target: real) {
    firings != [] ==>
      && firings[0].Fired?
      && Before(due, handle, firings[0].at, firings[0].handle)
      && firings[0].at <= target
      && Ascending(firings[1..], firings[0].at, firings[0].handle, target)
  }

  /** The same as a statement about any two firings. */
  lemma {:induction false} AscendingPairs(firings: seq<Event>, due: real, handle: nat, target: real)
    requires Ascending(firings, due, handle, target)
    ensures forall k | 0 <= k < |firings| ::
              firings[k].Fired? && due <= firings[k].at <= target
              && Before(due, handle, firings[k].at, firings[k].handle)
    ensures forall j, k | 0 <= j < k < |firings| ::
              Before(firings[j].at, firings[j].handle, firings[k].at, firings[k].handle)
  {
    if firings != [] {
      var rest := firings[1..];
      AscendingPairs(rest, firings[0].at, firings[0].handle, target);
      assert forall k | 1 <= k < |firings| :: firings[k] == rest[k - 1];
    }
  }

  lemma FiringsNext(e: Event, rest: seq<Event>)
    ensures Firings([e] + rest) == (if e.Fired? then [e] else []) + Firings(rest)
  {
    assert ([e] + rest)[1..] == rest;
  }

  lemma {:induction false} FiringsOfConcat(a: seq<Event>, b: seq<Event>)
    ensures Firings(a + b) == Firings(a) + Firings(b)
  {
    if a == [] {
      assert a + b == b;
    } else {
      var rest := a[1..];
      assert a == [a[0]] + rest && a + b == [a[0]] + (rest + b);
      FiringsNext(a[0], rest);
      FiringsNext(a[0], rest + b);
      FiringsOfConcat(rest, b);
    }
  }

  lemma {:induction false} ScriptFiresNothing(s: State, script: Script, env: seq<nat>)
    ensures Firings(RunScript(s, script, env).events) == []
    decreases script
  {
    match script
    case Done =>
    case Arm(delay, handler, next) =>
      var s' := Armed1(s, delay, handler, env);
      ScriptFiresNothing(s', next, env + [s'.sequence]);
      FiringsOfConcat([Event.Armed(s'.sequence, s.current + Delay(delay))],
                      RunScript(s', next, env + [s'.sequence]).events);
    case Clear(slot, next) =>
      var cleared := if slot < |env| then Cleared1(s, env[slot]) else Outcome(s, []);
      ScriptFiresNothing(cleared.state, next, env);
      FiringsOfConcat(cleared.events, RunScript(cleared.state, next, env).events);
  }

  /** Everything pending comes after the floor, and so will anything armed from now on. */
  ghost predicate Past(s: State, due: real, handle: nat) {
    && due <= s.current && handle <= s.sequence
    && forall i | 0 <= i < |s.timers| :: Before(due, handle, s.timers[i].due, s.timers[i].handle)
  }

  lemma {:induction false} ScriptKeepsPast(s: State, script: Script, env: seq<nat>, due: real, handle: nat)
    requires Past(s, due, handle)
    ensures Past(RunScript(s, script, env).state, due, handle)
    decreases script
  {
    match script
    case Done =>
    case Arm(delay, handler, next) =>
      var s' := Armed1(s, delay, handler, env);
      ScriptKeepsPast(s', next, env + [s'.sequence], due, handle);
    case Clear(slot, next) =>
      var cleared := if slot < |env| then Cleared1(s, env[slot]) else Outcome(s, []);
      ScriptKeepsPast(cleared.state, next, env, due, handle);
  }

  lemma TakenIsPast(s: State, target: real)
    requires Wf(s) && Earliest(s.timers, target, |s.timers|).Some?
    ensures var i := Earliest(s.timers, target, |s.timers|).value;
      Taken(s, i).current == s.timers[i].due && Past(Taken(s, i), s.timers[i].due, s.timers[i].handle)
  {
  }

  lemma FireOrder(s: State, target: real)
    requires Wf(s) && s.current <= target && Earliest(s.timers, target, |s.timers|).Some?
    ensures var i := Earliest(s.timers, target, |s.timers|).value;
      var fired := FireAt(s, i);
      && Wf(fired.state) && fired.state.current <= target && Load(fired.state.timers) < Load(s.timers)
      && Past(fired.state, s.timers[i].due, s.timers[i].handle)
      && Firings(fired.events) == [Fired(s.timers[i].handle, s.timers[i].due)]
  {
    var i := Earliest(s.timers, target, |s.timers|).value;
    var t := s.timers[i];
    FireLoad(s, i);
    FireKeepsWf(s, target);
    TakenIsPast(s, target);
    ScriptFiresNothing(Taken(s, i), t.handler, t.env);
    ScriptKeepsPast(Taken(s, i), t.handler, t.env, t.due, t.handle);
    FiringsOfConcat([Fired(t.handle, t.due)], RunScript(Taken(s, i), t.handler, t.env).events);
  }

  lemma {:induction false} RunOrderFrom(s: State, target: real, due: real, handle: nat, events: seq<Event>)
    requires Wf(s) && s.current <= target && Past(s, due, handle) && events == Run(s, target).events
    ensures Ascending(Firings(events), due, handle, target)
    decreases Load(s.timers)
  {
    match Earliest(s.timers, target, |s.timers|)
    case None =>
    case Some(i) =>
      var t := s.timers[i];
      var fired := FireAt(s, i);
      assert Before(due, handle, t.due, t.handle);
      FireOrder(s, target);
      var rest := Run(fired.state, target).events;
      RunOrderFrom(fired.state, target, t.due, t.handle, rest);
      RunUnfolds(s, target, i);
      FiringsOfConcat(fired.events, rest);
      assert Firings(events) == [Fired(t.handle, t.due)] + Firings(rest);
      assert Firings(events)[1..] == Firings(rest);
  }

  /** Timers fire by due time and, among equals, by arming order, each at its own due time;
      none fires before the clock's time or after the target. */
  lemma RunFiresInOrder(s: State, target: real)
    requires Wf(s) && s.current <= target
    ensures var firings := Firings(Run(s, target).events);
      && (forall k | 0 <= k < |firings| :: firings[k].Fired? && s.current <= firings[k].at <= target)
      && (forall j, k | 0 <= j < k < |firings| ::
            Before(firings[j].at, firings[j].handle, firings[k].at, firings[k].handle))
  {
    var events := Run(s, target).events;
    RunOrderFrom(s, target, s.current, 0, events);
    AscendingPairs(Firings(events), s.current, 0, target);
  }

  // ---- Accounting: nothing is lost, nothing fires twice, cleared timers never fire ----

  ghost function Pending(timers: seq<Timer>): multiset<nat> {
    if timers == [] then multiset{} else Pending(timers[..|timers| - 1]) + multiset{timers[|timers| - 1].handle}
  }

  ghost function ArmedIn(events: seq<Event>): multiset<nat> {
    if events == [] then multiset{}
    else (if events[0].Armed? then multiset{events[0].handle} else multiset{}) + ArmedIn(events[1..])
  }

  ghost function FiredIn(events: seq<Event>): multiset<nat> {
    if events == [] then multiset{}
    else (if events[0].Fired? then multiset{events[0].handle} else multiset{}) + FiredIn(events[1..])
  }

  ghost function ClearedIn(events: seq<Event>): multiset<nat> {
    if events == [] then multiset{}
    else (if events[0].Cleared? then multiset{events[0].handle} else multiset{}) + ClearedIn(events[1..])
  }

  lemma EventsOfOne(e: Event)
    ensures ArmedIn([e]) == if e.Armed? then multiset{e.handle} else multiset{}
    ensures FiredIn([e]) == if e.Fired? then multiset{e.handle} else multiset{}
    ensures ClearedIn([e]) == if e.Cleared? then multiset{e.handle} else multiset{}
  {
    assert [e][1..] == [];
  }

  lemma EventsNext(e: Event, rest: seq<Event>)
    ensures ArmedIn([e] + rest) == (if e.Armed? then multiset{e.handle} else multiset{}) + ArmedIn(rest)
    ensures FiredIn([e] + rest) == (if e.Fired? then multiset{e.handle} else multiset{}) + FiredIn(rest)
    ensures ClearedIn([e] + rest) == (if e.Cleared? then multiset{e.handle} else multiset{}) + ClearedIn(rest)
  {
    assert ([e] + rest)[1..] == rest;
  }

  lemma {:induction false} EventsOfConcat(a: seq<Event>, b: seq<Event>)
    ensures ArmedIn(a + b) == ArmedIn(a) + ArmedIn(b)
    ensures FiredIn(a + b) == FiredIn(a) + FiredIn(b)
    ensures ClearedIn(a + b) == ClearedIn(a) + ClearedIn(b)
  {
    if a == [] {
      assert a + b == b;
    } else {
      var rest := a[1..];
      assert a == [a[0]] + rest && a + b == [a[0]] + (rest + b);
      EventsNext(a[0], rest);
      EventsNext(a[0], rest + b);
      EventsOfConcat(rest, b);
    }
  }

  lemma PendingAppend(timers: seq<Timer>, t: Timer)
    ensures Pending(timers + [t]) == Pending(timers) + multiset{t.handle}
  {
    assert (timers + [t])[..|timers|] == timers;
  }

  lemma {:induction false} PendingRemove(timers: seq<Timer>, i: nat)
    requires i < |timers|
    ensures Pending(RemoveAt(timers, i)) + multiset{timers[i].handle} == Pending(timers)
  {
    var last := |timers| - 1;
    var front := timers[..last];
    if i == last {
      assert RemoveAt(timers, i) == front;
    } else {
      assert RemoveAt(timers, i) == RemoveAt(front, i) + [timers[last]];
      PendingAppend(RemoveAt(front, i), timers[last]);
      PendingRemove(front, i);
    }
  }

  lemma {:induction false} PendingAtMostOnce(timers: seq<Timer>, handle: nat)
    requires forall i, j | 0 <= i < j < |timers| :: timers[i].handle < timers[j].handle
    ensures Pending(timers)[handle] <= 1
    ensures handle in Pending(timers) ==> exists i :: 0 <= i < |timers| && timers[i].handle == handle
  {
    if timers != [] {
      var last := |timers| - 1;
      PendingAtMostOnce(timers[..last], handle);
      if handle in Pending(timers[..last]) {
        var i :| 0 <= i < last && timers[..last][i].handle == handle;
        assert timers[i].handle == handle;
      }
    }
  }

  /** `events` accounts for every handle between two states. */
  ghost predicate Balanced(s: State, r: Outcome) {
    && s.sequence <= r.state.sequence
    && (forall h: nat :: BalancedAt(s, r, h))
  }

  ghost predicate BalancedAt(s: State, r: Outcome, h: nat) {
    && Pending(r.state.timers)[h] + FiredIn(r.events)[h] + ClearedIn(r.events)[h]
       == Pending(s.timers)[h] + ArmedIn(r.events)[h]
    && ArmedIn(r.events)[h] == if s.sequence < h <= r.state.sequence then 1 else 0
  }

  lemma BalancedTrans(s: State, a: Outcome, b: Outcome)
    requires Balanced(s, a) && Balanced(a.state, b)
    ensures Balanced(s, Then(a, b))
  {
    EventsOfConcat(a.events, b.events);
    forall h: nat ensures BalancedAt(s, Then(a, b), h) {
      assert BalancedAt(s, a, h) && BalancedAt(a.state, b, h);
    }
  }

  lemma ArmBalances(s: State, delay: real, handler: Script, env: seq<nat>)
    ensures var s' := Armed1(s, delay, handler, env);
      Balanced(s, Outcome(s', [Event.Armed(s'.sequence, s.current + Delay(delay))]))
  {
    var s' := Armed1(s, delay, handler, env);
    assert s'.timers[..|s.timers|] == s.timers;
    EventsOfOne(Event.Armed(s'.sequence, s.current + Delay(delay)));
    assert Pending(s'.timers) == Pending(s.timers) + multiset{s'.sequence};
  }

  lemma ClearBalances(s: State, handle: nat)
    ensures Balanced(s, Cleared1(s, handle))
  {
    var found := Position(s.timers, handle);
    if found.Some? {
      PendingRemove(s.timers, found.value);
      EventsOfOne(Event.Cleared(handle));
    }
  }

  lemma FireBalances(s: State, i: nat)
    requires i < |s.timers|
    ensures Balanced(s, FireAt(s, i))
  {
    var t := s.timers[i];
    var taken := Outcome(Taken(s, i), [Fired(t.handle, Taken(s, i).current)]);
    PendingRemove(s.timers, i);
    EventsOfOne(Fired(t.handle, Taken(s, i).current));
    assert Balanced(s, taken);
    ScriptBalances(Taken(s, i), t.handler, t.env, RunScript(Taken(s, i), t.handler, t.env));
    BalancedTrans(s, taken, RunScript(Taken(s, i), t.handler, t.env));
  }

  lemma {:induction false} ScriptBalances(s: State, script: Script, env: seq<nat>, r: Outcome)
    requires r == RunScript(s, script, env)
    ensures Balanced(s, r)
    decreases script
  {
    match script
    case Done =>
    case Arm(delay, handler, next) =>
      var s' := Armed1(s, delay, handler, env);
      var armed := Outcome(s', [Event.Armed(s'.sequence, s.current + Delay(delay))]);
      var rest := RunScript(s', next, env + [s'.sequence]);
      assert r == Then(armed, rest);
      ArmBalances(s, delay, handler, env);
      ScriptBalances(s', next, env + [s'.sequence], rest);
      BalancedTrans(s, armed, rest);
    case Clear(slot, next) =>
      var cleared := if slot < |env| then Cleared1(s, env[slot]) else Outcome(s, []);
      if slot < |env| { ClearBalances(s, env[slot]); }
      var rest := RunScript(cleared.state, next, env);
      ScriptBalances(cleared.state, next, env, rest);
      BalancedTrans(s, cleared, rest);
      assert r == Then(cleared, rest);
  }

  /** Pending, fired and cleared timers together are exactly the ones pending before
      plus the ones armed on the way, each once. */
  lemma {:induction false} RunBalances(s: State, target: real)
    ensures Balanced(s, Run(s, target))
    decreases Load(s.timers)
  {
    match Earliest(s.timers, target, |s.timers|)
    case None =>
    case Some(i) =>
      FireLoad(s, i);
      FireBalances(s, i);
      RunBalances(FireAt(s, i).state, target);
      RunUnfolds(s, target, i);
      BalancedTrans(s, FireAt(s, i), Run(FireAt(s, i).state, target));
  }

  /** A handle fires at most once; one that was cleared, before or during the advance,
      does not fire; one that neither fired nor was cleared is still pending. */
  lemma EachTimerOnce(s: State, target: real, handle: nat)
    requires Wf(s) && s.current <= target
    ensures var r := Run(s, target);
      && FiredIn(r.events)[handle] + ClearedIn(r.events)[handle] <= 1
      && (handle <= s.sequence && Pending(s.timers)[handle] == 0 ==>
            FiredIn(r.events)[handle] == 0 && Pending(r.state.timers)[handle] == 0)
      && (handle in ClearedIn(r.events) ==> handle !in FiredIn(r.events) && handle !in Pending(r.state.timers))
      && (1 <= handle <= r.state.sequence && (handle > s.sequence || handle in Pending(s.timers)) ==>
            (handle in Pending(r.state.timers) <==> handle !in FiredIn(r.events) && handle !in ClearedIn(r.events)))
  {
    RunBalances(s, target);
    assert BalancedAt(s, Run(s, target), handle);
    PendingAtMostOnce(s.timers, handle);
  }

  // ---- The object itself ----

  /** What advancing to `target` leaves behind. */
  ghost predicate Ends(s: State, target: real, r: Outcome) {
    r == Run(s, target)
  }

  class Clock {
    var current: real
    var sequence: nat
    var timers: seq<Timer>

    ghost function Value(): State
      reads this
    {
      State(current, sequence, timers)
    }

    constructor (start: real)
      ensures Value() == State(start, 0, []) && Wf(Value())
    {
      current, sequence, timers := start, 0, [];
    }

    method Now() returns (now: real)
      ensures now == current
    {
      now := current;
    }

    method SetTimeout(handler: Script, milliseconds: real, env: seq<nat>) returns (handle: nat)
      modifies this
      ensures Value() == Armed1(old(Value()), milliseconds, handler, env) && handle == sequence
    {
      sequence := sequence + 1;
      timers := timers + [Timer(sequence, current + Delay(milliseconds), handler, env + [sequence])];
      handle := sequence;
    }

    method ClearTimeout(handle: nat) returns (ghost events: seq<Event>)
      modifies this
      ensures Outcome(Value(), events) == Cleared1(old(Value()), handle)
    {
      var found := Position(timers, handle);
      events := [];
      if found.Some? {
        timers := RemoveAt(timers, found.value);
        events := [Event.Cleared(handle)];
      }
    }

    /** Run one handler: the arms and clears it makes, in order. */
    method Handle(script: Script, env: seq<nat>) returns (ghost events: seq<Event>)
      modifies this
      ensures Outcome(Value(), events) == RunScript(old(Value()), script, env)
      decreases script
    {
      events := [];
      match script
      case Done =>
      case Arm(delay, handler, next) =>
        ghost var before := Value();
        var handle := SetTimeout(handler, delay, env);
        ghost var armed := [Event.Armed(handle, current + Delay(delay))];
        assert RunScript(before, script, env)
            == Then(Outcome(Value(), armed), RunScript(Value(), next, env + [handle]));
        events := Handle(next, env + [handle]);
        events := armed + events;
      case Clear(slot, next) =>
        ghost var before := Value();
        ghost var cleared: seq<Event> := [];
        if slot < |env| {
          cleared := ClearTimeout(env[slot]);
        }
        assert RunScript(before, script, env) == Then(Outcome(Value(), cleared), RunScript(Value(), next, env));
        events := Handle(next, env);
        events := cleared + events;
    }

    /** The scan of the table for the timer to run next. */
    method Next(target: real) returns (next: Option<nat>)
      ensures next == Earliest(timers, target, |timers|)
    {
      next := None;
      for i := 0 to |timers|
        invariant next == Earliest(timers, target, i)
      {
        if timers[i].due <= target && (next.None? || timers[i].due < timers[next.value].due) {
          next := Some(i);
        }
      }
    }

    /** The loop of `advance`: fire what is due, earliest first, until nothing is, and leave the clock
        at the target. */
    method FireDue(target: real) returns (ghost events: seq<Event>)
      modifies this
      ensures Ends(old(Value()), target, Outcome(Value(), events))
    {
      events := [];
      ghost var whole := Run(Value(), target);
      while true
        invariant whole == Then(Outcome(Value(), events), Run(Value(), target))
        decreases Load(timers)
      {
        var next := Next(target);
        if next.None? {
          assert events + [] == events;
          current := target;
          return;
        }
        ghost var before, sofar := Value(), events;
        FireLoad(before, next.value);
        RunUnfolds(before, target, next.value);
        var timer := timers[next.value];
        timers := RemoveAt(timers, next.value);
        current := if current < timer.due then timer.due else current;
        events := [Fired(timer.handle, current)];
        ghost var ran := Handle(timer.handler, timer.env);
        events := events + ran;
        ThenAssociates(Outcome(before, sofar), Outcome(Value(), events), Run(Value(), target));
        events := sofar + events;
      }
    }

    /** `advance`: refuses a time that is not finite or runs backwards and changes nothing;
        otherwise does exactly what `Run` says. */
    method Advance(milliseconds: Milliseconds) returns (moved: bool, ghost events: seq<Event>)
      modifies this
      ensures moved == (milliseconds.Finite? && milliseconds.value >= 0.0)
      ensures !moved ==> Value() == old(Value()) && events == []
      ensures moved ==> Ends(old(Value()), old(current) + milliseconds.value, Outcome(Value(), events))
    {
      moved := milliseconds.Finite? && milliseconds.value >= 0.0;
      events := [];
      if moved {
        events := FireDue(current + milliseconds.value);
      }
    }
  }
}
