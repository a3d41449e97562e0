/** Terminal activity indicators (`src/terminalActivityStore.ts`): what a session shows, and when to look
    again. */
module ActivityStore {
  import opened Common

  type Time = real

  datatype Shown = Viewed | Recent | Unviewed | Attention

  datatype Record = Record(
    lastActivityAt: Option<Time>,
    lastUserInputAt: Option<Time>,
    needsAcknowledgement: bool,
    suppressUntil: Option<Time>,
    hasSignal: bool,
    claimed: bool,
    signalWorking: bool,
    attentionPending: bool)

  const FRESH := Record(None, None, false, None, false, false, false, false)

  /** Delays are made nonnegative when they are configured. */
  datatype Config = Config(amber: Time, green: Time, suppression: Time, detection: bool)

  datatype Status = Working | Idle

  datatype Signal = Signal(claimed: bool, status: Status, attention: bool)

  datatype Evaluation = Evaluation(nextDeadline: Option<Time>, state: Shown)

  function Max(a: Time, b: Time): Time {
    if a < b then b else a
  }

  predicate Proper(c: Config) {
    c.amber >= 0.0 && c.green >= 0.0 && c.suppression >= 0.0
  }

  // ---- Evaluation ----

  function EvaluateOutput(c: Config, r: Record, now: Time): Evaluation {
    if !r.needsAcknowledgement || r.lastActivityAt == None then Evaluation(None, Viewed)
    else
      var amberAt := r.lastActivityAt.value + c.amber;
      var greenAt := r.lastActivityAt.value + Max(c.amber, c.green);
      if now < amberAt then Evaluation(Some(amberAt), Viewed)
      else if now < greenAt then Evaluation(Some(greenAt), Recent)
      else Evaluation(None, Unviewed)
  }

  predicate SignalsActive(c: Config, r: Record) {
    c.detection && r.hasSignal
  }

  function Evaluate(c: Config, r: Record, now: Time): Evaluation {
    if SignalsActive(c, r) && r.attentionPending then Evaluation(None, Attention)
    else if SignalsActive(c, r) && r.claimed then
      Evaluation(None, if r.signalWorking then Recent else if r.needsAcknowledgement then Unviewed else Viewed)
    else
      var output := EvaluateOutput(c, r, now);
      if SignalsActive(c, r) && r.signalWorking && output.state == Viewed then Evaluation(None, Recent) else output
  }

  // ---- Events ----

  predicate HasRecentInput(c: Config, r: Record, now: Time) {
    r.lastUserInputAt.Some? && now - r.lastUserInputAt.value < c.green
  }

  function AfterViewed(r: Record): Record {
    r.(needsAcknowledgement := false, attentionPending := false)
  }

  function AfterInitialSuppression(c: Config, r: Record, now: Time): Record {
    r.(lastUserInputAt := Some(now), needsAcknowledgement := false, suppressUntil := Some(now + c.green))
  }

  function AfterSuppression(c: Config, r: Record, now: Time): Record {
    r.(suppressUntil := Some(Max(if r.suppressUntil.Some? then r.suppressUntil.value else 0.0, now + c.suppression)))
  }

  function AfterOutput(c: Config, r: Record, now: Time): Record {
    if SignalsActive(c, r) && r.claimed then r
    else if r.suppressUntil.Some? && now < r.suppressUntil.value then r
    else
      r.(suppressUntil := None, lastActivityAt := Some(now), needsAcknowledgement := !HasRecentInput(c, r, now))
  }

  function AfterSignal(c: Config, r: Record, signal: Signal, focused: bool, now: Time): Record {
    var recentInput := HasRecentInput(c, r, now);
    var finished := r.signalWorking && signal.status == Idle && !recentInput && !focused;
    var seen := focused && signal.status != Working;
    r.(hasSignal := true, claimed := signal.claimed, signalWorking := signal.status == Working,
       needsAcknowledgement := !seen && (finished || r.needsAcknowledgement),
       attentionPending := !focused && ((signal.attention && !recentInput) || r.attentionPending))
  }

  function AfterInput(r: Record, now: Time): Record {
    r.(lastUserInputAt := Some(now), needsAcknowledgement := false, attentionPending := false)
  }

  // ---- Deadlines ----

  /** From now until the deadline, or for ever without one, the state stays. */
  ghost predicate DeadlineIsSound(c: Config, r: Record, now: Time) {
    var e := Evaluate(c, r, now);
    forall t :: now <= t && (e.nextDeadline.Some? ==> t < e.nextDeadline.value) ==> Evaluate(c, r, t).state == e.state
  }

  /** Output is waiting to turn amber behind a working signal of an unclaimed session. */
  predicate HiddenAmber(c: Config, r: Record, now: Time) {
    && SignalsActive(c, r) && !r.attentionPending && !r.claimed && r.signalWorking
    && r.needsAcknowledgement && r.lastActivityAt.Some? && now < r.lastActivityAt.value + c.amber
  }

  /** A deadline lies ahead and the state does change at it; and the state stays until then, exactly unless
      a working signal hides output that has yet to turn amber. */
  lemma DeadlineExactly(c: Config, r: Record, now: Time)
    ensures var e := Evaluate(c, r, now);
      e.nextDeadline.Some? ==>
        now < e.nextDeadline.value && Evaluate(c, r, e.nextDeadline.value).state != e.state
    ensures DeadlineIsSound(c, r, now) <==> !HiddenAmber(c, r, now)
  {
    if HiddenAmber(c, r, now) {
      var t := r.lastActivityAt.value + Max(c.amber, c.green);
      assert now <= t && Evaluate(c, r, now) == Evaluation(None, Recent) && Evaluate(c, r, t).state == Unviewed;
    }
  }

  // ---- Histories ----

  datatype Event =
    | View(at: Time)
    | InitialSuppression(at: Time)
    | Suppress(at: Time)
    | Output(at: Time)
    | Signalled(signal: Signal, focused: bool, at: Time)
    | Input(at: Time)

  function After(c: Config, r: Record, e: Event): Record {
    match e
    case View(_) => AfterViewed(r)
    case InitialSuppression(at) => AfterInitialSuppression(c, r, at)
    case Suppress(at) => AfterSuppression(c, r, at)
    case Output(at) => AfterOutput(c, r, at)
    case Signalled(signal, focused, at) => AfterSignal(c, r, signal, focused, at)
    case Input(at) => AfterInput(r, at)
  }

  function Run(c: Config, r: Record, events: seq<Event>): Record
    decreases |events|
  {
    if events == [] then r else Run(c, After(c, r, events[0]), events[1..])
  }

  /** Times do not run backwards. */
  predicate InOrder(events: seq<Event>, from: Time)
    decreases |events|
  {
    events == [] || (from <= events[0].at && InOrder(events[1..], events[0].at))
  }

  function LastTime(events: seq<Event>, from: Time): Time
    decreases |events|
  {
    if events == [] then from else LastTime(events[1..], events[0].at)
  }

  lemma {:induction false} ActivityIsPast(c: Config, r: Record, events: seq<Event>, from: Time)
    requires InOrder(events, from) && (r.lastActivityAt.Some? ==> r.lastActivityAt.value <= from)
    ensures var t := Run(c, r, events);
      t.lastActivityAt.Some? ==> t.lastActivityAt.value <= LastTime(events, from)
    decreases |events|
  {
    if events != [] {
      ActivityIsPast(c, After(c, r, events[0]), events[1..], events[0].at);
    }
  }

  /** Without an amber delay, which is the default, every history leaves sound deadlines. */
  lemma NoAmberDelayIsSound(c: Config, events: seq<Event>, from: Time, now: Time)
    requires c.amber == 0.0 && InOrder(events, from) && LastTime(events, from) <= now
    ensures DeadlineIsSound(c, Run(c, FRESH, events), now)
  {
    ActivityIsPast(c, FRESH, events, from);
    DeadlineExactly(c, Run(c, FRESH, events), now);
  }

  lemma OneEvent(e: Event, from: Time)
    ensures InOrder([e], from) <==> from <= e.at
    ensures LastTime([e], from) == e.at
  {
    var rest := [e][1..];
    assert rest == [];
    assert LastTime(rest, e.at) == e.at && InOrder(rest, e.at);
  }

  /** With any amber delay, a working signal and some output leave one that is not. */
  lemma AmberDelayCanMislead(c: Config, at: Time)
    requires Proper(c) && c.amber > 0.0 && c.detection
    ensures exists events :: InOrder(events, at) && LastTime(events, at) == at
                             && !DeadlineIsSound(c, Run(c, FRESH, events), at)
  {
    var signal := Signalled(Signal(false, Working, false), false, at);
    var events := [signal, Output(at)];
    var r1 := After(c, FRESH, signal);
    var r2 := After(c, r1, Output(at));
    assert events[1..] == [Output(at)] && [Output(at)][1..] == [];
    assert Run(c, r1, [Output(at)]) == Run(c, r2, []) == r2;
    assert Run(c, FRESH, events) == r2;
    var rest := [Output(at)];
    assert rest[0].at == at && rest[1..] == [] && events[1..] == rest;
    OneEvent(Output(at), at);
    assert InOrder(events, at) && LastTime(events, at) == at;
    assert HiddenAmber(c, r2, at);
    DeadlineExactly(c, r2, at);
  }

  // ---- Viewing, output and focus ----

  predicate Asks(s: Shown) {
    s == Attention || s == Unviewed
  }

  predicate OfTheUser(e: Event) {
    !e.Output? && !e.Signalled?
  }

  /** After a session is viewed it asks for nothing, at any time and whatever the user does, until there is
      output or a signal again. */
  lemma {:induction false} ViewedStaysQuiet(c: Config, r: Record, events: seq<Event>, t: Time)
    requires forall k :: 0 <= k < |events| ==> OfTheUser(events[k])
    requires !r.needsAcknowledgement && !r.attentionPending
    ensures !Asks(Evaluate(c, Run(c, r, events), t).state)
    decreases |events|
  {
    if events != [] {
      assert OfTheUser(events[0]);
      ViewedStaysQuiet(c, After(c, r, events[0]), events[1..], t);
    }
  }

  function WithoutOutput(events: seq<Event>): seq<Event>
    decreases |events|
  {
    if events == [] then []
    else if events[0].Output? then WithoutOutput(events[1..])
    else [events[0]] + WithoutOutput(events[1..])
  }

  lemma RunOne(c: Config, r: Record, e: Event, rest: seq<Event>)
    ensures Run(c, r, [e] + rest) == Run(c, After(c, r, e), rest)
  {
    assert ([e] + rest)[1..] == rest;
  }

  predicate KeepsClaim(e: Event) {
    e.Signalled? ==> e.signal.claimed
  }

  /** Raw output is as if it never came, in any history of a session that a signal has claimed and
      that no later signal gives up. */
  lemma {:induction false} OutputIsIgnoredWhenClaimed(c: Config, r: Record, events: seq<Event>)
    requires SignalsActive(c, r) && r.claimed && forall k :: 0 <= k < |events| ==> KeepsClaim(events[k])
    ensures Run(c, r, events) == Run(c, r, WithoutOutput(events))
    decreases |events|
  {
    if events != [] {
      assert KeepsClaim(events[0]);
      OutputIsIgnoredWhenClaimed(c, After(c, r, events[0]), events[1..]);
      RunOne(c, r, events[0], WithoutOutput(events[1..]));
    }
  }

  /** Output comes before the limit, and no first attachment sets an earlier limit. */
  predicate KeepsSuppression(c: Config, e: Event, limit: Time) {
    (e.Output? ==> e.at < limit) && (e.InitialSuppression? ==> e.at + c.green >= limit)
  }

  lemma {:induction false} OutputIsIgnoredBefore(c: Config, r: Record, events: seq<Event>, limit: Time)
    requires r.suppressUntil.Some? && r.suppressUntil.value >= limit
    requires forall k :: 0 <= k < |events| ==> KeepsSuppression(c, events[k], limit)
    ensures Run(c, r, events) == Run(c, r, WithoutOutput(events))
    decreases |events|
  {
    if events != [] {
      assert KeepsSuppression(c, events[0], limit);
      OutputIsIgnoredBefore(c, After(c, r, events[0]), events[1..], limit);
      RunOne(c, r, events[0], WithoutOutput(events[1..]));
    }
  }

  /** After a tab switch raw output is as if it never came for the length of the suppression, whatever
      else happens, further switches included. */
  lemma OutputIsIgnoredAfterSwitch(c: Config, r: Record, switched: Time, events: seq<Event>)
    requires forall k :: 0 <= k < |events| ==> KeepsSuppression(c, events[k], switched + c.suppression)
    ensures Run(c, r, [Suppress(switched)] + events) == Run(c, r, [Suppress(switched)] + WithoutOutput(events))
  {
    RunOne(c, r, Suppress(switched), events);
    RunOne(c, r, Suppress(switched), WithoutOutput(events));
    OutputIsIgnoredBefore(c, AfterSuppression(c, r, switched), events, switched + c.suppression);
  }

  /** A signal to a focused session never leaves it asking for attention, and leaves it unviewed exactly when the
      session is working, nobody claims it or signals are off, and earlier output has had its time. */
  lemma FocusedSignalExactly(c: Config, r: Record, signal: Signal, now: Time, t: Time)
    requires Proper(c)
    ensures var state := Evaluate(c, AfterSignal(c, r, signal, true, now), t).state;
      && state != Attention
      && (state == Unviewed <==>
            && signal.status == Working && r.needsAcknowledgement && (c.detection ==> !signal.claimed)
            && r.lastActivityAt.Some? && t >= r.lastActivityAt.value + Max(c.amber, c.green))
  {
  }

  /** That case from the start: some output, then a working signal while the user looks on; once the
      output has had its time the session shows as unviewed. */
  lemma FocusedWorkCanShowUnviewed(c: Config, at: Time, t: Time)
    requires Proper(c) && t >= at + Max(c.amber, c.green)
    ensures var events := [Output(at), Signalled(Signal(false, Working, false), true, at)];
      InOrder(events, at) && Evaluate(c, Run(c, FRESH, events), t).state == Unviewed
  {
    var signal := Signalled(Signal(false, Working, false), true, at);
    var r := After(c, FRESH, Output(at));
    OneEvent(signal, at);
    assert [Output(at), signal][1..] == [signal] && [signal][1..] == [];
    assert Run(c, r, [signal]) == Run(c, After(c, r, signal), []);
    FocusedSignalExactly(c, r, signal.signal, at, t);
  }

  // ---- The store ----

  function NormalizeMs(value: Option<Time>, fallback: Time): Time {
    if value.Some? then Max(0.0, value.value) else fallback
  }

  class TerminalActivityStore {
    var records: map<string, Record>
    var config: Config

    /** What is known of a session; nothing yet, if it was never mentioned. */
    function Of(session: string): Record
      reads this
    {
      if session in records then records[session] else FRESH
    }

    /** One session moved and the others did not. */
    twostate predicate Moved(session: string, to: Record)
      reads this
    {
      && config == old(config) && Of(session) == to
      && forall other :: other != session ==> Of(other) == old(Of(other))
    }

    constructor (amber: Option<Time>, green: Option<Time>, suppression: Option<Time>)
      ensures records == map[] && Proper(config) && config.detection
      ensures config
              == Config(NormalizeMs(amber, 0.0), NormalizeMs(green, 1000.0), NormalizeMs(suppression, 1000.0), true)
    {
      records := map[];
      config := Config(NormalizeMs(amber, 0.0), NormalizeMs(green, 1000.0), NormalizeMs(suppression, 1000.0), true);
    }

    method Configure(amber: Option<Time>, green: Option<Time>, suppression: Option<Time>, detection: Option<bool>)
      modifies this`config
      ensures Proper(config)
      ensures config == Config(NormalizeMs(amber, 0.0), NormalizeMs(green, 1000.0), NormalizeMs(suppression, 1000.0),
                               if detection.Some? then detection.value else old(config.detection))
    {
      config := Config(NormalizeMs(amber, 0.0), NormalizeMs(green, 1000.0), NormalizeMs(suppression, 1000.0),
                       if detection.Some? then detection.value else config.detection);
    }

    method DeleteSession(session: string)
      modifies this`records
      ensures Moved(session, FRESH)
    {
      records := records - {session};
    }

    method Look(session: string, now: Time) returns (e: Evaluation)
      modifies this`records
      ensures Moved(session, old(Of(session))) && e == Evaluate(config, Of(session), now)
    {
      var record := GetRecord(session);
      e := Evaluate(config, record, now);
    }

    method MarkViewed(session: string, now: Time) returns (e: Evaluation)
      modifies this`records
      ensures Moved(session, After(config, old(Of(session)), View(now))) && e == Evaluate(config, Of(session), now)
    {
      var record := GetRecord(session);
      record := record.(needsAcknowledgement := false);
      record := record.(attentionPending := false);
      records := records[session := record];
      e := Evaluate(config, record, now);
    }

    method RecordInitialSuppression(session: string, now: Time) returns (e: Evaluation)
      modifies this`records
      ensures Moved(session, After(config, old(Of(session)), InitialSuppression(now)))
      ensures e == Evaluate(config, Of(session), now)
    {
      var record := GetRecord(session);
      record := record.(lastUserInputAt := Some(now));
      record := record.(needsAcknowledgement := false);
      record := record.(suppressUntil := Some(now + config.green));
      records := records[session := record];
      e := Evaluate(config, record, now);
    }

    method SuppressTerminalActivity(session: string, now: Time) returns (e: Evaluation)
      modifies this`records
      ensures Moved(session, After(config, old(Of(session)), Suppress(now))) && e == Evaluate(config, Of(session), now)
    {
      var record := GetRecord(session);
      var until := if record.suppressUntil.Some? then record.suppressUntil.value else 0.0;
      record := record.(suppressUntil := Some(Max(until, now + config.suppression)));
      records := records[session := record];
      e := Evaluate(config, record, now);
    }

    method RecordTerminalActivity(session: string, now: Time) returns (e: Evaluation)
      modifies this`records
      ensures Moved(session, After(config, old(Of(session)), Output(now))) && e == Evaluate(config, Of(session), now)
    {
      var record := GetRecord(session);
      if config.detection && record.hasSignal && record.claimed {
        return Evaluate(config, record, now);
      }
      if record.suppressUntil.Some? && now < record.suppressUntil.value {
        return Evaluate(config, record, now);
      }
      if record.suppressUntil.Some? {
        record := record.(suppressUntil := None);
      }
      record := record.(lastActivityAt := Some(now));
      if HasRecentInput(config, record, now) {
        record := record.(needsAcknowledgement := false);
        records := records[session := record];
        return Evaluate(config, record, now);
      }
      record := record.(needsAcknowledgement := true);
      records := records[session := record];
      e := Evaluate(config, record, now);
    }

    method RecordActivitySignal(session: string, signal: Signal, now: Time, focused: bool) returns (e: Evaluation)
      modifies this`records
      ensures Moved(session, After(config, old(Of(session)), Signalled(signal, focused, now)))
      ensures e == Evaluate(config, Of(session), now)
    {
      var record := GetRecord(session);
      record := record.(hasSignal := true, claimed := signal.claimed);
      var wasWorking := record.signalWorking;
      record := record.(signalWorking := signal.status == Working);
      var recentInput := HasRecentInput(config, record, now);
      if wasWorking && signal.status == Idle && !recentInput && !focused {
        record := record.(needsAcknowledgement := true);
      }
      if focused {
        record := record.(attentionPending := false);
        if signal.status != Working {
          record := record.(needsAcknowledgement := false);
        }
      } else if signal.attention && !recentInput {
        record := record.(attentionPending := true);
      }
      records := records[session := record];
      e := Evaluate(config, record, now);
    }

    method RecordUserInput(session: string, now: Time) returns (e: Evaluation)
      modifies this`records
      ensures Moved(session, After(config, old(Of(session)), Input(now))) && e == Evaluate(config, Of(session), now)
    {
      var record := GetRecord(session);
      record := record.(lastUserInputAt := Some(now));
      record := record.(needsAcknowledgement := false, attentionPending := false);
      records := records[session := record];
      e := Evaluate(config, record, now);
    }

    method GetRecord(session: string) returns (record: Record)
      modifies this`records
      ensures session in records && records[session] == record == old(Of(session))
      ensures Moved(session, old(Of(session)))
    {
      if session !in records {
        records := records[session := FRESH];
      }
      record := records[session];
    }
  }
}
