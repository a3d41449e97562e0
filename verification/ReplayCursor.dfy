/** Seeking and playing in `src/recordingReplay.ts`: `advanceReplayCursor`,
    `findReplayCheckpoint` and `restoreReplayCursor`. */
module ReplayCursor {
  import opened Common
  import opened ReplayTerminal
  import opened ReplayRecording
  import opened ReplayIndex
  import opened ReplayCheckpoints

  /** A replay in progress: the terminal, the time of the last event applied, and every event
      still to come, whether already read or not. */
  datatype Playback = Playback(terminal: Terminal, time: real, remaining: seq<Event>)

  function ApplyNext(m: Model, p: Playback): Playback
    requires p.remaining != []
  {
    Playback(Apply(m, p.terminal, p.remaining[0].payload), p.remaining[0].time, p.remaining[1..])
  }

  /** Apply the events that are due at `target`. */
  function Advance(m: Model, p: Playback, target: real): Playback
    decreases |p.remaining|
  {
    if p.remaining == [] || p.remaining[0].time > target then p else Advance(m, ApplyNext(m, p), target)
  }

  lemma NothingDue(m: Model, p: Playback, target: real)
    requires p.remaining == [] || p.remaining[0].time > target
    ensures Advance(m, p, target) == p
  {
  }

  /** Advancing in two steps is advancing once. */
  lemma {:induction false} AdvanceComposes(m: Model, p: Playback, t1: real, t2: real)
    requires t1 <= t2
    ensures Advance(m, Advance(m, p, t1), t2) == Advance(m, p, t2)
    decreases |p.remaining|
  {
    if p.remaining != [] && p.remaining[0].time <= t1 {
      AdvanceComposes(m, ApplyNext(m, p), t1, t2);
    }
  }

  function ApplyAll(m: Model, p: Playback, n: nat): Playback
    requires n <= |p.remaining|
    decreases n
  {
    if n == 0 then p else ApplyAll(m, ApplyNext(m, p), n - 1)
  }

  /** Each event due is applied exactly once and in order: the result is that of applying
      the first `n` remaining events one by one, and when times rise these are exactly the
      events with time at most the target. */
  lemma {:induction false} AdvanceAppliesTheDue(m: Model, p: Playback, target: real) returns (n: nat)
    ensures n <= |p.remaining| && Advance(m, p, target) == ApplyAll(m, p, n)
    ensures Advance(m, p, target).remaining == p.remaining[n..]
    ensures forall i | 0 <= i < n :: p.remaining[i].time <= target
    ensures n < |p.remaining| ==> p.remaining[n].time > target
    ensures (forall i, j | 0 <= i < j < |p.remaining| :: p.remaining[i].time <= p.remaining[j].time) ==>
              forall i | 0 <= i < |p.remaining| :: p.remaining[i].time <= target <==> i < n
    decreases |p.remaining|
  {
    if p.remaining == [] || p.remaining[0].time > target {
      n := 0;
    } else {
      var q := ApplyNext(m, p);
      var k := AdvanceAppliesTheDue(m, q, target);
      n := k + 1;
      assert forall i | 1 <= i < |p.remaining| :: p.remaining[i] == q.remaining[i - 1];
    }
  }

  // ---- The cursor ----

  class Cursor {
    var eof: bool
    var nextOffset: int
    var parseTime: real
    var pendingEvents: seq<Event>
    var time: real
    ghost var line: nat           // lines of the recording read so far

    ghost predicate At(recording: Recording)
      reads this
    {
      && line <= |recording.lines|
      && (eof ==> line == |recording.lines|)
      && (!eof ==> nextOffset == Offset(recording.lines, line))
    }

    ghost function Playing(recording: Recording, terminal: Terminal): Playback
      reads this
      requires At(recording)
    {
      Playback(terminal, time, Remaining(recording))
    }

    /** Events read but not applied, then events not read yet. */
    ghost function Remaining(recording: Recording): seq<Event>
      reads this
      requires At(recording)
    {
      pendingEvents + Events(recording.lines[line..], parseTime)
    }

    constructor (checkpoint: Checkpoint, ghost line: nat)
      ensures !eof && nextOffset == checkpoint.nextOffset && pendingEvents == []
      ensures parseTime == time == checkpoint.time && this.line == line
    {
      eof, nextOffset, pendingEvents := false, checkpoint.nextOffset, [];
      parseTime, time := checkpoint.time, checkpoint.time;
      this.line := line;
    }

    /** Parse the entries of a chunk into pending events. */
    method Enqueue(lines: seq<Line>)
      modifies this`parseTime, this`pendingEvents
      ensures parseTime == TimeAfter(lines, old(parseTime))
      ensures pendingEvents == old(pendingEvents) + Events(lines, old(parseTime))
    {
      assert lines[..0] == [];
      for i := 0 to |lines|
        invariant parseTime == TimeAfter(lines[..i], old(parseTime))
        invariant pendingEvents == old(pendingEvents) + Events(lines[..i], old(parseTime))
      {
        EventsSnoc(lines, i, old(parseTime));
        var event := ParseEvent(lines[i], parseTime);
        if event.Some? {
          parseTime := event.value.time;
          pendingEvents := pendingEvents + [event.value];
        }
      }
      assert lines[..|lines|] == lines;
    }

    /** Apply the pending events that are due; yields whether one that is not due stopped it. */
    method PlayPending(terminal: PlaybackTerminal, target: real, ghost recording: Recording, ghost result: Playback)
      returns (ahead: bool)
      requires At(recording) && Advance(terminal.model, Playing(recording, terminal.state), target) == result
      modifies this`pendingEvents, this`time, terminal
      ensures At(recording) && Advance(terminal.model, Playing(recording, terminal.state), target) == result
      ensures ahead || eof ==> Playing(recording, terminal.state) == result
      ensures !ahead ==> pendingEvents == []
    {
      while pendingEvents != []
        invariant At(recording) && Advance(terminal.model, Playing(recording, terminal.state), target) == result
        decreases |pendingEvents|
      {
        var event := pendingEvents[0];
        if event.time > target {
          NothingDue(terminal.model, Playing(recording, terminal.state), target);
          return true;
        }
        ghost var before := Playing(recording, terminal.state);
        pendingEvents := pendingEvents[1..];
        terminal.ApplyEvent(event.payload);
        time := event.time;
        assert Playing(recording, terminal.state) == ApplyNext(terminal.model, before);
      }
      if eof {
        assert recording.lines[line..] == [];
        NothingDue(terminal.model, Playing(recording, terminal.state), target);
      }
      return false;
    }

    /** Read the next chunk; fails when the reader is stuck in the middle. */
    method ReadMore(reader: Reader, ghost recording: Recording) returns (stuck: bool)
      requires At(recording) && !eof && Obeys(reader, recording)
      modifies this`eof, this`nextOffset, this`parseTime, this`pendingEvents, this`line
      ensures At(recording) && Remaining(recording) == old(Remaining(recording))
      ensures stuck ==> StallsSomewhere(reader, recording)
      ensures !stuck ==> eof || line > old(line)
    {
      var chunk := reader(nextOffset);
      assert chunk == ReadAt(reader, recording, line);
      ChunkProgress(chunk, recording, line);
      if chunk.nextOffset < nextOffset || (!chunk.eof && chunk.nextOffset == nextOffset) {
        if chunk.incompleteTail {
          eof := true;
          return false;
        }
        return true;
      }
      ChunkEvents(chunk, recording, line, pendingEvents, parseTime);
      nextOffset, eof := chunk.nextOffset, chunk.eof;
      Enqueue(chunk.content);
      line := line + |chunk.content|;
      return false;
    }
  }

  lemma ChunkEvents(chunk: Chunk, recording: Recording, line: nat, pending: seq<Event>, time: real)
    requires line <= |recording.lines| && ChunkAt(chunk, recording, line)
    ensures pending + Events(recording.lines[line..], time)
         == (pending + Events(chunk.content, time))
            + Events(recording.lines[line + |chunk.content|..], TimeAfter(chunk.content, time))
  {
    var rest := recording.lines[line + |chunk.content|..];
    assert recording.lines[line..] == chunk.content + rest;
    EventsConcat(chunk.content, rest, time);
  }

  /** `advanceReplayCursor`. The result does not depend on how the reader cuts the recording. */
  method AdvanceReplayCursor(cursor: Cursor, target: real, terminal: PlaybackTerminal, reader: Reader,
                             ghost recording: Recording) returns (r: Result<(), ReplayError>)
    requires cursor.At(recording) && Obeys(reader, recording)
    modifies cursor, terminal
    ensures cursor.At(recording)
    ensures r.Ok? ==>
              cursor.Playing(recording, terminal.state)
              == old(Advance(terminal.model, cursor.Playing(recording, terminal.state), target))
    ensures r.Err? ==> StallsSomewhere(reader, recording)
  {
    ghost var result := Advance(terminal.model, cursor.Playing(recording, terminal.state), target);
    while true
      invariant cursor.At(recording)
      invariant Advance(terminal.model, cursor.Playing(recording, terminal.state), target) == result
      decreases |recording.lines| - cursor.line + (if cursor.eof then 0 else 1)
    {
      var ahead := cursor.PlayPending(terminal, target, recording, result);
      if ahead || cursor.eof { return Ok(()); }
      var stuck := cursor.ReadMore(reader, recording);
      if stuck { return Err(NoProgress); }
    }
  }

  // ---- Seeking ----

  function Bound(target: real, duration: real): real {
    var low := if target < duration then target else duration;
    if low < 0.0 then 0.0 else low
  }

  /** The checkpoint before the first one that is too late, or the first of all when that one is. */
  predicate LastInTime(checkpoints: seq<Checkpoint>, bound: real, i: nat)
    requires i < |checkpoints|
  {
    if checkpoints[0].time > bound then i == 0
    else
      && (forall j | 0 <= j <= i :: checkpoints[j].time <= bound)
      && (i + 1 < |checkpoints| ==> checkpoints[i + 1].time > bound)
  }

  /** `findReplayCheckpoint`. */
  method FindReplayCheckpoint(index: Index, target: real) returns (c: Checkpoint)
    requires index.checkpoints != []
    ensures exists i :: 0 <= i < |index.checkpoints| && c == index.checkpoints[i]
                        && LastInTime(index.checkpoints, Bound(target, index.duration), i)
  {
    var bounded := Bound(target, index.duration);
    c := index.checkpoints[0];
    ghost var i := 0;
    for n := 0 to |index.checkpoints|
      invariant i == (if n == 0 then 0 else n - 1) && i < |index.checkpoints| && c == index.checkpoints[i]
      invariant forall j | 0 <= j < n :: index.checkpoints[j].time <= bounded
    {
      if index.checkpoints[n].time > bounded { break; }
      c, i := index.checkpoints[n], n;
    }
    assert LastInTime(index.checkpoints, bounded, i);
  }

  /** The recording at its beginning: a blank terminal and every event to come. */
  function FromHeader(m: Model, recording: Recording): Playback
    requires HasHeader(recording)
  {
    Playback(m.blank(HeaderCols(recording), HeaderRows(recording)), 0.0, Events(Body(recording), 0.0))
  }

  /** Two replays nobody can tell apart. */
  ghost predicate Same(m: Model, p: Playback, q: Playback) {
    m.view(p.terminal) == m.view(q.terminal) && p.time == q.time && p.remaining == q.remaining
  }

  lemma {:induction false} AdvanceKeepsSame(m: Model, p: Playback, q: Playback, target: real)
    requires Lossless(m) && Same(m, p, q)
    ensures Same(m, Advance(m, p, target), Advance(m, q, target))
    decreases |p.remaining|
  {
    if p.remaining != [] && p.remaining[0].time <= target {
      QueueIsApply(m, p.terminal, p.remaining[0].payload);
      QueueIsApply(m, q.terminal, p.remaining[0].payload);
      AdvanceKeepsSame(m, ApplyNext(m, p), ApplyNext(m, q), target);
    }
  }

  lemma {:induction false} SeeAllCons(m: Model, v: Screen, e: Event, rest: seq<Event>)
    ensures SeeAll(m, v, [e] + rest) == SeeAll(m, See(m, v, e.payload), rest)
  {
    var all := [e] + rest;
    if rest == [] {
      assert all[..0] == [];
    } else {
      var n := |rest| - 1;
      SeeAllCons(m, v, e, rest[..n]);
      assert all[..|all| - 1] == [e] + rest[..n];
    }
  }

  /** Advancing past a run of due events leaves what seeing them all leaves. */
  lemma {:induction false} AdvancePast(m: Model, p: Playback, done: seq<Event>, rest: seq<Event>, target: real)
    returns (q: Playback)
    requires Lossless(m) && p.remaining == done + rest && forall i | 0 <= i < |done| :: done[i].time <= target
    ensures Advance(m, p, target) == Advance(m, q, target)
    ensures q.remaining == rest && q.time == if done == [] then p.time else done[|done| - 1].time
    ensures m.view(q.terminal) == SeeAll(m, m.view(p.terminal), done)
    decreases |done|
  {
    if done == [] {
      q := p;
      assert p.remaining == rest;
    } else {
      var next := ApplyNext(m, p);
      assert next.remaining == done[1..] + rest;
      q := AdvancePast(m, next, done[1..], rest, target);
      QueueIsApply(m, p.terminal, done[0].payload);
      SeeAllCons(m, m.view(p.terminal), done[0], done[1..]);
      assert done == [done[0]] + done[1..];
    }
  }

  /** Restoring a faithful checkpoint and advancing shows what replaying from the header shows. */
  lemma SeekIsReplay(m: Model, recording: Recording, c: Checkpoint, k: nat, restored: Terminal, target: real)
    requires Lossless(m) && HasHeader(recording) && Faithful(m, recording, c, k)
    requires m.view(restored) == m.seenWrite(m.seenBlank(c.cols, c.rows), c.state)
    requires c.time <= target
    ensures var p := Playback(restored, c.time, Events(recording.lines[k + 1..], c.time));
      Same(m, Advance(m, p, target), Advance(m, FromHeader(m, recording), target))
  {
    var body := Body(recording);
    var done, rest := Events(body[..k], 0.0), Events(body[k..], c.time);
    assert body == body[..k] + body[k..] && recording.lines[k + 1..] == body[k..];
    EventsConcat(body[..k], body[k..], 0.0);
    EventsRise(body[..k], 0.0);
    var start := FromHeader(m, recording);
    var q := AdvancePast(m, start, done, rest, target);
    AdvanceKeepsSame(m, Playback(restored, c.time, rest), q, target);
  }

  lemma IndexSources(m: Model, recording: Recording)
    requires Lossless(m) && HasHeader(recording)
    ensures var index := IndexOf(m, recording);
      && index.checkpoints != [] && index.checkpoints[0].time == 0.0
      && 0.0 <= index.duration == TimeAfter(Body(recording), 0.0)
      && forall c | c in index.checkpoints :: Restorable(m, recording, c)
  {
    var n := |Body(recording)|;
    EveryCheckpointRestores(m, recording, n);
    CheckpointsStayBounded(m, recording, n);
    TerminalAgrees(m, recording, n);
    EventsRise(Body(recording), 0.0);
    assert Body(recording)[..n] == Body(recording);
  }

  lemma SourceOf(m: Model, recording: Recording, c: Checkpoint) returns (k: nat)
    requires HasHeader(recording) && Restorable(m, recording, c)
    ensures Faithful(m, recording, c, k)
  {
    k :| Faithful(m, recording, c, k);
  }

  /** What the terminal is after restoring a checkpoint on it. */
  function Restored(m: Model, t: Terminal, c: Checkpoint): Terminal {
    var sized := m.resize(m.reset(t), c.cols, c.rows);
    if c.state != "" then m.write(sized, c.state) else sized
  }

  lemma RestoredView(m: Model, c: Checkpoint, t: Terminal)
    requires Lossless(m)
    ensures m.view(Restored(m, t, c)) == m.seenWrite(m.seenBlank(c.cols, c.rows), c.state)
  {
  }

  /** Any restorable checkpoint that is not late serves: seeking from it is exact. */
  lemma SeekFrom(m: Model, recording: Recording, c: Checkpoint, t: Terminal, target: real) returns (k: nat)
    requires Lossless(m) && HasHeader(recording) && Restorable(m, recording, c) && c.time <= target
    ensures k <= |Body(recording)| && c.nextOffset == Offset(recording.lines, k + 1)
    ensures var p := Playback(Restored(m, t, c), c.time, Events(recording.lines[k + 1..], c.time));
      Same(m, Advance(m, p, target), Advance(m, FromHeader(m, recording), target))
  {
    k := SourceOf(m, recording, c);
    RestoredView(m, c, t);
    SeekIsReplay(m, recording, c, k, Restored(m, t, c), target);
  }

  /** `restoreReplayCursor`: seeking is exact. Whatever was thinned or skipped, the terminal
      shows, the cursor's time is and the events left are what replaying every event up to the
      clamped target from the header gives. */
  method RestoreReplayCursor(m: Model, index: Index, target: real, terminal: PlaybackTerminal,
                             reader: Reader, ghost recording: Recording)
    returns (r: Result<(), ReplayError>, cursor: Cursor)
    requires Lossless(m) && terminal.model == m
    requires HasHeader(recording) && index == IndexOf(m, recording) && Obeys(reader, recording)
    modifies terminal
    ensures fresh(cursor) && cursor.At(recording)
    ensures r.Err? ==> StallsSomewhere(reader, recording)
    ensures r.Ok? ==> Same(m, cursor.Playing(recording, terminal.state),
                           Advance(m, FromHeader(m, recording), Bound(target, index.duration)))
  {
    IndexSources(m, recording);
    var checkpoint := FindReplayCheckpoint(index, target);
    ghost var k := SeekFrom(m, recording, checkpoint, terminal.state, Bound(target, index.duration));
    terminal.Reset(checkpoint.cols, checkpoint.rows);
    if checkpoint.state != "" { terminal.Write(checkpoint.state); }
    cursor := new Cursor(checkpoint, k + 1);
    assert cursor.Remaining(recording) == Events(recording.lines[k + 1..], checkpoint.time);
    r := AdvanceReplayCursor(cursor, Bound(target, index.duration), terminal, reader, recording);
  }
}
