/** `buildReplayIndex` of `src/recordingReplay.ts`: checkpoints over a recording, thinned
    when there are too many. */
module ReplayIndex {
  import opened Common
  import opened ReplayTerminal
  import opened ReplayRecording

  const MAX_CHECKPOINTS := 32
  const MAX_CHECKPOINT_STATE_BYTES := 512 * 1024
  const INITIAL_CHECKPOINT_SECONDS := 10.0
  const INITIAL_CHECKPOINT_BYTES := 1024 * 1024

  datatype Checkpoint = Checkpoint(cols: int, rows: int, nextOffset: int, state: string, time: real)

  datatype Index = Index(
    checkpoints: seq<Checkpoint>, cols: int, rows: int,
    duration: real, malformed: nat, truncatedTail: bool)

  /** The spacing in force after some doublings. */
  function SecondsAfter(doublings: nat): real {
    if doublings == 0 then INITIAL_CHECKPOINT_SECONDS else SecondsAfter(doublings - 1) * 2.0
  }

  function BytesAfter(doublings: nat): int {
    if doublings == 0 then INITIAL_CHECKPOINT_BYTES else BytesAfter(doublings - 1) * 2
  }

  /** The index under construction, after some body lines and with every queued write
      processed. `doublings` counts compactions and `skipped` the states too large to keep. */
  datatype Progress = Progress(
    terminal: Terminal, lineOffset: int, time: real, malformed: nat,
    nextTime: real, nextOffset: int, checkpoints: seq<Checkpoint>,
    doublings: nat, skipped: nat)

  /** Every other element, the first included: `compactCheckpoints` on a full list. */
  function Evens<X>(s: seq<X>): (r: seq<X>)
    ensures |r| == (|s| + 1) / 2
    ensures forall i | 0 <= i < |r| :: r[i] == s[2 * i]
  {
    if |s| < 2 then s else [s[0]] + Evens(s[2..])
  }

  function Compact(checkpoints: seq<Checkpoint>): seq<Checkpoint> {
    if |checkpoints| < MAX_CHECKPOINTS then checkpoints else Evens(checkpoints)
  }

  function Begin(m: Model, recording: Recording): Progress
    requires HasHeader(recording)
  {
    var cols, rows := HeaderCols(recording), HeaderRows(recording);
    var offset := Bytes(recording.lines[0]);
    Progress(m.blank(cols, rows), offset, 0.0, 0,
             INITIAL_CHECKPOINT_SECONDS, offset + INITIAL_CHECKPOINT_BYTES,
             [Checkpoint(cols, rows, offset, "", 0.0)], 0, 0)
  }

  /** The checkpoint the terminal's present state makes. */
  function Present(m: Model, p: Progress): Checkpoint {
    var drained := m.write(p.terminal, "");
    Checkpoint(m.cols(drained), m.rows(drained), p.lineOffset, m.serialize(drained), p.time)
  }

  /** The checkpoint block: serialise, keep the state unless it is too large, compact a full
      list and widen the spacing, and count the spacing from here. */
  function TakeCheckpoint(m: Model, p: Progress): Progress {
    var keep := m.stateBytes(Present(m, p).state) <= MAX_CHECKPOINT_STATE_BYTES;
    var pushed := if keep then p.checkpoints + [Present(m, p)] else p.checkpoints;
    var doublings := if |pushed| >= MAX_CHECKPOINTS then p.doublings + 1 else p.doublings;
    p.(terminal := m.write(p.terminal, ""), checkpoints := Compact(pushed), doublings := doublings,
       skipped := if keep then p.skipped else p.skipped + 1,
       nextTime := p.time + SecondsAfter(doublings), nextOffset := p.lineOffset + BytesAfter(doublings))
  }

  /** An event has been read and queued; `p` stands just after its line. */
  predicate Triggers(p: Progress) {
    p.time >= p.nextTime || p.lineOffset >= p.nextOffset
  }

  /** An event has been parsed from `line`: time and offset move and the terminal is fed. */
  function ReadEvent(m: Model, p: Progress, line: Line): Progress
    requires line.text.Record?
  {
    p.(lineOffset := p.lineOffset + Bytes(line), time := TimeOfLine(line, p.time),
       terminal := Queue(m, p.terminal, line.text.payload))
  }

  function ReadLine(m: Model, p: Progress, line: Line): Progress {
    match line.text
    case Blank => p.(lineOffset := p.lineOffset + Bytes(line))
    case Malformed => p.(lineOffset := p.lineOffset + Bytes(line), malformed := p.malformed + 1)
    case Header(_, _) => p.(lineOffset := p.lineOffset + Bytes(line), malformed := p.malformed + 1)
    case Record(_, _) =>
      var q := ReadEvent(m, p, line);
      if Triggers(q) then TakeCheckpoint(m, q) else q
  }

  /** The progress after the first `k` body lines. */
  function After(m: Model, recording: Recording, k: nat): Progress
    requires HasHeader(recording) && k <= |Body(recording)|
  {
    if k == 0 then Begin(m, recording) else ReadLine(m, After(m, recording, k - 1), Body(recording)[k - 1])
  }

  function IndexOf(m: Model, recording: Recording): Index
    requires HasHeader(recording)
  {
    var p := After(m, recording, |Body(recording)|);
    Index(p.checkpoints, HeaderCols(recording), HeaderRows(recording), p.time, p.malformed, recording.partialTail)
  }

  // ---- The loop, with a terminal that is not awaited, refines the function ----

  /** The local variables of `buildReplayIndex`; `doublings` and `skipped` only count. */
  class Builder {
    const model: Model
    const terminal: BufferedTerminal
    var lineOffset: int
    var time: real
    var malformed: nat
    var seconds: real
    var bytes: int
    var nextTime: real
    var nextCheckpointOffset: int
    var checkpoints: seq<Checkpoint>
    ghost var doublings: nat
    ghost var skipped: nat

    ghost predicate Valid()
      reads this
    {
      terminal.model == model && seconds == SecondsAfter(doublings) && bytes == BytesAfter(doublings)
    }

    ghost function Value(): Progress
      reads this, terminal
    {
      Progress(terminal.Settled(), lineOffset, time, malformed, nextTime, nextCheckpointOffset, checkpoints,
               doublings, skipped)
    }

    /** The first `k` lines of the body are indexed. */
    ghost predicate Indexed(recording: Recording, k: nat)
      requires HasHeader(recording) && k <= |Body(recording)|
      reads this, terminal
    {
      Valid() && Value() == After(model, recording, k)
    }

    constructor (m: Model, schedule: nat -> nat, first: Line, ghost recording: Recording)
      requires HasHeader(recording) && first == recording.lines[0]
      ensures Valid() && fresh(this) && fresh(terminal)
      ensures model == m && Value() == Begin(m, recording)
    {
      var cols, rows := ClampCols(first.text.cols), ClampRows(first.text.rows);
      model := m;
      terminal := new BufferedTerminal(m, schedule, cols, rows);
      lineOffset, time, malformed := Bytes(first), 0.0, 0;
      seconds, bytes := INITIAL_CHECKPOINT_SECONDS, INITIAL_CHECKPOINT_BYTES;
      nextTime, nextCheckpointOffset := INITIAL_CHECKPOINT_SECONDS, Bytes(first) + INITIAL_CHECKPOINT_BYTES;
      checkpoints := [Checkpoint(cols, rows, Bytes(first), "", 0.0)];
      doublings, skipped := 0, 0;
    }

    /** Keep the state just serialised, or skip it when it is too large. */
    method Push(state: string)
      requires Valid()
      modifies this`checkpoints, this`skipped
      ensures Valid()
      ensures var cols, rows := model.cols(terminal.applied), model.rows(terminal.applied);
        var point := Checkpoint(cols, rows, lineOffset, state, time);
        if model.stateBytes(state) <= MAX_CHECKPOINT_STATE_BYTES
        then checkpoints == old(checkpoints) + [point] && skipped == old(skipped)
        else checkpoints == old(checkpoints) && skipped == old(skipped) + 1
    {
      if model.stateBytes(state) <= MAX_CHECKPOINT_STATE_BYTES {
        checkpoints := checkpoints +
          [Checkpoint(model.cols(terminal.applied), model.rows(terminal.applied), lineOffset, state, time)];
      } else {
        skipped := skipped + 1;
      }
    }

    /** Drop every other checkpoint once there are too many, and take half as many from now on. */
    method Thin()
      requires Valid()
      modifies this`checkpoints, this`seconds, this`bytes, this`doublings
      ensures Valid() && checkpoints == Compact(old(checkpoints))
      ensures doublings == if |old(checkpoints)| >= MAX_CHECKPOINTS then old(doublings) + 1 else old(doublings)
    {
      if |checkpoints| >= MAX_CHECKPOINTS {
        checkpoints := Compact(checkpoints);
        seconds := seconds * 2.0;
        bytes := bytes * 2;
        doublings := doublings + 1;
      }
    }

    /** Wait for the queue, serialise, keep or skip, compact. */
    method TakeOne()
      requires Valid()
      modifies this, terminal
      ensures Valid() && Value() == TakeCheckpoint(model, old(Value()))
    {
      terminal.WriteAndWait("");
      Push(model.serialize(terminal.applied));
      Thin();
      nextTime := time + seconds;
      nextCheckpointOffset := lineOffset + bytes;
    }

    /** One turn of the loop over the entries of a chunk. */
    method ReadEntry(line: Line)
      requires Valid()
      modifies this, terminal
      ensures Valid() && Value() == ReadLine(model, old(Value()), line)
    {
      lineOffset := lineOffset + Bytes(line);
      if line.text.Blank? { return; }
      var event := ParseEvent(line, time);
      if event.None? {
        malformed := malformed + 1;
        return;
      }
      time := event.value.time;
      terminal.QueueEvent(event.value.payload);
      if time >= nextTime || lineOffset >= nextCheckpointOffset {
        TakeOne();
      }
    }

    method ReadEntries(lines: seq<Line>, ghost recording: Recording, ghost k: nat)
      requires HasHeader(recording) && BodySlice(recording, k, lines) && Indexed(recording, k)
      modifies this, terminal
      ensures Indexed(recording, k + |lines|)
    {
      for i := 0 to |lines|
        invariant Indexed(recording, k + i)
      {
        assert lines[i] == Body(recording)[k + i];
        ReadEntry(lines[i]);
      }
    }

    /** Move to the start of the next chunk. */
    method SetOffset(start: int)
      requires start == lineOffset
      modifies this
      ensures Value() == old(Value()) && (old(Valid()) ==> Valid())
    {
      lineOffset := start;
    }
  }

  lemma {:induction false} OffsetAfter(m: Model, recording: Recording, k: nat)
    requires HasHeader(recording) && k <= |Body(recording)|
    ensures After(m, recording, k).lineOffset == Offset(recording.lines, k + 1)
  {
    if k > 0 {
      OffsetAfter(m, recording, k - 1);
    }
  }

  /** Everything up to line `at` has been indexed or is in `chunk`, which was read there. */
  ghost predicate Reading(chunk: Chunk, at: nat, reader: Reader, recording: Recording) {
    && at <= |recording.lines|
    && chunk == ReadAt(reader, recording, at)
    && ChunkAt(chunk, recording, at)
  }

  /** Read the chunk after this one. */
  method ReadNext(builder: Builder, chunk: Chunk, ghost at: nat, ghost k: nat,
                  reader: Reader, ghost recording: Recording)
    returns (next: Chunk, ghost at': nat)
    requires HasHeader(recording) && Obeys(reader, recording)
    requires Reading(chunk, at, reader, recording) && !chunk.eof && chunk.content != []
    requires k + 1 == at + |chunk.content| && k <= |Body(recording)| && builder.Indexed(recording, k)
    modifies builder
    ensures builder.Indexed(recording, k)
    ensures at < at' == k + 1 && Reading(next, at', reader, recording) && BodySlice(recording, k, next.content)
  {
    OffsetAfter(builder.model, recording, k);
    NextChunk(chunk, reader, recording, at);
    at' := at + |chunk.content|;
    next := reader(chunk.nextOffset);
    builder.SetOffset(next.start);
  }

  /** The outer loop: read chunks until one is the last. Yields whether a tail was withheld. */
  method ReadChunks(builder: Builder, first: Chunk, body: seq<Line>, reader: Reader, ghost recording: Recording)
    returns (ended: Result<bool, ReplayError>)
    requires HasHeader(recording) && Obeys(reader, recording) && builder.Indexed(recording, 0)
    requires Reading(first, 0, reader, recording) && |first.content| == |body| + 1 && BodySlice(recording, 0, body)
    modifies builder, builder.terminal
    ensures ended.Err? ==> StallsSomewhere(reader, recording)
    ensures ended.Ok? ==> ended.value == recording.partialTail
    ensures ended.Ok? ==> builder.Indexed(recording, |Body(recording)|)
  {
    var chunk, lines := first, body;
    ghost var at: nat, k: nat := 0, 0;
    while true
      invariant BodySlice(recording, k, lines) && k + |lines| + 1 == at + |chunk.content|
      invariant k <= |Body(recording)| && builder.Indexed(recording, k)
      invariant Reading(chunk, at, reader, recording)
      decreases |recording.lines| - at
    {
      builder.ReadEntries(lines, recording, k);
      k := k + |lines|;
      ChunkProgress(chunk, recording, at);
      if chunk.eof { return Ok(chunk.incompleteTail); }
      if chunk.nextOffset <= chunk.start {
        if chunk.incompleteTail { return Ok(true); }
        return Err(NoProgress);
      }
      chunk, at := ReadNext(builder, chunk, at, k, reader, recording);
      lines := chunk.content;
    }
  }

  /** `buildReplayIndex`. Whatever the terminal's write schedule and however the reader cuts
      the recording up, the index is the same. */
  method BuildReplayIndex(m: Model, schedule: nat -> nat, reader: Reader, ghost recording: Recording)
    returns (r: Result<Index, ReplayError>)
    requires Obeys(reader, recording)
    ensures r == Err(NoHeader) <==> reader(0).content == []
    ensures r == Err(MalformedHeader) <==> reader(0).content != [] && !HasHeader(recording)
    ensures r == Err(NoProgress) ==> StallsSomewhere(reader, recording)
    ensures r.Ok? ==> HasHeader(recording) && r.value == IndexOf(m, recording)
  {
    var chunk := reader(0);
    assert chunk == ReadAt(reader, recording, 0);
    if chunk.content == [] { return Err(NoHeader); }
    var first := chunk.content[0];
    assert first == recording.lines[0];
    if !first.text.Header? { return Err(MalformedHeader); }
    var builder := new Builder(m, schedule, first, recording);
    assert chunk.content[1..] == Body(recording)[0..|chunk.content| - 1];
    var ended := ReadChunks(builder, chunk, chunk.content[1..], reader, recording);
    if ended.Err? { return Err(NoProgress); }
    return Ok(Index(builder.checkpoints, ClampCols(first.text.cols), ClampRows(first.text.rows),
                    builder.time, builder.malformed, ended.value));
  }
}
