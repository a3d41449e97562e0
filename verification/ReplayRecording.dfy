/** Recordings as `src/recordingReplay.ts` reads them: parsed lines with their byte lengths,
    the events they hold, and readers that hand them out in chunks. */
module ReplayRecording {
  import opened Common
  import opened ReplayTerminal

  datatype Text =
    | Blank                                                   // empty, or starting with '#'
    | Malformed
    | Header(cols: Option<real>, rows: Option<real>)          // an asciicast v3 header object
    | Record(interval: real, payload: Payload)

  /** One complete line; its bytes are the content and the line break. */
  datatype Line = Line(contentBytes: nat, text: Text)

  datatype Event = Event(payload: Payload, time: real)

  /** The complete lines of a recording, and whether an incomplete one follows. */
  datatype Recording = Recording(lines: seq<Line>, partialTail: bool)

  datatype ReplayError = NoHeader | MalformedHeader | NoProgress

  function Bytes(line: Line): nat {
    line.contentBytes + 1
  }

  /** The byte offset at which line `k` starts. */
  function Offset(lines: seq<Line>, k: nat): nat
    requires k <= |lines|
  {
    if k == 0 then 0 else Offset(lines, k - 1) + Bytes(lines[k - 1])
  }

  lemma {:induction false} OffsetGrows(lines: seq<Line>, j: nat, k: nat)
    requires j <= k <= |lines|
    ensures Offset(lines, j) + (k - j) <= Offset(lines, k)
    decreases k
  {
    if j < k { OffsetGrows(lines, j, k - 1); }
  }

  // ---- Events ----

  function TimeOfLine(line: Line, time: real): real {
    if line.text.Record? && line.text.interval > 0.0 then time + line.text.interval else time
  }

  /** `parseEvent`: nothing for a line that is not a record. */
  function ParseEvent(line: Line, time: real): Option<Event> {
    if line.text.Record? then Some(Event(line.text.payload, TimeOfLine(line, time))) else None
  }

  function TimeAfter(lines: seq<Line>, time: real): real {
    if lines == [] then time
    else TimeOfLine(lines[|lines| - 1], TimeAfter(lines[..|lines| - 1], time))
  }

  function Events(lines: seq<Line>, time: real): seq<Event> {
    if lines == [] then []
    else
      var before := lines[..|lines| - 1];
      var last := ParseEvent(lines[|lines| - 1], TimeAfter(before, time));
      Events(before, time) + (if last.Some? then [last.value] else [])
  }

  lemma EventsSnoc(lines: seq<Line>, k: nat, time: real)
    requires k < |lines|
    ensures TimeAfter(lines[..k + 1], time) == TimeOfLine(lines[k], TimeAfter(lines[..k], time))
    ensures var last := ParseEvent(lines[k], TimeAfter(lines[..k], time));
      Events(lines[..k + 1], time) == Events(lines[..k], time) + (if last.Some? then [last.value] else [])
  {
    assert lines[..k + 1][..k] == lines[..k];
  }

  lemma {:induction false} EventsConcat(a: seq<Line>, b: seq<Line>, time: real)
    ensures TimeAfter(a + b, time) == TimeAfter(b, TimeAfter(a, time))
    ensures Events(a + b, time) == Events(a, time) + Events(b, TimeAfter(a, time))
  {
    if b == [] {
      assert a + b == a;
    } else {
      var n := |b| - 1;
      EventsConcat(a, b[..n], time);
      assert (a + b)[..|a + b| - 1] == a + b[..n];
      assert (a + b)[|a + b| - 1] == b[n];
      var last := ParseEvent(b[n], TimeAfter(b[..n], TimeAfter(a, time)));
      var tail := if last.Some? then [last.value] else [];
      assert (Events(a, time) + Events(b[..n], TimeAfter(a, time))) + tail
          == Events(a, time) + (Events(b[..n], TimeAfter(a, time)) + tail);
    }
  }

  ghost predicate Rising(events: seq<Event>, low: real, high: real) {
    && low <= high
    && (forall i | 0 <= i < |events| :: low <= events[i].time <= high)
    && (forall i, j | 0 <= i < j < |events| :: events[i].time <= events[j].time)
  }

  /** Event times never fall, and the last one is the time reached. */
  lemma {:induction false} EventsRise(lines: seq<Line>, time: real)
    ensures Rising(Events(lines, time), time, TimeAfter(lines, time))
    ensures TimeAfter(lines, time) ==
            if Events(lines, time) == [] then time else Events(lines, time)[|Events(lines, time)| - 1].time
  {
    if lines != [] { EventsRise(lines[..|lines| - 1], time); }
  }

  // ---- Readers ----

  datatype Chunk = Chunk(start: int, content: seq<Line>, nextOffset: int, eof: bool, incompleteTail: bool)

  type Reader = nat -> Chunk

  /** What a chunk read at line `k` may be: whole lines from there, continuing at the byte
      after them. The last chunk leaves no complete line behind. A reader that is not at the
      end and delivers nothing either waits for the unfinished last line or has failed. */
  ghost predicate ChunkAt(chunk: Chunk, recording: Recording, k: nat)
    requires k <= |recording.lines|
  {
    var m := k + |chunk.content|;
    && m <= |recording.lines|
    && chunk.start == Offset(recording.lines, k)
    && chunk.content == recording.lines[k..m]
    && (chunk.eof ==> m == |recording.lines| && chunk.start <= chunk.nextOffset
                      && chunk.incompleteTail == recording.partialTail)
    && (!chunk.eof ==> chunk.nextOffset == Offset(recording.lines, m))
    && (!chunk.eof && m == k && chunk.incompleteTail ==> m == |recording.lines| && recording.partialTail)
  }

  /** The chunk a reader gives at line `k`. */
  function ReadAt(reader: Reader, recording: Recording, k: nat): Chunk
    requires k <= |recording.lines|
  {
    reader(Offset(recording.lines, k))
  }

  ghost predicate Obeys(reader: Reader, recording: Recording) {
    forall k: nat {:trigger ReadAt(reader, recording, k)} | k <= |recording.lines| ::
      ChunkAt(ReadAt(reader, recording, k), recording, k)
  }

  /** The reader delivers nothing, is not at the end and withholds no partial line. */
  predicate Stalls(chunk: Chunk) {
    !chunk.eof && chunk.content == [] && !chunk.incompleteTail
  }

  ghost predicate StallsSomewhere(reader: Reader, recording: Recording) {
    exists k: nat {:trigger ReadAt(reader, recording, k)} ::
      k <= |recording.lines| && Stalls(ReadAt(reader, recording, k))
  }

  /** Reading goes on exactly when lines were delivered. */
  lemma ChunkProgress(chunk: Chunk, recording: Recording, k: nat)
    requires k <= |recording.lines| && ChunkAt(chunk, recording, k)
    ensures !chunk.eof ==> (chunk.nextOffset <= chunk.start <==> chunk.content == [])
    ensures !chunk.eof ==> (chunk.nextOffset == chunk.start <==> chunk.content == [])
  {
    OffsetGrows(recording.lines, k, k + |chunk.content|);
  }

  // ---- Recordings that begin with a header ----

  predicate HasHeader(recording: Recording) {
    |recording.lines| > 0 && recording.lines[0].text.Header?
  }

  function Body(recording: Recording): seq<Line>
    requires HasHeader(recording)
  {
    recording.lines[1..]
  }

  function HeaderCols(recording: Recording): int
    requires HasHeader(recording)
  {
    ClampCols(recording.lines[0].text.cols)
  }

  function HeaderRows(recording: Recording): int
    requires HasHeader(recording)
  {
    ClampRows(recording.lines[0].text.rows)
  }

  lemma {:induction false} BodyOffset(recording: Recording, k: nat)
    requires HasHeader(recording) && k <= |Body(recording)|
    ensures Offset(recording.lines, k + 1) == Bytes(recording.lines[0]) + Offset(Body(recording), k)
  {
    if k > 0 { BodyOffset(recording, k - 1); }
  }

  /** Where the next chunk of body lines starts, and what it holds. */
  lemma NextChunk(chunk: Chunk, reader: Reader, recording: Recording, k: nat)
    requires HasHeader(recording) && Obeys(reader, recording) && k <= |recording.lines|
    requires ChunkAt(chunk, recording, k) && !chunk.eof && chunk.content != []
    ensures var next := k + |chunk.content|;
      && next <= |recording.lines| && 0 <= chunk.nextOffset
      && reader(chunk.nextOffset) == ReadAt(reader, recording, next)
      && ChunkAt(ReadAt(reader, recording, next), recording, next)
      && ReadAt(reader, recording, next).start == Offset(recording.lines, next)
      && BodySlice(recording, next - 1, ReadAt(reader, recording, next).content)
  {
    var next := k + |chunk.content|;
    var content := ReadAt(reader, recording, next).content;
    assert content == Body(recording)[next - 1..next - 1 + |content|];
  }

  predicate BodySlice(recording: Recording, k: nat, lines: seq<Line>)
    requires HasHeader(recording)
  {
    k + |lines| <= |Body(recording)| && lines == Body(recording)[k..k + |lines|]
  }
}
