/** What every checkpoint of an index is worth, and how many there are and how far apart. */
module ReplayCheckpoints {
  import opened ReplayTerminal
  import opened ReplayRecording
  import opened ReplayIndex

  // ---- Every checkpoint shows what plain replay shows at its line ----

  function SeeAll(m: Model, v: Screen, events: seq<Event>): Screen {
    if events == [] then v
    else See(m, SeeAll(m, v, events[..|events| - 1]), events[|events| - 1].payload)
  }

  /** What is on screen after replaying the first `k` body lines from the header. */
  function SeenAfter(m: Model, recording: Recording, k: nat): Screen
    requires HasHeader(recording) && k <= |Body(recording)|
  {
    SeeAll(m, m.seenBlank(HeaderCols(recording), HeaderRows(recording)), Events(Body(recording)[..k], 0.0))
  }

  /** Restoring this checkpoint shows the state after `k` body lines, and reading goes on there. */
  ghost predicate Faithful(m: Model, recording: Recording, c: Checkpoint, k: nat)
    requires HasHeader(recording)
  {
    && k <= |Body(recording)|
    && c.nextOffset == Offset(recording.lines, k + 1)
    && c.time == TimeAfter(Body(recording)[..k], 0.0)
    && m.seenWrite(m.seenBlank(c.cols, c.rows), c.state) == SeenAfter(m, recording, k)
  }

  ghost predicate Restorable(m: Model, recording: Recording, c: Checkpoint)
    requires HasHeader(recording)
  {
    exists k: nat :: Faithful(m, recording, c, k)
  }

  lemma SeenNext(m: Model, recording: Recording, k: nat)
    requires HasHeader(recording) && k < |Body(recording)|
    ensures SeenAfter(m, recording, k + 1) ==
            if Body(recording)[k].text.Record? then See(m, SeenAfter(m, recording, k), Body(recording)[k].text.payload)
            else SeenAfter(m, recording, k)
  {
    EventsSnoc(Body(recording), k, 0.0);
    var before := Events(Body(recording)[..k], 0.0);
    var after := Events(Body(recording)[..k + 1], 0.0);
    if Body(recording)[k].text.Record? {
      assert after[..|after| - 1] == before;
    } else {
      assert after == before;
    }
  }

  lemma SeenAtStart(m: Model, recording: Recording)
    requires HasHeader(recording)
    ensures SeenAfter(m, recording, 0) == m.seenBlank(HeaderCols(recording), HeaderRows(recording))
    ensures TimeAfter(Body(recording)[..0], 0.0) == 0.0
  {
    assert Body(recording)[..0] == [];
  }

  /** The indexing terminal, clock and offset agree with plain replay of `k` body lines. */
  ghost predicate Agrees(m: Model, recording: Recording, p: Progress, k: nat)
    requires HasHeader(recording) && k <= |Body(recording)|
  {
    && m.view(p.terminal) == SeenAfter(m, recording, k)
    && p.time == TimeAfter(Body(recording)[..k], 0.0)
    && p.lineOffset == Offset(recording.lines, k + 1)
  }

  lemma EventAgrees(m: Model, recording: Recording, p: Progress, k: nat)
    requires Lossless(m) && HasHeader(recording) && k < |Body(recording)| && Body(recording)[k].text.Record?
    requires Agrees(m, recording, p, k)
    ensures Agrees(m, recording, ReadEvent(m, p, Body(recording)[k]), k + 1)
  {
    SeenNext(m, recording, k);
    EventsSnoc(Body(recording), k, 0.0);
    QueueIsApply(m, p.terminal, Body(recording)[k].text.payload);
  }

  lemma OtherLineAgrees(m: Model, recording: Recording, p: Progress, k: nat)
    requires HasHeader(recording) && k < |Body(recording)| && !Body(recording)[k].text.Record?
    requires Agrees(m, recording, p, k)
    ensures Agrees(m, recording, ReadLine(m, p, Body(recording)[k]), k + 1)
  {
    SeenNext(m, recording, k);
    EventsSnoc(Body(recording), k, 0.0);
  }

  lemma DrainUnseen(m: Model, t: Terminal)
    requires Lossless(m)
    ensures m.view(m.write(t, "")) == m.view(t)
  {
  }

  /** The indexing terminal, never awaited between checkpoints, shows what playback shows. */
  lemma {:induction false} TerminalAgrees(m: Model, recording: Recording, k: nat)
    requires Lossless(m) && HasHeader(recording) && k <= |Body(recording)|
    ensures Agrees(m, recording, After(m, recording, k), k)
  {
    if k == 0 {
      SeenAtStart(m, recording);
      assert m.view(Begin(m, recording).terminal) == m.seenBlank(HeaderCols(recording), HeaderRows(recording));
      assert Offset(recording.lines, 1) == Bytes(recording.lines[0]);
    } else {
      var p, line := After(m, recording, k - 1), Body(recording)[k - 1];
      TerminalAgrees(m, recording, k - 1);
      if line.text.Record? {
        EventAgrees(m, recording, p, k - 1);
        DrainUnseen(m, ReadEvent(m, p, line).terminal);
      } else {
        OtherLineAgrees(m, recording, p, k - 1);
      }
    }
  }

  lemma NewCheckpoints(m: Model, p: Progress, line: Line)
    ensures forall c | c in ReadLine(m, p, line).checkpoints ::
              c in p.checkpoints || (line.text.Record? && c == Present(m, ReadEvent(m, p, line)))
  {
    if line.text.Record? && Triggers(ReadEvent(m, p, line)) {
      var q := ReadEvent(m, p, line);
      var pushed := q.checkpoints + [Present(m, q)];
      assert forall c | c in Compact(pushed) :: c in pushed;
      assert forall c | c in Compact(q.checkpoints) :: c in q.checkpoints;
    }
  }

  lemma PresentIsFaithful(m: Model, recording: Recording, p: Progress, k: nat)
    requires Lossless(m) && HasHeader(recording) && k <= |Body(recording)|
    requires Agrees(m, recording, p, k)
    ensures Faithful(m, recording, Present(m, p), k)
  {
    DrainUnseen(m, p.terminal);
  }

  lemma {:induction false} EveryCheckpointRestores(m: Model, recording: Recording, k: nat)
    requires Lossless(m) && HasHeader(recording) && k <= |Body(recording)|
    ensures forall c | c in After(m, recording, k).checkpoints :: Restorable(m, recording, c)
  {
    if k == 0 {
      TerminalAgrees(m, recording, 0);
      var c := After(m, recording, 0).checkpoints[0];
      SeenAtStart(m, recording);
      assert c.state == "" && m.seenWrite(m.seenBlank(c.cols, c.rows), "") == m.seenBlank(c.cols, c.rows);
      assert Faithful(m, recording, c, 0);
    } else {
      var p, line := After(m, recording, k - 1), Body(recording)[k - 1];
      EveryCheckpointRestores(m, recording, k - 1);
      NewCheckpoints(m, p, line);
      if line.text.Record? {
        TerminalAgrees(m, recording, k - 1);
        EventAgrees(m, recording, p, k - 1);
        PresentIsFaithful(m, recording, ReadEvent(m, p, line), k);
      }
    }
  }

  // ---- Order and number ----

  ghost predicate Ordered(checkpoints: seq<Checkpoint>, time: real, offset: int) {
    && (forall i | 0 <= i < |checkpoints| :: checkpoints[i].time <= time && checkpoints[i].nextOffset <= offset)
    && (forall i, j | 0 <= i < j < |checkpoints| ::
          checkpoints[i].time <= checkpoints[j].time && checkpoints[i].nextOffset < checkpoints[j].nextOffset)
  }

  lemma EvensOrdered(checkpoints: seq<Checkpoint>, time: real, offset: int)
    requires Ordered(checkpoints, time, offset)
    ensures Ordered(Compact(checkpoints), time, offset)
  {
  }

  lemma TakeKeepsOrder(m: Model, p: Progress, before: int)
    requires Ordered(p.checkpoints, p.time, before) && before < p.lineOffset
    requires 1 <= |p.checkpoints| < MAX_CHECKPOINTS
    ensures var q := TakeCheckpoint(m, p);
      && Ordered(q.checkpoints, p.time, p.lineOffset)
      && 1 <= |q.checkpoints| < MAX_CHECKPOINTS && q.checkpoints[0] == p.checkpoints[0]
  {
    assert Ordered(p.checkpoints + [Present(m, p)], p.time, p.lineOffset);
    EvensOrdered(p.checkpoints + [Present(m, p)], p.time, p.lineOffset);
    EvensOrdered(p.checkpoints, p.time, p.lineOffset);
  }

  ghost predicate Bounded(p: Progress, first: Checkpoint) {
    && 1 <= |p.checkpoints| < MAX_CHECKPOINTS && p.checkpoints[0] == first
    && Ordered(p.checkpoints, p.time, p.lineOffset)
  }

  lemma LineKeepsBounds(m: Model, p: Progress, line: Line, first: Checkpoint)
    requires Bounded(p, first)
    ensures Bounded(ReadLine(m, p, line), first)
  {
    if line.text.Record? { TakeKeepsOrder(m, ReadEvent(m, p, line), p.lineOffset); }
  }

  /** Between events there are never 32 checkpoints, the first is the recording's start, and
      they rise in time and strictly in offset. */
  lemma {:induction false} CheckpointsStayBounded(m: Model, recording: Recording, k: nat)
    requires HasHeader(recording) && k <= |Body(recording)|
    ensures Bounded(After(m, recording, k), Begin(m, recording).checkpoints[0])
  {
    if k > 0 {
      CheckpointsStayBounded(m, recording, k - 1);
      LineKeepsBounds(m, After(m, recording, k - 1), Body(recording)[k - 1], Begin(m, recording).checkpoints[0]);
    }
  }

  // ---- Spacing ----

  /** Where the last event among the first `k` body lines ends, or the header if there is none. */
  function LastEventEnd(recording: Recording, k: nat): int
    requires HasHeader(recording) && k <= |Body(recording)|
  {
    if k == 0 then Offset(recording.lines, 1)
    else if Body(recording)[k - 1].text.Record? then Offset(recording.lines, k + 1)
    else LastEventEnd(recording, k - 1)
  }

  /** If body line `k` is an event, it ends at most `span` bytes after the previous event did. */
  ghost predicate EndsWithin(recording: Recording, k: nat, span: nat)
    requires HasHeader(recording) && k < |Body(recording)|
  {
    Body(recording)[k].text.Record? ==> Offset(recording.lines, k + 2) - LastEventEnd(recording, k) <= span
  }

  /** No two consecutive event ends are further apart than `span` bytes. */
  ghost predicate EventsSpan(recording: Recording, span: nat)
    requires HasHeader(recording)
  {
    forall k: nat | k < |Body(recording)| :: EndsWithin(recording, k, span)
  }

  function Pow2(n: nat): nat {
    if n == 0 then 1 else 2 * Pow2(n - 1)
  }

  /** `2^doublings * (1 MiB + span)`. */
  function Width(doublings: nat, span: nat): nat {
    if doublings == 0 then INITIAL_CHECKPOINT_BYTES + span else 2 * Width(doublings - 1, span)
  }

  lemma {:induction false} WidthIs(doublings: nat, span: nat)
    ensures Width(doublings, span) == Pow2(doublings) * (INITIAL_CHECKPOINT_BYTES + span)
  {
    if doublings > 0 { WidthIs(doublings - 1, span); }
  }

  lemma {:induction false} WidthCovers(doublings: nat, span: nat)
    ensures BytesAfter(doublings) + span <= Width(doublings, span) && BytesAfter(doublings) > 0
  {
    if doublings > 0 { WidthCovers(doublings - 1, span); }
  }

  ghost predicate Close(checkpoints: seq<Checkpoint>, gap: nat) {
    forall i | 0 <= i < |checkpoints| - 1 :: checkpoints[i + 1].nextOffset - checkpoints[i].nextOffset <= gap
  }

  lemma EvensClose(checkpoints: seq<Checkpoint>, gap: nat)
    requires Close(checkpoints, gap)
    ensures Close(Evens(checkpoints), 2 * gap)
  {
    var evens := Evens(checkpoints);
    forall i | 0 <= i < |evens| - 1 ensures evens[i + 1].nextOffset - evens[i].nextOffset <= 2 * gap {
      assert checkpoints[2 * i + 1].nextOffset - checkpoints[2 * i].nextOffset <= gap;
      assert checkpoints[2 * i + 1 + 1].nextOffset - checkpoints[2 * i + 1].nextOffset <= gap;
    }
  }

  /** The spacing invariant: adjacent checkpoints are close, and the point spacing is counted
      from is not far past the last one kept: a compaction drops the checkpoint just pushed. */
  ghost predicate Spaced(p: Progress, lastEnd: int, span: nat) {
    && 1 <= |p.checkpoints| < MAX_CHECKPOINTS
    && Close(p.checkpoints, 2 * Width(p.doublings, span))
    && p.nextOffset - BytesAfter(p.doublings) - p.checkpoints[|p.checkpoints| - 1].nextOffset
       <= Width(p.doublings, span)
    && lastEnd < p.nextOffset
  }

  lemma PushedIsClose(m: Model, p: Progress, lastEnd: int, span: nat)
    requires Spaced(p, lastEnd, span) && p.lineOffset <= lastEnd + span
    ensures Close(p.checkpoints + [Present(m, p)], 2 * Width(p.doublings, span))
  {
    WidthCovers(p.doublings, span);
  }

  lemma CompactedIsClose(pushed: seq<Checkpoint>, gap: nat)
    requires |pushed| == MAX_CHECKPOINTS && Close(pushed, gap)
    ensures |Compact(pushed)| == 16 && Close(Compact(pushed), 2 * gap)
    ensures pushed[31].nextOffset - Compact(pushed)[15].nextOffset <= gap
  {
    EvensClose(pushed, gap);
    assert pushed[30 + 1].nextOffset - pushed[30].nextOffset <= gap;
  }

  lemma CompactKeepsSpacing(m: Model, p: Progress, lastEnd: int, span: nat)
    requires Spaced(p, lastEnd, span) && p.lineOffset <= lastEnd + span
    requires TakeCheckpoint(m, p).skipped == p.skipped && |p.checkpoints| + 1 == MAX_CHECKPOINTS
    ensures Spaced(TakeCheckpoint(m, p), p.lineOffset, span)
  {
    var q := TakeCheckpoint(m, p);
    var pushed := p.checkpoints + [Present(m, p)];
    assert q.checkpoints == Compact(pushed) && q.doublings == p.doublings + 1;
    assert q.nextOffset == p.lineOffset + BytesAfter(q.doublings) && pushed[31].nextOffset == p.lineOffset;
    assert Width(q.doublings, span) == 2 * Width(p.doublings, span);
    PushedIsClose(m, p, lastEnd, span);
    CompactedIsClose(pushed, 2 * Width(p.doublings, span));
    WidthCovers(q.doublings, span);
  }

  lemma TakeKeepsSpacing(m: Model, p: Progress, lastEnd: int, span: nat)
    requires Spaced(p, lastEnd, span) && p.lineOffset <= lastEnd + span
    requires TakeCheckpoint(m, p).skipped == p.skipped
    ensures Spaced(TakeCheckpoint(m, p), p.lineOffset, span)
  {
    if |p.checkpoints| + 1 == MAX_CHECKPOINTS {
      CompactKeepsSpacing(m, p, lastEnd, span);
    } else {
      PushedIsClose(m, p, lastEnd, span);
      WidthCovers(p.doublings, span);
    }
  }

  lemma EventKeepsSpacing(m: Model, p: Progress, line: Line, lastEnd: int, span: nat)
    requires Spaced(p, lastEnd, span) && line.text.Record?
    requires p.lineOffset + Bytes(line) <= lastEnd + span
    requires ReadLine(m, p, line).skipped == 0
    ensures Spaced(ReadLine(m, p, line), p.lineOffset + Bytes(line), span)
  {
    var r := ReadEvent(m, p, line);
    if Triggers(r) { TakeKeepsSpacing(m, r, lastEnd, span); }
  }

  /** If no state was too large to keep, then after `d` compactions adjacent checkpoints are at
      most `2^(d+1) * (1 MiB + span)` bytes apart, `span` bounding the distance between
      consecutive event ends. */
  lemma {:induction false} CheckpointsStayClose(m: Model, recording: Recording, k: nat, span: nat)
    requires HasHeader(recording) && k <= |Body(recording)| && EventsSpan(recording, span)
    requires After(m, recording, k).skipped == 0
    ensures Spaced(After(m, recording, k), LastEventEnd(recording, k), span)
  {
    if k == 0 {
      WidthCovers(0, span);
      assert Offset(recording.lines, 1) == Bytes(recording.lines[0]);
    } else {
      var p, line := After(m, recording, k - 1), Body(recording)[k - 1];
      CheckpointsStayClose(m, recording, k - 1, span);
      if line.text.Record? {
        OffsetAfter(m, recording, k - 1);
        assert EndsWithin(recording, k - 1, span);
        assert Offset(recording.lines, k + 1) == p.lineOffset + Bytes(line);
        EventKeepsSpacing(m, p, line, LastEventEnd(recording, k - 1), span);
      }
    }
  }

  /** The gap of the finished index, in closed form. */
  lemma IndexGap(m: Model, recording: Recording, span: nat, i: nat)
    requires HasHeader(recording) && EventsSpan(recording, span)
    requires After(m, recording, |Body(recording)|).skipped == 0
    requires i + 1 < |IndexOf(m, recording).checkpoints|
    ensures var index, d := IndexOf(m, recording), After(m, recording, |Body(recording)|).doublings;
      index.checkpoints[i + 1].nextOffset - index.checkpoints[i].nextOffset
      <= Pow2(d + 1) * (INITIAL_CHECKPOINT_BYTES + span)
  {
    var d := After(m, recording, |Body(recording)|).doublings;
    CheckpointsStayClose(m, recording, |Body(recording)|, span);
    WidthIs(d + 1, span);
  }
}
