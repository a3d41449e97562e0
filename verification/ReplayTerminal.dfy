/** The two terminals of `src/recordingReplay.ts`: the one playback awaits write by write,
    and the one indexing feeds without awaiting. */
module ReplayTerminal {
  import opened Common

  /** What a terminal emulator holds, and what can be seen of it: both left open. */
  type Terminal(!new)
  type Screen(!new)

  /** A terminal implementation (`blank` to `stateBytes`) and what an observer can see of it
      (`view`, with the effect of each operation on what is seen). */
  datatype Model = Model(
    blank: (int, int) -> Terminal,
    reset: Terminal -> Terminal,
    resize: (Terminal, int, int) -> Terminal,
    write: (Terminal, string) -> Terminal,
    serialize: Terminal -> string,
    cols: Terminal -> int,
    rows: Terminal -> int,
    stateBytes: string -> nat,
    view: Terminal -> Screen,
    seenBlank: (int, int) -> Screen,
    seenResize: (Screen, int, int) -> Screen,
    seenWrite: (Screen, string) -> Screen)

  /** What playback relies on: the observable state evolves by itself, writing nothing shows
      nothing, and a serialised state written to a cleared terminal of the same size shows
      what the original showed. */
  ghost predicate Lossless(m: Model) {
    && (forall t, d {:trigger m.write(t, d)} :: m.view(m.write(t, d)) == m.seenWrite(m.view(t), d))
    && (forall t, c, r {:trigger m.resize(t, c, r)} :: m.view(m.resize(t, c, r)) == m.seenResize(m.view(t), c, r))
    && (forall v {:trigger m.seenWrite(v, "")} :: m.seenWrite(v, "") == v)
    && (forall c, r {:trigger m.blank(c, r)} :: m.view(m.blank(c, r)) == m.seenBlank(c, r))
    && (forall t, c, r {:trigger m.resize(m.reset(t), c, r)} ::
          m.view(m.resize(m.reset(t), c, r)) == m.seenBlank(c, r))
    && (forall t {:trigger m.serialize(t)} ::
          m.seenWrite(m.seenBlank(m.cols(t), m.rows(t)), m.serialize(t)) == m.view(t))
  }

  const MAX_REPLAY_COLS := 1000
  const MAX_REPLAY_ROWS := 500

  function Clamp(value: Option<real>, fallback: int, low: int, high: int): (n: int)
    requires low <= fallback <= high
    ensures low <= n <= high
    ensures value.Some? && value.value != 0.0 && low <= value.value.Floor <= high ==> n == value.value.Floor
  {
    var whole := if value.None? || value.value == 0.0 then fallback else value.value.Floor;
    var floored := if whole < low then low else whole;
    if high < floored then high else floored
  }

  function ClampCols(value: Option<real>): int {
    Clamp(value, 80, 2, MAX_REPLAY_COLS)
  }

  function ClampRows(value: Option<real>): int {
    Clamp(value, 24, 1, MAX_REPLAY_ROWS)
  }

  /** What an event does to a terminal; a size is present when both numbers are finite. */
  datatype Payload = Output(data: string) | Resize(size: Option<(real, real)>) | Other

  /** `applyReplayEvent`, on the awaited terminal. */
  function Apply(m: Model, t: Terminal, p: Payload): Terminal {
    match p
    case Output(data) => m.write(t, data)
    case Resize(Some(size)) => m.resize(t, ClampCols(Some(size.0)), ClampRows(Some(size.1)))
    case _ => t
  }

  /** `queueIndexEvent`, once everything queued has been written. */
  function Queue(m: Model, t: Terminal, p: Payload): Terminal {
    match p
    case Output(data) => m.write(t, data)
    case Resize(Some(size)) => m.resize(m.write(t, ""), ClampCols(Some(size.0)), ClampRows(Some(size.1)))
    case Resize(None) => m.write(t, "")
    case Other => t
  }

  function See(m: Model, v: Screen, p: Payload): Screen {
    match p
    case Output(data) => m.seenWrite(v, data)
    case Resize(Some(size)) => m.seenResize(v, ClampCols(Some(size.0)), ClampRows(Some(size.1)))
    case _ => v
  }

  /** Awaiting or not, an event has the same observable effect. */
  lemma QueueIsApply(m: Model, t: Terminal, p: Payload)
    requires Lossless(m)
    ensures m.view(Queue(m, t, p)) == See(m, m.view(t), p) == m.view(Apply(m, t, p))
  {
  }

  function WriteAll(m: Model, t: Terminal, queue: seq<string>): Terminal {
    if queue == [] then t else WriteAll(m, m.write(t, queue[0]), queue[1..])
  }

  lemma {:induction false} WriteAllConcat(m: Model, t: Terminal, a: seq<string>, b: seq<string>)
    ensures WriteAll(m, t, a + b) == WriteAll(m, WriteAll(m, t, a), b)
  {
    if a == [] {
      assert a + b == b;
    } else {
      assert (a + b)[1..] == a[1..] + b;
      WriteAllConcat(m, m.write(t, a[0]), a[1..], b);
    }
  }

  /** The terminal of a replay window: every write is awaited. */
  class PlaybackTerminal {
    const model: Model
    var state: Terminal

    constructor (model: Model, cols: int, rows: int)
      ensures this.model == model && state == model.blank(cols, rows)
    {
      this.model, state := model, model.blank(cols, rows);
    }

    method Reset(cols: int, rows: int)
      modifies this
      ensures state == model.resize(model.reset(old(state)), cols, rows)
    {
      state := model.reset(state);
      state := model.resize(state, cols, rows);
    }

    method Write(data: string)
      modifies this
      ensures state == model.write(old(state), data)
    {
      state := model.write(state, data);
    }

    method ApplyEvent(p: Payload)
      modifies this
      ensures state == Apply(model, old(state), p)
    {
      match p
      case Output(data) => Write(data);
      case Resize(Some(size)) => state := model.resize(state, ClampCols(Some(size.0)), ClampRows(Some(size.1)));
      case _ =>
    }
  }

  /** The indexing terminal: writes wait in a queue that the terminal empties in its own time.
      `schedule(i)` is how many waiting writes it happens to have processed by operation `i`. */
  class BufferedTerminal {
    const model: Model
    const schedule: nat -> nat
    var applied: Terminal
    var queue: seq<string>
    var tick: nat

    constructor (model: Model, schedule: nat -> nat, cols: int, rows: int)
      ensures this.model == model && this.schedule == schedule
      ensures queue == [] && Settled() == model.blank(cols, rows)
    {
      this.model, this.schedule := model, schedule;
      applied, queue, tick := model.blank(cols, rows), [], 0;
    }

    /** The state once every waiting write has been processed. */
    ghost function Settled(): Terminal
      reads this
    {
      WriteAll(model, applied, queue)
    }

    /** Between any two operations some of the waiting writes are processed. */
    method Process()
      modifies this
      ensures Settled() == old(Settled())
      ensures old(queue) == [] ==> queue == []
    {
      var count := schedule(tick);
      tick := tick + 1;
      while count > 0 && queue != []
        invariant Settled() == old(Settled())
        invariant old(queue) == [] ==> queue == []
      {
        applied, queue := model.write(applied, queue[0]), queue[1..];
        count := count - 1;
      }
    }

    method Write(data: string)
      modifies this
      ensures Settled() == model.write(old(Settled()), data)
    {
      Process();
      WriteAllConcat(model, applied, queue, [data]);
      queue := queue + [data];
    }

    /** Write and wait: resolves when this write, and so every one before it, is processed. */
    method WriteAndWait(data: string)
      modifies this
      ensures queue == [] && Settled() == applied == model.write(old(Settled()), data)
    {
      Write(data);
      while queue != []
        invariant Settled() == model.write(old(Settled()), data)
        decreases |queue|
      {
        applied, queue := model.write(applied, queue[0]), queue[1..];
      }
    }

    /** Resizing acts at once, whatever is still waiting. */
    method Resize(cols: int, rows: int)
      modifies this
      ensures queue == old(queue) && applied == model.resize(old(applied), cols, rows)
    {
      applied := model.resize(applied, cols, rows);
    }

    /** `queueIndexEvent`: only a resize waits for the queue. */
    method QueueEvent(p: Payload)
      modifies this
      ensures Settled() == Queue(model, old(Settled()), p)
    {
      match p
      case Output(data) => Write(data);
      case Resize(size) =>
        WriteAndWait("");
        if size.Some? { Resize(ClampCols(Some(size.value.0)), ClampRows(Some(size.value.1))); }
      case Other => Process();
    }
  }
}
