/** The state of `createAppUpdater` in `electron/appUpdater.ts`, over every order of checks, updater
    events, channel changes and restart requests. */
module Updater {
  import opened Common
  import opened Versions
  import opened UpdateSources

  datatype Phase = Idle | Checking | Available | Downloading | Ready | Failed

  /** The updater library: asked for once, and the answer kept. */
  datatype Library = NotLoaded | Loaded | LoadFailed

  datatype State = State(
    installable: bool,
    channel: Source,
    generation: nat,
    phase: Phase,
    latest: Option<Version>,
    checkSource: Source,
    offered: Option<Source>,
    downloaded: Option<Version>,
    percent: Option<real>,
    failure: Option<string>,
    restart: bool,
    library: Library,
    /** The generation the running check started in. */
    running: Option<nat>)

  function Start(installable: bool, channel: Source): State {
    State(installable, channel, 0, Idle, None, channel, None, None, None, None, false, NotLoaded, None)
  }

  /** The version of development builds, which never look for another. */
  const DEVELOPMENT := Version(0, 0, 0, [])

  /** What a check of a build that cannot install finds: no metadata for the platform, or a version. */
  datatype Notice = NoMetadata | Found(selected: Selected)

  datatype Step =
    | BeginCheck
    | Load(ok: bool)
    | ChooseSource(source: Source)
    | OnChecking
    | OnAvailable(version: Option<Version>)
    | OnNotAvailable
    | OnProgress(percent: Option<real>)
    | OnDownloaded(version: Option<Version>)
    | OnError(message: string)
    | OnNotice(notice: Notice)
    | EndCheck(error: Option<string>)
    | Settle
    | SetChannel(next: Source)
    | RequestRestart
    | CancelRestart
    | FinishQuit

  /** When a step can happen: one check at a time, library events once it is loaded, and a build that
      cannot install never loads it. */
  predicate Enabled(s: State, step: Step) {
    match step
    case BeginCheck => s.running == None
    case Load(_) => s.running.Some? && s.installable && s.library.NotLoaded?
    case ChooseSource(_) => s.running.Some? && s.library.Loaded?
    case OnNotice(_) => s.running.Some? && !s.installable
    case EndCheck(_) => s.running.Some?
    case Settle => s.running.Some?
    case SetChannel(_) => true
    case RequestRestart => true
    case CancelRestart => true
    case FinishQuit => true
    case _ => s.library.Loaded?
  }

  function Fallback(latest: Option<Version>, otherwise: Phase): Phase {
    if latest.Some? then Available else otherwise
  }

  function Begun(s: State, current: Version): State {
    if current == DEVELOPMENT then s
    else s.(running := Some(s.generation), failure := None,
            phase := if s.phase != Downloading && s.phase != Ready then Checking else s.phase)
  }

  function AfterAvailable(s: State, version: Version): State {
    var t := s.(latest := Some(version), offered := Some(s.checkSource), failure := None);
    if s.downloaded == Some(version) then t else t.(phase := Downloading, percent := Some(0.0))
  }

  function AfterDownloaded(s: State, version: Version): State {
    s.(downloaded := Some(version), latest := Some(version), offered := Some(s.checkSource), percent := Some(100.0),
       failure := None, phase := Ready)
  }

  function AfterError(s: State, message: string): State {
    if s.downloaded.Some? then
      s.(failure := Some(message), phase := Ready, latest := s.downloaded, percent := Some(100.0))
    else s.(failure := Some(message), percent := None, phase := Fallback(s.latest, Failed))
  }

  /** What a version is compared with when nothing can be installed: only a newer one is offered. */
  function AfterNotice(s: State, notice: Notice, current: Version): State {
    if notice.NoMetadata? then s.(phase := Idle)
    else
      var found := notice.selected;
      var t := s.(checkSource := found.source);
      if Compare(Some(found.version), Some(current)) > 0 then
        t.(latest := Some(found.version), offered := Some(found.source), phase := Available)
      else t.(latest := None, offered := None, phase := Idle)
  }

  function Ended(s: State, error: Option<string>): State {
    var t :=
      if error == None || s.running != Some(s.generation) then s
      else s.(failure := error, phase := if s.downloaded.Some? then Ready else Fallback(s.latest, Failed));
    if t.phase == Checking then t.(phase := Fallback(t.latest, Idle)) else t
  }

  function Switched(s: State, next: Source): State {
    if next == s.channel then s
    else
      var t := s.(channel := next, generation := s.generation + 1, latest := None);
      if s.downloaded == None then t.(phase := Idle, offered := None) else t
  }

  function Clamp(percent: real): real {
    if percent < 0.0 then 0.0 else if percent > 100.0 then 100.0 else percent
  }

  function Next(s: State, step: Step, current: Version): State {
    match step
    case BeginCheck => Begun(s, current)
    case Load(ok) => s.(library := if ok then Loaded else LoadFailed)
    case ChooseSource(source) => s.(checkSource := source)
    case OnChecking => if s.phase != Downloading && s.downloaded == None then s.(phase := Checking) else s
    case OnAvailable(version) => if version == None then s else AfterAvailable(s, version.value)
    case OnNotAvailable => if s.downloaded == None then s.(phase := Idle, latest := None, offered := None) else s
    case OnProgress(percent) => if percent == None then s else s.(percent := Some(Clamp(percent.value)))
    case OnDownloaded(version) => if version == None then s else AfterDownloaded(s, version.value)
    case OnError(message) => AfterError(s, message)
    case OnNotice(notice) => AfterNotice(s, notice, current)
    case EndCheck(error) => Ended(s, error)
    case Settle => s.(running := None)
    case SetChannel(next) => Switched(s, next)
    case RequestRestart => if s.installable && s.downloaded.Some? then s.(restart := true) else s
    case CancelRestart => s.(restart := false)
    case FinishQuit => s.(restart := if Installs(s) then false else s.restart)
  }

  // ---- What the user is shown ----

  function Shown(s: State): Option<Version> {
    if s.phase == Downloading then Either(s.latest, s.downloaded) else Either(s.downloaded, s.latest)
  }

  predicate HasUpdate(s: State) {
    s.downloaded.Some? || (s.phase == Available && s.latest.Some?)
  }

  /** Whether a quit installs and relaunches. */
  predicate Installs(s: State) {
    s.restart && s.downloaded.Some? && !s.library.NotLoaded?
  }

  // ---- Every run ----

  /** A download implies the phase is ready or downloading and the other way round for ready; whatever is
      announced has a version, and a version has the source it came from; a restart waits only for a
      download that can be installed. */
  predicate Good(s: State) {
    && (s.downloaded.Some? ==> (s.phase == Ready || s.phase == Downloading) && s.offered.Some? && s.library.Loaded?)
    && (s.phase == Ready ==> s.downloaded.Some?)
    && (s.phase == Available ==> s.latest.Some?)
    && (s.phase == Downloading ==> (s.latest.Some? || s.downloaded.Some?) && s.percent.Some? && s.library.Loaded?)
    && (s.latest.Some? ==> s.offered.Some?)
    && (s.percent.Some? ==> 0.0 <= s.percent.value <= 100.0)
    && (s.restart ==> s.downloaded.Some?)
    && (!s.library.NotLoaded? ==> s.installable)
  }

  lemma NextIsGood(s: State, step: Step, current: Version)
    requires Good(s) && Enabled(s, step)
    ensures Good(Next(s, step, current))
    ensures s.downloaded.Some? ==> Next(s, step, current).downloaded.Some?
    ensures Next(s, step, current).installable == s.installable
    ensures s.library.LoadFailed? ==> Next(s, step, current).library.LoadFailed?
  {
  }

  /** A run: each step possible where it happens. */
  predicate Possible(s: State, steps: seq<Step>, current: Version)
    decreases |steps|
  {
    steps == [] || (Enabled(s, steps[0]) && Possible(Next(s, steps[0], current), steps[1..], current))
  }

  function Run(s: State, steps: seq<Step>, current: Version): State
    decreases |steps|
  {
    if steps == [] then s else Run(Next(s, steps[0], current), steps[1..], current)
  }

  lemma {:induction false} RunIsGood(s: State, steps: seq<Step>, current: Version)
    requires Good(s) && Possible(s, steps, current)
    ensures Good(Run(s, steps, current))
    ensures s.downloaded.Some? ==> Run(s, steps, current).downloaded.Some?
    ensures Run(s, steps, current).installable == s.installable
    ensures s.library.LoadFailed? ==> Run(s, steps, current).library.LoadFailed?
    decreases |steps|
  {
    if steps != [] {
      NextIsGood(s, steps[0], current);
      RunIsGood(Next(s, steps[0], current), steps[1..], current);
    }
  }

  /** After any run: a downloaded version is never forgotten and is what a ready status names; a status that
      announces something has a version and its own source; and a restart is under way exactly when it was requested
      and not called off, on a build that can install. */
  lemma EveryRun(installable: bool, channel: Source, first: seq<Step>, rest: seq<Step>, current: Version)
    requires var s := Start(installable, channel);
      Possible(s, first, current) && Possible(Run(s, first, current), rest, current)
    ensures var s := Run(Start(installable, channel), first, current);
      var t := Run(s, rest, current);
      && Good(s) && Good(t)
      && (s.downloaded.Some? ==> t.downloaded.Some?)
      && (t.phase == Ready ==> t.downloaded.Some? && Shown(t) == t.downloaded)
      && (t.phase == Available || t.phase == Downloading || t.phase == Ready || HasUpdate(t) ==> Shown(t).Some?)
      && (Shown(t).Some? ==> t.offered.Some?)
      && (Installs(t) <==> t.restart)
      && (t.restart || t.downloaded.Some? || t.phase == Downloading ==> installable)
  {
    RunIsGood(Start(installable, channel), first, current);
    RunIsGood(Run(Start(installable, channel), first, current), rest, current);
  }

  // ---- When a download can still come ----

  /** The updater library is there, or a check can still ask for it. */
  predicate CanLoad(s: State, current: Version) {
    || s.library.Loaded?
    || (s.library.NotLoaded? && s.installable && (s.running.Some? || current != DEVELOPMENT))
  }

  lemma {:induction false} NeverLoads(s: State, steps: seq<Step>, current: Version)
    requires Good(s) && Possible(s, steps, current) && !CanLoad(s, current)
    ensures Run(s, steps, current).downloaded == None
    decreases |steps|
  {
    if steps != [] {
      NextIsGood(s, steps[0], current);
      NeverLoads(Next(s, steps[0], current), steps[1..], current);
    }
  }

  lemma RunTwo(s: State, first: Step, second: Step, current: Version)
    requires Enabled(s, first) && Enabled(Next(s, first, current), second)
    ensures Possible(s, [first, second], current)
    ensures Run(s, [first, second], current) == Next(Next(s, first, current), second, current)
  {
    var t := Next(s, first, current);
    assert [first, second][1..] == [second] && [second][1..] == [];
    assert Possible(t, [second], current) && Run(t, [second], current) == Next(t, second, current);
  }

  /** The shortest way to a download: load the library, unless it is there, and have it finish. */
  lemma DownloadArrives(s: State, version: Version, current: Version) returns (steps: seq<Step>)
    requires s.library.Loaded? || (s.library.NotLoaded? && s.installable && s.running.Some?)
    ensures Possible(s, steps, current) && Run(s, steps, current).downloaded == Some(version)
  {
    if s.library.Loaded? {
      steps := [OnDownloaded(Some(version))];
      assert steps[1..] == [];
    } else {
      steps := [Load(true), OnDownloaded(Some(version))];
      RunTwo(s, Load(true), OnDownloaded(Some(version)), current);
    }
  }

  ghost predicate DownloadCanCome(s: State, current: Version) {
    exists steps :: Possible(s, steps, current) && Run(s, steps, current).downloaded.Some?
  }

  /** Some run from here ends with a download exactly when the build can install, its library has not
      failed to load and, unless the library is there or being asked for, it is no development build. */
  lemma DownloadComesExactly(s: State, current: Version)
    requires Good(s)
    ensures DownloadCanCome(s, current) <==>
            && s.installable && !s.library.LoadFailed?
            && (current == DEVELOPMENT ==> s.library.Loaded? || s.running.Some?)
  {
    if CanLoad(s, current) {
      if s.library.NotLoaded? && s.running == None {
        var t := Next(s, BeginCheck, current);
        var rest := DownloadArrives(t, current, current);
        var steps := [BeginCheck] + rest;
        assert steps[1..] == rest;
        assert Possible(s, steps, current) && Run(s, steps, current) == Run(t, rest, current);
      } else {
        var steps := DownloadArrives(s, current, current);
      }
    } else {
      forall steps | Possible(s, steps, current) ensures Run(s, steps, current).downloaded == None {
        NeverLoads(s, steps, current);
      }
    }
  }

  /** A build that could have been updated looks once, while the updater library cannot be loaded, and from
      then on no check and no channel ever brings a download. */
  lemma OneFailedLoadEndsUpdates(channel: Source, current: Version, error: string)
    requires current != DEVELOPMENT
    ensures DownloadCanCome(Start(true, channel), current)
    ensures exists steps ::
              && Possible(Start(true, channel), steps, current)
              && Run(Start(true, channel), steps, current)
                 == Start(true, channel).(library := LoadFailed, phase := Failed, failure := Some(error))
              && !DownloadCanCome(Run(Start(true, channel), steps, current), current)
  {
    var s0 := Start(true, channel);
    DownloadComesExactly(s0, current);
    var s1 := Next(s0, BeginCheck, current);
    var s2 := Next(s1, Load(false), current);
    var last: seq<Step> := [EndCheck(Some(error)), Settle];
    RunTwo(s2, EndCheck(Some(error)), Settle, current);
    var steps := [BeginCheck] + ([Load(false)] + last);
    RunStep(s0, BeginCheck, [Load(false)] + last, map[], current);
    RunStep(s1, Load(false), last, map[], current);
    RunIsGood(s0, steps, current);
    DownloadComesExactly(Run(s0, steps, current), current);
  }

  // ---- Where the shown version came from ----

  /** The source a version offered now comes from. */
  function Noted(from: map<Version, Source>, s: State, step: Step): map<Version, Source> {
    match step
    case OnAvailable(Some(version)) => from[version := s.checkSource]
    case OnNotice(Found(selected)) => from[selected.version := selected.source]
    case _ => from
  }

  /** The source each version was last offered by. */
  function Origins(s: State, steps: seq<Step>, from: map<Version, Source>, current: Version): map<Version, Source>
    decreases |steps|
  {
    if steps == [] then from
    else Origins(Next(s, steps[0], current), steps[1..], Noted(from, s, steps[0]), current)
  }

  /** The release link points into the source that offered the shown version. */
  predicate LinkIsRight(s: State, from: map<Version, Source>) {
    Shown(s).Some? && Shown(s).value in from ==> s.offered == Some(from[Shown(s).value])
  }

  /** The download of a newer release ends without replacing the one that waits. */
  predicate FallsBack(s: State, step: Step) {
    && s.phase == Downloading && s.latest.Some? && s.downloaded.Some?
    && match step
       case OnError(_) => true
       case EndCheck(error) => error.Some? && s.running == Some(s.generation)
       case SetChannel(next) => next != s.channel
       case _ => false
  }

  /** A right link turns wrong at exactly two kinds of step: a download completes while the check under
      way reads the other source, and a fall back to a waiting version from another source than the newer one. */
  lemma LinkTurnsWrongExactly(s: State, step: Step, from: map<Version, Source>, current: Version)
    requires Good(s) && Enabled(s, step) && LinkIsRight(s, from)
    ensures !LinkIsRight(Next(s, step, current), Noted(from, s, step)) <==>
            || (step.OnDownloaded? && step.version.Some? && step.version.value in from
                && s.checkSource != from[step.version.value])
            || (FallsBack(s, step) && s.downloaded.value in from && s.offered != Some(from[s.downloaded.value]))
  {
  }

  predicate Reads(source: Source, step: Step) {
    match step
    case ChooseSource(chosen) => chosen == source
    case OnNotice(Found(selected)) => selected.source == source
    case _ => true
  }

  /** As long as every check reads the same source, the link is right. */
  lemma {:induction false} LinkIsRightOnOneSource(
    s: State, steps: seq<Step>, from: map<Version, Source>, source: Source, current: Version)
    requires Possible(s, steps, current) && forall k :: 0 <= k < |steps| ==> Reads(source, steps[k])
    requires s.checkSource == source && s.offered in {None, Some(source)} && from.Values <= {source}
    requires Good(s)
    ensures LinkIsRight(Run(s, steps, current), Origins(s, steps, from, current))
    decreases |steps|
  {
    if steps == [] {
      assert Shown(s).Some? && Shown(s).value in from ==> from[Shown(s).value] in from.Values;
    } else {
      NextIsGood(s, steps[0], current);
      assert Reads(source, steps[0]);
      LinkIsRightOnOneSource(Next(s, steps[0], current), steps[1..], Noted(from, s, steps[0]), source, current);
    }
  }

  const OLDER := Version(1, 1, 0, [Numeric(1)])
  const NEWER := Version(1, 1, 0, [])

  lemma RunStep(s: State, step: Step, rest: seq<Step>, from: map<Version, Source>, current: Version)
    requires Enabled(s, step)
    ensures Possible(s, [step] + rest, current) == Possible(Next(s, step, current), rest, current)
    ensures Run(s, [step] + rest, current) == Run(Next(s, step, current), rest, current)
    ensures Origins(s, [step] + rest, from, current)
            == Origins(Next(s, step, current), rest, Noted(from, s, step), current)
  {
    assert ([step] + rest)[1..] == rest;
  }

  /** A beta is offered, downloaded and waits for a restart. */
  lemma BetaArrives(rest: seq<Step>, current: Version)
    requires current != DEVELOPMENT
    ensures var steps :=
        [BeginCheck] + ([Load(true)] + ([ChooseSource(Beta)] + ([OnAvailable(Some(OLDER))]
        + ([OnDownloaded(Some(OLDER))] + ([EndCheck(None)] + ([Settle] + rest))))));
      var s := Start(true, Beta);
      var t := s.(library := Loaded, phase := Ready, latest := Some(OLDER), offered := Some(Beta),
                  downloaded := Some(OLDER), percent := Some(100.0));
      && Possible(s, steps, current) == Possible(t, rest, current)
      && Run(s, steps, current) == Run(t, rest, current)
      && Origins(s, steps, map[], current) == Origins(t, rest, map[OLDER := Beta], current)
  {
    var s0, from := Start(true, Beta), map[OLDER := Beta];
    var s1 := Next(s0, BeginCheck, current);
    var s2 := Next(s1, Load(true), current);
    var s3 := Next(s2, ChooseSource(Beta), current);
    var s4 := Next(s3, OnAvailable(Some(OLDER)), current);
    var s5 := Next(s4, OnDownloaded(Some(OLDER)), current);
    var s6 := Next(s5, EndCheck(None), current);
    var r6 := [Settle] + rest;
    var r5 := [EndCheck(None)] + r6;
    var r4 := [OnDownloaded(Some(OLDER))] + r5;
    var r3 := [OnAvailable(Some(OLDER))] + r4;
    var r2 := [ChooseSource(Beta)] + r3;
    RunStep(s0, BeginCheck, [Load(true)] + r2, map[], current);
    RunStep(s1, Load(true), r2, map[], current);
    RunStep(s2, ChooseSource(Beta), r3, map[], current);
    RunStep(s3, OnAvailable(Some(OLDER)), r4, map[], current);
    RunStep(s4, OnDownloaded(Some(OLDER)), r5, from, current);
    RunStep(s5, EndCheck(None), r6, from, current);
    RunStep(s6, Settle, rest, from, current);
  }

  /** Then a newer stable release starts to download and fails: the status names the beta again, and
      links to the stable source. */
  lemma FailedDownloadLeavesTheWrongLink(current: Version)
    requires current != DEVELOPMENT
    ensures exists steps ::
              var s := Start(true, Beta);
              && Possible(s, steps, current)
              && Shown(Run(s, steps, current)) == Some(OLDER)
              && Run(s, steps, current).offered == Some(Stable)
              && !LinkIsRight(Run(s, steps, current), Origins(s, steps, map[], current))
  {
    var s0, from := Start(true, Beta), map[OLDER := Beta];
    var s7 := s0.(library := Loaded, phase := Ready, latest := Some(OLDER), offered := Some(Beta),
                  downloaded := Some(OLDER), percent := Some(100.0));
    var s8 := Next(s7, BeginCheck, current);
    var s9 := Next(s8, ChooseSource(Stable), current);
    var s10 := Next(s9, OnAvailable(Some(NEWER)), current);
    var r10: seq<Step> := [OnError("offline")] + [];
    var r9 := [OnAvailable(Some(NEWER))] + r10;
    var r8 := [ChooseSource(Stable)] + r9;
    var r7 := [BeginCheck] + r8;
    RunStep(s7, BeginCheck, r8, from, current);
    RunStep(s8, ChooseSource(Stable), r9, from, current);
    RunStep(s9, OnAvailable(Some(NEWER)), r10, from, current);
    RunStep(s10, OnError("offline"), [], from[NEWER := Stable], current);
    BetaArrives(r7, current);
  }
}
