/** `createAppUpdater` of `electron/appUpdater.ts` with its variables: each handler and method refines
    a step of the state machine. */
module AppUpdaters {
  import opened Common
  import opened Versions
  import opened UpdateSources
  import opened Updater

  class AppUpdater {
    const current: Version
    const installable: bool
    var channel: Source
    var generation: nat
    var phase: Phase
    var latestVersion: Option<Version>
    var checkSource: Source
    var offeredSource: Option<Source>
    var downloadedVersion: Option<Version>
    var downloadPercent: Option<real>
    var failure: Option<string>
    var restartRequested: bool
    var library: Library
    var running: Option<nat>

    function View(): State
      reads this
    {
      State(installable, channel, generation, phase, latestVersion, checkSource, offeredSource, downloadedVersion,
            downloadPercent, failure, restartRequested, library, running)
    }

    predicate Valid()
      reads this
    {
      Good(View())
    }

    constructor (current: Version, installable: bool, channel: Source)
      ensures Valid() && View() == Start(installable, channel) && this.current == current
    {
      this.current, this.installable, this.channel := current, installable, channel;
      generation, phase, latestVersion, checkSource, offeredSource := 0, Idle, None, channel, None;
      downloadedVersion, downloadPercent, failure, restartRequested := None, None, None, false;
      library, running := NotLoaded, None;
    }

    /** A check begins, and is over at once on a development build. */
    method RunCheck()
      requires Valid() && Enabled(View(), BeginCheck)
      modifies this
      ensures Valid() && View() == Next(old(View()), BeginCheck, current)
      ensures running == if current == DEVELOPMENT then None else Some(generation)
    {
      if current == DEVELOPMENT {
        return;
      }
      running := Some(generation);
      if phase != Downloading && phase != Ready {
        phase := Checking;
      }
      failure := None;
    }

    method GetUpdater(ok: bool)
      requires Valid() && Enabled(View(), Load(ok))
      modifies this`library
      ensures Valid() && View() == Next(old(View()), Load(ok), current)
    {
      library := if ok then Loaded else LoadFailed;
    }

    /** The stable channel has one source; beta takes the source selected, or its own when neither can be read. */
    method CheckInPlace(beta: Probe, stable: Probe) returns (source: Source)
      requires Valid() && Enabled(View(), ChooseSource(Stable))
      modifies this`checkSource
      ensures Valid() && View() == Next(old(View()), ChooseSource(source), current)
      ensures source == if channel == Stable then Stable
                        else if SelectSource(channel, beta, stable).Ok?
                        then SelectSource(channel, beta, stable).value.source else Beta
    {
      if channel == Stable {
        source := Stable;
      } else {
        var selected := SelectSource(channel, beta, stable);
        source := if selected.Ok? then selected.value.source else Beta;
      }
      checkSource := source;
    }

    /** A build that cannot install is only told: the error of a probe is left to the end of the check. */
    method CheckForNotice(supported: bool, beta: Probe, stable: Probe) returns (error: Option<string>)
      requires Valid() && Enabled(View(), OnNotice(NoMetadata))
      modifies this
      ensures Valid()
      ensures var selected := SelectSource(old(channel), beta, stable);
        && (error.Some? <==> supported && selected.Err?)
        && (!supported ==> View() == Next(old(View()), OnNotice(NoMetadata), current))
        && (supported && selected.Ok? ==> View() == Next(old(View()), OnNotice(Found(selected.value)), current))
        && (error.Some? ==> View() == old(View()))
    {
      if !supported {
        phase := Idle;
        return None;
      }
      var selected := SelectSource(channel, beta, stable);
      if selected.Err? {
        return Some(selected.error);
      }
      checkSource := selected.value.source;
      var sign := CompareVersions(Some(selected.value.version), Some(current));
      if sign > 0 {
        latestVersion, offeredSource, phase := Some(selected.value.version), Some(selected.value.source), Available;
      } else {
        latestVersion, offeredSource, phase := None, None, Idle;
      }
      return None;
    }

    method HandleChecking()
      requires Valid() && Enabled(View(), OnChecking)
      modifies this`phase
      ensures Valid() && View() == Next(old(View()), OnChecking, current)
    {
      if phase != Downloading && downloadedVersion == None {
        phase := Checking;
      }
    }

    method HandleAvailable(version: Option<Version>)
      requires Valid() && Enabled(View(), OnAvailable(version))
      modifies this
      ensures Valid() && View() == Next(old(View()), OnAvailable(version), current)
    {
      if version == None {
        return;
      }
      latestVersion := version;
      offeredSource := Some(checkSource);
      failure := None;
      if downloadedVersion != version {
        phase := Downloading;
        downloadPercent := Some(0.0);
      }
    }

    method HandleNotAvailable()
      requires Valid() && Enabled(View(), OnNotAvailable)
      modifies this
      ensures Valid() && View() == Next(old(View()), OnNotAvailable, current)
    {
      if downloadedVersion == None {
        phase := Idle;
        latestVersion := None;
        offeredSource := None;
      }
    }

    method HandleProgress(percent: Option<real>)
      requires Valid() && Enabled(View(), OnProgress(percent))
      modifies this`downloadPercent
      ensures Valid() && View() == Next(old(View()), OnProgress(percent), current)
    {
      if percent.Some? {
        downloadPercent := Some(Clamp(percent.value));
      }
    }

    method HandleDownloaded(version: Option<Version>)
      requires Valid() && Enabled(View(), OnDownloaded(version))
      modifies this
      ensures Valid() && View() == Next(old(View()), OnDownloaded(version), current)
    {
      if version == None {
        return;
      }
      downloadedVersion := version;
      latestVersion := version;
      offeredSource := Some(checkSource);
      downloadPercent := Some(100.0);
      failure := None;
      phase := Ready;
    }

    method HandleError(message: string)
      requires Valid() && Enabled(View(), OnError(message))
      modifies this
      ensures Valid() && View() == Next(old(View()), OnError(message), current)
    {
      failure := Some(message);
      if downloadedVersion.Some? {
        phase := Ready;
        latestVersion := downloadedVersion;
        downloadPercent := Some(100.0);
      } else {
        downloadPercent := None;
        phase := if latestVersion.Some? then Available else Failed;
      }
    }

    /** The end of a check: an error counts only in the generation the check started in. */
    method FinishCheck(error: Option<string>)
      requires Valid() && Enabled(View(), EndCheck(error))
      modifies this
      ensures Valid() && View() == Next(old(View()), EndCheck(error), current)
    {
      if error.Some? && running == Some(generation) {
        failure := error;
        if downloadedVersion.Some? {
          phase := Ready;
        } else {
          phase := if latestVersion.Some? then Available else Failed;
        }
      }
      if phase == Checking {
        phase := if latestVersion.Some? then Available else Idle;
      }
    }

    method SettleCheck()
      requires Valid() && Enabled(View(), Settle)
      modifies this`running
      ensures Valid() && View() == Next(old(View()), Settle, current)
    {
      running := None;
    }

    method ChangeChannel(next: Source)
      requires Valid()
      modifies this
      ensures Valid() && View() == Next(old(View()), SetChannel(next), current)
    {
      if next == channel {
        return;
      }
      channel := next;
      generation := generation + 1;
      latestVersion := None;
      if downloadedVersion == None {
        phase := Idle;
        offeredSource := None;
      }
    }

    /** Granted exactly when a download is waiting, on a build that can install it. */
    method RequestRestartToUpdate() returns (granted: bool)
      requires Valid()
      modifies this`restartRequested
      ensures Valid() && View() == Next(old(View()), RequestRestart, current)
      ensures granted <==> installable && downloadedVersion.Some?
    {
      if !installable || downloadedVersion == None {
        return false;
      }
      restartRequested := true;
      return true;
    }

    method CancelRestartToUpdate()
      requires Valid()
      modifies this`restartRequested
      ensures Valid() && View() == Next(old(View()), CancelRestart, current)
    {
      restartRequested := false;
    }

    /** The last quit: a requested restart installs and relaunches, once, and where that is not requested or
        fails the program quits all the same. */
    method Quit(installFails: bool) returns (installed: bool, quit: bool)
      requires Valid()
      modifies this`restartRequested
      ensures Valid() && View() == Next(old(View()), FinishQuit, current)
      ensures installed == (old(restartRequested) && !installFails) && quit == !installed && !restartRequested
    {
      if !restartRequested || downloadedVersion == None || library.NotLoaded? {
        return false, true;
      }
      restartRequested := false;
      if library.LoadFailed? || installFails {
        return false, true;
      }
      return true, false;
    }
  }
}
