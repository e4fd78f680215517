/** The install steps of a platform profile and the fixed pipeline that runs
    them: look in the tool cache, and on a miss download, extract, register
    in the cache, bootstrap dependencies, post-install, and test one run.
    Each step dispatches to the platform's own definition or to the base
    class's default. */
module InstallSteps {
  import opened Results
  import opened Effects
  import opened Paths
  import opened Platforms
  import PosixSteps
  import LinuxSteps
  import DarwinSteps
  import WindowsSteps

  const DownloadBase := "https://steamcdn-a.akamaihd.net/client/installer/"

  /** The cache identity of the tool: name, version and architecture. */
  const ToolName := "steamcmd"
  const ToolVersion := "latest"
  const ToolArch := "i386"

  /** The cache lookup every installation starts with. It names no architecture, unlike the registration under ToolArch. */
  const CacheProbe := Find(ToolName, ToolVersion)

  // ----- Defaults of the base class -----

  /** A profile without its own extraction cannot extract. */
  function DefaultExtractArchive(archive: string): (r: Run<string>)
    ensures r.result == Err(NotImplemented)
    ensures r.trace == []
  {
    Run(Err(NotImplemented), [])
  }

  /** A profile without its own first-run test cannot pass it. */
  function DefaultTestFirstTimeRun(exe: string): (r: Run<()>)
    ensures r.result == Err(NotImplemented)
    ensures r.trace == []
  {
    Run(Err(NotImplemented), [])
  }

  /** Without dependencies to install, the step succeeds and does nothing. */
  function DefaultInstallDependencies(): (r: Run<()>)
    ensures r.result.Ok? && r.trace == []
  {
    Run(Ok(()), [])
  }

  /** Without a post-install hook, the step succeeds and does nothing. */
  function DefaultPostInstall(dir: string): (r: Run<()>)
    ensures r.result.Ok? && r.trace == []
  {
    Run(Ok(()), [])
  }

  // ----- The profile of each platform -----

  /** The remote archive: a zip on Windows, a gzipped tar elsewhere. */
  function ArchiveName(p: Platform): string
  {
    match p
    case Darwin => DarwinSteps.ArchiveName
    case Linux => LinuxSteps.ArchiveName
    case Windows => WindowsSteps.ArchiveName
  }

  /** The tool's entry point in an install directory. */
  function ExecutablePath(p: Platform, dir: string): string
  {
    if p.Windows? then WindowsSteps.ExecutablePath(dir) else PosixSteps.ExecutablePath(dir)
  }

  /** The location record of an install directory. */
  function GetInfo(p: Platform, dir: string): Info
  {
    if p.Windows? then WindowsSteps.GetInfo(dir) else PosixSteps.GetInfo(dir)
  }

  /** Every archive is a plain `steamcmd` file name: a zip on Windows and a
      gzipped tar elsewhere. */
  lemma ArchiveNameShapes(p: Platform)
    ensures var name := ArchiveName(p);
      && |name| >= 8 && name[..8] == "steamcmd"
      && '/' !in name && '\\' !in name
      && (p.Windows? ==> |name| >= 4 && name[|name| - 4..] == ".zip")
      && (!p.Windows? ==> |name| >= 7 && name[|name| - 7..] == ".tar.gz")
  {
  }

  /** What a location record says on every platform: the entry point it
      names is the one the first run executes and is `steamcmd.exe` or
      `steamcmd.sh` right inside the reported install directory; the PATH
      entry is the install directory on Windows and its `bin` elsewhere. */
  lemma InfoLayout(p: Platform, dir: string)
    ensures var info := GetInfo(p, dir);
      && info.executable == ExecutablePath(p, dir)
      && Parent(info.executable, '/') == info.directory
      && Base(info.executable, '/') == (if p.Windows? then "steamcmd.exe" else "steamcmd.sh")
      && (p.Windows? ==> info.directory == ForwardSlashes(dir) == info.binDirectory && '\\' !in info.executable)
      && (!p.Windows? ==> info.directory == dir && Parent(info.binDirectory, '/') == dir
                          && Base(info.binDirectory, '/') == "bin")
  {
    if p.Windows? { WindowsSteps.WindowsLayout(dir); } else { PosixSteps.PosixLayout(dir); }
  }

  /** The extractor call each platform makes: zip on Windows, tar elsewhere. */
  function ExtractEvent(p: Platform, archive: string): Event
  {
    if p.Windows? then ExtractZip(archive, ExtractDestination) else ExtractTar(archive, ExtractDestination)
  }

  function ExtractArchive(p: Platform, archive: string, h: Host): (r: Run<string>)
    ensures r.trace == [ExtractEvent(p, archive)]
    ensures r.result == Lift(h.extracted)
  {
    if p.Windows? then WindowsSteps.ExtractArchive(archive, h) else PosixSteps.ExtractArchive(archive, h)
  }

  /** Only Linux bootstraps dependencies, and only by running commands. */
  function InstallDependencies(p: Platform, h: Host): (r: Run<()>)
    ensures forall i :: 0 <= i < |r.trace| ==> r.trace[i].Exec?
    ensures !p.Linux? ==> r.result.Ok? && r.trace == []
  {
    if p.Linux? then LinuxSteps.InstallDependencies(h) else DefaultInstallDependencies()
  }

  /** Linux and Darwin write the shim; Windows touches nothing. */
  function PostInstall(p: Platform, dir: string, h: Host): (r: Run<()>)
    ensures forall i :: 0 <= i < |r.trace| ==> r.trace[i].Mkdir? || r.trace[i].WriteFile? || r.trace[i].Chmod?
    ensures p.Windows? ==> r.result.Ok? && r.trace == []
    ensures !p.Windows? ==> r.trace <= PosixSteps.ShimEffects(dir)
    ensures !p.Windows? ==> (r.result.Ok? <==> h.mkdirReply.Done? && h.writeFileReply.Done? && h.chmodReply.Done?)
  {
    if p.Windows? then DefaultPostInstall(dir) else PosixSteps.PostInstall(dir, h)
  }

  /** The one run of the tool: the process runner rejects a non-zero exit
      on Linux and Darwin, while Windows reads the code itself. */
  function FirstRunEvent(p: Platform, exe: string): Event
  {
    Exec(exe, ["+quit"], p.Windows?)
  }

  function TestFirstTimeRun(p: Platform, exe: string, h: Host): (r: Run<()>)
    ensures r.trace == [FirstRunEvent(p, exe)]
    ensures r.result.Ok? <==> h.firstRunStatus == 0 || (p.Windows? && h.firstRunStatus == 7)
  {
    if p.Windows? then WindowsSteps.TestFirstTimeRun(exe, h) else PosixSteps.TestFirstTimeRun(exe, h)
  }

  // ----- The shared steps -----

  /** The download URL is the fixed base followed by the archive name, and
      the archive name comes with it. */
  function DownloadUrl(p: Platform): (r: (string, string))
    ensures r.1 == ArchiveName(p)
    ensures |r.0| == |DownloadBase| + |r.1|
    ensures r.0[..|DownloadBase|] == DownloadBase && r.0[|DownloadBase|..] == r.1
  {
    var archiveName := ArchiveName(p);
    (DownloadBase + archiveName, archiveName)
  }

  /** RUNNER_TEMP, which must be defined. */
  function TempDirectory(h: Host): (r: Result<string>)
    ensures r.Ok? <==> h.runnerTemp.Some?
    ensures r.Ok? ==> r.value == h.runnerTemp.value
    ensures r.Err? ==> r.error == RunnerTempUndefined
  {
    match h.runnerTemp
    case None => Err(RunnerTempUndefined)
    case Some(dir) => Ok(dir)
  }

  /** The download call: from the download URL into the temp directory
      under the archive's own name, joined with the host's separator. */
  function DownloadEvent(p: Platform, temp: string): Event
  {
    Download(DownloadUrl(p).0, Join(temp, ArchiveName(p), Sep(p)))
  }

  /** Downloads the archive; without RUNNER_TEMP nothing is downloaded. */
  function DownloadArchive(p: Platform, h: Host): (r: Run<string>)
    ensures h.runnerTemp.None? ==> r == Run(Err(RunnerTempUndefined), [])
    ensures h.runnerTemp.Some? ==> r == Run(Lift(h.downloaded), [DownloadEvent(p, h.runnerTemp.value)])
  {
    var (downloadUrl, archiveName) := DownloadUrl(p);
    match TempDirectory(h)
    case Err(e) => Run(Err(e), [])
    case Ok(temp) => Run(Lift(h.downloaded), [Download(downloadUrl, Join(temp, archiveName, Sep(p)))])
  }

  /** The registration call: always under the fixed name, version and
      architecture. */
  function CacheEvent(dir: string): Event
  {
    CacheDir(dir, ToolName, ToolVersion, ToolArch)
  }

  /** Registers the extracted directory in the tool cache. */
  function CacheInstalledTool(extractDir: string, h: Host): (r: Run<string>)
    ensures r.trace == [CacheDir(extractDir, "steamcmd", "latest", "i386")]
    ensures r.result == Lift(h.cached)
  {
    Run(Lift(h.cached), [CacheEvent(extractDir)])
  }

  // ----- The pipeline -----

  /** Calls made by the dependency, post-install and first-run steps. */
  predicate AllSetup(t: seq<Event>)
  {
    forall i :: 0 <= i < |t| ==> IsSetup(t[i])
  }

  /** No cache lookups and no reports to the host runner. */
  predicate Quiet(t: seq<Event>)
  {
    forall i :: 0 <= i < |t| ==> !t[i].Find? && !IsReport(t[i])
  }

  // The fresh install as a chain of stages, one per awaited step: each
  // stage runs its step and, only when that step succeeded, the rest.

  /** A step without a value, then `rest` when the step succeeded: the
      step's failure is the outcome and nothing of `rest` happens. */
  function Then<T>(step: Run<()>, rest: Run<T>): (r: Run<T>)
    ensures step.result.Err? ==> r == Run(Err(step.result.error), step.trace)
    ensures step.result.Ok? ==> r == Run(rest.result, step.trace + rest.trace)
  {
    if step.result.Err? then Run(Err(step.result.error), step.trace)
    else Run(rest.result, step.trace + rest.trace)
  }

  /** The first run of the registered directory's entry point, then its
      location record. */
  function VerifyStage(p: Platform, cachedDir: string, h: Host): (r: Run<Info>)
    ensures r.trace == [FirstRunEvent(p, ExecutablePath(p, cachedDir))]
    ensures r.result.Ok? <==> h.firstRunStatus == 0 || (p.Windows? && h.firstRunStatus == 7)
    ensures r.result.Ok? ==> r.result.value == GetInfo(p, cachedDir)
    ensures r.result.Err? ==> r.result.error == TestFirstTimeRun(p, ExecutablePath(p, cachedDir), h).result.error
  {
    var firstRun := TestFirstTimeRun(p, ExecutablePath(p, cachedDir), h);
    if firstRun.result.Err? then Run(Err(firstRun.result.error), firstRun.trace)
    else Run(Ok(GetInfo(p, cachedDir)), firstRun.trace)
  }

  /** The post-install hook on the registered directory, then the first run:
      a failed hook is the outcome and the tool is not run; otherwise the
      first run decides, and success yields the directory's record. */
  function PostInstallStage(p: Platform, cachedDir: string, h: Host): (r: Run<Info>)
    ensures AllSetup(r.trace)
    ensures var post := PostInstall(p, cachedDir, h);
      post.result.Err? ==> r == Run(Err(post.result.error), post.trace)
    ensures var post, verify := PostInstall(p, cachedDir, h), VerifyStage(p, cachedDir, h);
      post.result.Ok? ==> r == Run(verify.result, post.trace + verify.trace)
    ensures r.result.Ok? ==> r.result.value == GetInfo(p, cachedDir)
  {
    Then(PostInstall(p, cachedDir, h), VerifyStage(p, cachedDir, h))
  }

  /** The dependency bootstrap, then the post-install hook: a failed
      bootstrap is the outcome and nothing after it runs; otherwise its
      calls come before those of the post-install stage. */
  function DependencyStage(p: Platform, cachedDir: string, h: Host): (r: Run<Info>)
    ensures AllSetup(r.trace)
    ensures var deps := InstallDependencies(p, h);
      deps.result.Err? ==> r == Run(Err(deps.result.error), deps.trace)
    ensures var deps, post := InstallDependencies(p, h), PostInstallStage(p, cachedDir, h);
      deps.result.Ok? ==> r == Run(post.result, deps.trace + post.trace)
    ensures r.result.Ok? ==>
      && r.result.value == GetInfo(p, cachedDir)
      && |r.trace| >= 1 && r.trace[|r.trace| - 1] == FirstRunEvent(p, ExecutablePath(p, cachedDir))
  {
    Then(InstallDependencies(p, h), PostInstallStage(p, cachedDir, h))
  }

  /** Dependency and post-install effects neither look in the cache nor
      report to the runner. */
  lemma AllSetupIsQuiet(t: seq<Event>)
    requires AllSetup(t)
    ensures Quiet(t)
  {
  }

  /** One more quiet call in front keeps a trace quiet. */
  lemma QuietCons(e: Event, t: seq<Event>)
    requires !e.Find? && !IsReport(e) && Quiet(t)
    ensures Quiet([e] + t)
  {
    assert forall i :: 1 <= i < |[e] + t| ==> ([e] + t)[i] == t[i - 1];
  }

  /** Registration of the extracted directory, then the remaining steps on
      the directory the cache registered. */
  function CacheStage(p: Platform, extractDir: string, h: Host): (r: Run<Info>)
    ensures |r.trace| >= 1 && r.trace[0] == CacheEvent(extractDir)
    ensures Quiet(r.trace)
    ensures r.result.Ok? ==> h.cached.Done? && r.result.value == GetInfo(p, h.cached.value)
    ensures h.cached.Failed? ==> r == Run(Err(External(h.cached.reason)), [CacheEvent(extractDir)])
    ensures h.cached.Done? ==>
      r == Run(DependencyStage(p, h.cached.value, h).result,
               [CacheEvent(extractDir)] + DependencyStage(p, h.cached.value, h).trace)
  {
    var cache := CacheInstalledTool(extractDir, h);
    if cache.result.Err? then Run(Err(cache.result.error), cache.trace)
    else
      var rest := DependencyStage(p, cache.result.value, h);
      AllSetupIsQuiet(rest.trace);
      QuietCons(CacheEvent(extractDir), rest.trace);
      Run(rest.result, cache.trace + rest.trace)
  }

  /** Extraction of the downloaded archive, then registration. */
  function ExtractStage(p: Platform, archive: string, h: Host): (r: Run<Info>)
    ensures |r.trace| >= 1 && r.trace[0] == ExtractEvent(p, archive)
    ensures Quiet(r.trace)
    ensures r.result.Ok? ==>
      h.extracted.Done? && h.cached.Done? && r.result.value == GetInfo(p, h.cached.value)
    ensures h.extracted.Failed? ==> r == Run(Err(External(h.extracted.reason)), [ExtractEvent(p, archive)])
    ensures h.extracted.Done? ==>
      r == Run(CacheStage(p, h.extracted.value, h).result,
               [ExtractEvent(p, archive)] + CacheStage(p, h.extracted.value, h).trace)
  {
    var extract := ExtractArchive(p, archive, h);
    if extract.result.Err? then Run(Err(extract.result.error), extract.trace)
    else
      var rest := CacheStage(p, extract.result.value, h);
      QuietCons(ExtractEvent(p, archive), rest.trace);
      Run(rest.result, extract.trace + rest.trace)
  }

  /** The fresh install: download, extract the downloaded archive, register
      the extracted directory, bootstrap dependencies, post-install and
      test one run on the registered directory. The first failure ends the
      run with that failure. It never looks in the cache again and never
      reports to the runner, and on success it reports the record of the
      directory the cache registered, not of the extracted one. */
  function Install(p: Platform, h: Host): (r: Run<Info>)
    ensures Quiet(r.trace)
    ensures r.result.Ok? ==>
      && h.runnerTemp.Some? && h.downloaded.Done? && h.extracted.Done? && h.cached.Done?
      && r.result.value == GetInfo(p, h.cached.value)
    ensures h.runnerTemp.None? ==> r == Run(Err(RunnerTempUndefined), [])
    ensures h.runnerTemp.Some? && h.downloaded.Failed? ==>
      r == Run(Err(External(h.downloaded.reason)), [DownloadEvent(p, h.runnerTemp.value)])
    ensures h.runnerTemp.Some? && h.downloaded.Done? ==>
      r == Run(ExtractStage(p, h.downloaded.value, h).result,
               [DownloadEvent(p, h.runnerTemp.value)] + ExtractStage(p, h.downloaded.value, h).trace)
  {
    var download := DownloadArchive(p, h);
    if download.result.Err? then Run(Err(download.result.error), download.trace)
    else
      var rest := ExtractStage(p, download.result.value, h);
      QuietCons(DownloadEvent(p, h.runnerTemp.value), rest.trace);
      Run(rest.result, download.trace + rest.trace)
  }

  /** Looks in the tool cache first. A non-empty answer is trusted as is:
      its location record is returned and nothing else happens. An empty
      answer is a miss and runs the fresh install. */
  function InstallIfNecessary(p: Platform, h: Host): (r: Run<Info>)
    ensures |r.trace| >= 1 && r.trace[0] == Find("steamcmd", "latest")
    ensures h.found != "" ==> r == Run(Ok(GetInfo(p, h.found)), [Find("steamcmd", "latest")])
    ensures h.found == "" ==> r == Run(Install(p, h).result, [Find("steamcmd", "latest")] + Install(p, h).trace)
  {
    var installDir := h.found;
    if installDir != "" then Run(Ok(GetInfo(p, installDir)), [CacheProbe])
    else
      var install := Install(p, h);
      Run(install.result, [CacheProbe] + install.trace)
  }

  // ----- What the pipeline promises -----

  /** Setup calls appended to a trace are setup calls at their new places,
      and the last of them ends the whole trace. */
  lemma SetupAfter(head: seq<Event>, rest: seq<Event>)
    requires AllSetup(rest)
    ensures forall i :: |head| <= i < |head + rest| ==> IsSetup((head + rest)[i])
    ensures |rest| >= 1 ==> (head + rest)[|head + rest| - 1] == rest[|rest| - 1]
  {
    assert forall i :: |head| <= i < |head + rest| ==> (head + rest)[i] == rest[i - |head|];
  }

  /** When the download, extraction and registration all succeed, the fresh
      install is those three calls followed by the steps on the registered
      directory. */
  lemma InstallUnfolds(p: Platform, h: Host)
    requires h.runnerTemp.Some? && h.downloaded.Done? && h.extracted.Done? && h.cached.Done?
    ensures var rest := DependencyStage(p, h.cached.value, h);
      Install(p, h) == Run(rest.result, [DownloadEvent(p, h.runnerTemp.value), ExtractEvent(p, h.downloaded.value),
                                         CacheEvent(h.extracted.value)] + rest.trace)
  {
    var rest := DependencyStage(p, h.cached.value, h);
    var a, b, c := [DownloadEvent(p, h.runnerTemp.value)], [ExtractEvent(p, h.downloaded.value)],
                   [CacheEvent(h.extracted.value)];
    Reassociate(b, c, rest.trace);
    Reassociate(a, b + c, rest.trace);
  }

  /** A miss whose download, extraction and registration succeed: the
      lookup and those three calls, then the steps on the registered
      directory. */
  lemma MissUnfolds(p: Platform, h: Host)
    requires h.found == ""
    requires h.runnerTemp.Some? && h.downloaded.Done? && h.extracted.Done? && h.cached.Done?
    ensures var rest := DependencyStage(p, h.cached.value, h);
      InstallIfNecessary(p, h) == Run(rest.result, [CacheProbe, DownloadEvent(p, h.runnerTemp.value),
                                      ExtractEvent(p, h.downloaded.value), CacheEvent(h.extracted.value)] + rest.trace)
  {
    var a, b, c, d := CacheProbe, DownloadEvent(p, h.runnerTemp.value), ExtractEvent(p, h.downloaded.value),
                      CacheEvent(h.extracted.value);
    assert [a] + [b, c, d] == [a, b, c, d];
    var rest := DependencyStage(p, h.cached.value, h);
    Reassociate([a], [b, c, d], rest.trace);
    InstallUnfolds(p, h);
  }

  /** Installing, found or fresh, never reports to the runner: outputs and
      PATH belong to the caller. */
  lemma InstallIfNecessaryReportsNothing(p: Platform, h: Host)
    ensures var t := InstallIfNecessary(p, h).trace;
      forall i :: 0 <= i < |t| ==> !IsReport(t[i])
  {
    if h.found == "" {
      QuietAfterProbe(Install(p, h).trace);
    }
  }

  /** The cache lookup in front of a quiet trace reports nothing. */
  lemma QuietAfterProbe(t: seq<Event>)
    requires Quiet(t)
    ensures forall i :: 0 <= i < |[CacheProbe] + t| ==> !IsReport(([CacheProbe] + t)[i])
  {
    assert forall i :: 1 <= i < |[CacheProbe] + t| ==> ([CacheProbe] + t)[i] == t[i - 1];
  }

  /** A miss with a successful install runs every step exactly once and in
      order: the cache lookup, one download, one extraction of the
      downloaded archive, one registration of the extracted directory, then
      only dependency and post-install effects, and last the first run of
      the registered directory's entry point. */
  lemma CacheMissRunsEveryStepInOrder(p: Platform, h: Host)
    requires h.found == ""
    requires InstallIfNecessary(p, h).result.Ok?
    ensures h.runnerTemp.Some? && h.downloaded.Done? && h.extracted.Done? && h.cached.Done?
    ensures InstallIfNecessary(p, h).result.value == GetInfo(p, h.cached.value)
    ensures var t := InstallIfNecessary(p, h).trace;
      && |t| >= 5
      && t[0] == CacheProbe
      && t[1] == DownloadEvent(p, h.runnerTemp.value)
      && t[2] == ExtractEvent(p, h.downloaded.value)
      && t[3] == CacheEvent(h.extracted.value)
      && (forall i :: 4 <= i < |t| ==> IsSetup(t[i]))
      && t[|t| - 1] == FirstRunEvent(p, ExecutablePath(p, h.cached.value))
  {
    assert Install(p, h).result.Ok?;
    MissUnfolds(p, h);
    var rest := DependencyStage(p, h.cached.value, h).trace;
    MissShape(CacheProbe, DownloadEvent(p, h.runnerTemp.value), ExtractEvent(p, h.downloaded.value),
              CacheEvent(h.extracted.value), rest);
  }

  /** Four calls in front of setup calls: each keeps its place, the setup
      calls follow, and the last of them ends the whole trace. */
  lemma MissShape(a: Event, b: Event, c: Event, d: Event, rest: seq<Event>)
    requires AllSetup(rest)
    ensures var t := [a, b, c, d] + rest;
      && |t| == 4 + |rest| && t[0] == a && t[1] == b && t[2] == c && t[3] == d
      && (forall i :: 4 <= i < |t| ==> IsSetup(t[i]))
      && (|rest| >= 1 ==> t[|t| - 1] == rest[|rest| - 1])
  {
    SetupAfter([a, b, c, d], rest);
  }

  /** On a miss with a successful install the lookup, the download, the
      extraction and the registration each happen exactly once. */
  lemma CacheMissRunsEachStepOnce(p: Platform, h: Host)
    requires h.found == ""
    requires InstallIfNecessary(p, h).result.Ok?
    ensures var t := InstallIfNecessary(p, h).trace;
      forall i :: 0 <= i < |t| ==>
        && (t[i].Find? <==> i == 0)
        && (t[i].Download? <==> i == 1)
        && (t[i].ExtractTar? || t[i].ExtractZip? <==> i == 2)
        && (t[i].CacheDir? <==> i == 3)
  {
    CacheMissRunsEveryStepInOrder(p, h);
    var t := InstallIfNecessary(p, h).trace;
    assert t[2].ExtractTar? || t[2].ExtractZip?;
    PipelineShapeOnce(t);
  }

  /** A lookup, a download, an extraction and a registration followed by
      setup calls only: each of the four kinds occurs at its one place. */
  lemma PipelineShapeOnce(t: seq<Event>)
    requires |t| >= 4 && t[0].Find? && t[1].Download? && (t[2].ExtractTar? || t[2].ExtractZip?) && t[3].CacheDir?
    requires forall i :: 4 <= i < |t| ==> IsSetup(t[i])
    ensures forall i :: 0 <= i < |t| ==>
      && (t[i].Find? <==> i == 0)
      && (t[i].Download? <==> i == 1)
      && (t[i].ExtractTar? || t[i].ExtractZip? <==> i == 2)
      && (t[i].CacheDir? <==> i == 3)
  {
  }

  /** The fresh install succeeds exactly when every collaborator it calls
      answers: RUNNER_TEMP is defined, the download, the extraction and the
      registration resolve, on Linux the apt refresh succeeds and the
      package is installed or already present, on Linux and Darwin the three
      shim calls resolve, and the first run exits 0, or 7 on Windows. */
  lemma InstallSucceedsExactlyWhen(p: Platform, h: Host)
    ensures Install(p, h).result.Ok? <==>
      && h.runnerTemp.Some? && h.downloaded.Done? && h.extracted.Done? && h.cached.Done?
      && (p.Linux? ==>
            h.aptUpdateStatus == 0 && (h.aptInstallStatus == 0 || h.dpkgStatus("lib32gcc-s1") == 0))
      && (!p.Windows? ==> h.mkdirReply.Done? && h.writeFileReply.Done? && h.chmodReply.Done?)
      && (h.firstRunStatus == 0 || (p.Windows? && h.firstRunStatus == 7))
  {
    if h.runnerTemp.Some? && h.downloaded.Done? && h.extracted.Done? && h.cached.Done? {
      InstallUnfolds(p, h);
    }
  }

  /** A failure before anything is installed ends the install with that
      failure, and the trace stops with the failing call. */
  lemma EarlyFailureStopsInstall(p: Platform, h: Host)
    ensures h.runnerTemp.None? ==> Install(p, h) == Run(Err(RunnerTempUndefined), [])
    ensures h.runnerTemp.Some? && h.downloaded.Failed? ==>
      Install(p, h) == Run(Err(External(h.downloaded.reason)), [DownloadEvent(p, h.runnerTemp.value)])
    ensures h.runnerTemp.Some? && h.downloaded.Done? && h.extracted.Failed? ==>
      Install(p, h) == Run(Err(External(h.extracted.reason)),
                           [DownloadEvent(p, h.runnerTemp.value), ExtractEvent(p, h.downloaded.value)])
    ensures h.runnerTemp.Some? && h.downloaded.Done? && h.extracted.Done? && h.cached.Failed? ==>
      Install(p, h) == Run(Err(External(h.cached.reason)),
                           [DownloadEvent(p, h.runnerTemp.value), ExtractEvent(p, h.downloaded.value),
                            CacheEvent(h.extracted.value)])
  {
    if h.runnerTemp.Some? && h.downloaded.Done? && h.extracted.Done? && h.cached.Failed? {
      var d, e, c := DownloadEvent(p, h.runnerTemp.value), ExtractEvent(p, h.downloaded.value), CacheEvent(h.extracted.value);
      assert [d] + ([e] + [c]) == [d, e, c];
    } else if h.runnerTemp.Some? && h.downloaded.Done? && h.extracted.Failed? {
      var d, e := DownloadEvent(p, h.runnerTemp.value), ExtractEvent(p, h.downloaded.value);
      assert [d] + [e] == [d, e];
    }
  }

  /** Once the tool is registered, a failing dependency, post-install or
      first-run step ends the install with its own error, and nothing after
      the failing step runs. */
  lemma SetupFailureStopsInstall(p: Platform, h: Host)
    requires h.runnerTemp.Some? && h.downloaded.Done? && h.extracted.Done? && h.cached.Done?
    ensures var prefix := [DownloadEvent(p, h.runnerTemp.value), ExtractEvent(p, h.downloaded.value),
                           CacheEvent(h.extracted.value)];
      var deps := InstallDependencies(p, h);
      var post := PostInstall(p, h.cached.value, h);
      var exe := ExecutablePath(p, h.cached.value);
      && (deps.result.Err? ==> Install(p, h) == Run(Err(deps.result.error), prefix + deps.trace))
      && (deps.result.Ok? && post.result.Err? ==>
            Install(p, h) == Run(Err(post.result.error), prefix + deps.trace + post.trace))
      && (deps.result.Ok? && post.result.Ok? && TestFirstTimeRun(p, exe, h).result.Err? ==>
            Install(p, h) == Run(Err(TestFirstTimeRun(p, exe, h).result.error),
                                 prefix + deps.trace + post.trace + [FirstRunEvent(p, exe)]))
  {
    var deps := InstallDependencies(p, h);
    var post := PostInstall(p, h.cached.value, h);
    if deps.result.Err? {
      DependencyFailureStopsInstall(p, h);
    } else if post.result.Err? {
      PostInstallFailureStopsInstall(p, h);
    } else if TestFirstTimeRun(p, ExecutablePath(p, h.cached.value), h).result.Err? {
      FirstRunFailureStopsInstall(p, h);
    }
  }

  /** A failed dependency step ends the install right after its calls. */
  lemma DependencyFailureStopsInstall(p: Platform, h: Host)
    requires h.runnerTemp.Some? && h.downloaded.Done? && h.extracted.Done? && h.cached.Done?
    requires InstallDependencies(p, h).result.Err?
    ensures Install(p, h) == Run(Err(InstallDependencies(p, h).result.error),
      [DownloadEvent(p, h.runnerTemp.value), ExtractEvent(p, h.downloaded.value), CacheEvent(h.extracted.value)]
      + InstallDependencies(p, h).trace)
  {
    InstallUnfolds(p, h);
  }

  /** A failed post-install ends the install right after its calls, before
      the tool is run. */
  lemma PostInstallFailureStopsInstall(p: Platform, h: Host)
    requires h.runnerTemp.Some? && h.downloaded.Done? && h.extracted.Done? && h.cached.Done?
    requires InstallDependencies(p, h).result.Ok? && PostInstall(p, h.cached.value, h).result.Err?
    ensures Install(p, h) == Run(Err(PostInstall(p, h.cached.value, h).result.error),
      [DownloadEvent(p, h.runnerTemp.value), ExtractEvent(p, h.downloaded.value), CacheEvent(h.extracted.value)]
      + InstallDependencies(p, h).trace + PostInstall(p, h.cached.value, h).trace)
  {
    InstallUnfolds(p, h);
    var prefix := [DownloadEvent(p, h.runnerTemp.value), ExtractEvent(p, h.downloaded.value), CacheEvent(h.extracted.value)];
    var deps, post := InstallDependencies(p, h).trace, PostInstall(p, h.cached.value, h).trace;
    assert prefix + (deps + post) == prefix + deps + post;
  }

  /** A failed first run ends the install with its error, after every
      earlier call. */
  lemma FirstRunFailureStopsInstall(p: Platform, h: Host)
    requires h.runnerTemp.Some? && h.downloaded.Done? && h.extracted.Done? && h.cached.Done?
    requires InstallDependencies(p, h).result.Ok? && PostInstall(p, h.cached.value, h).result.Ok?
    requires TestFirstTimeRun(p, ExecutablePath(p, h.cached.value), h).result.Err?
    ensures var exe := ExecutablePath(p, h.cached.value);
      Install(p, h) == Run(Err(TestFirstTimeRun(p, exe, h).result.error),
        [DownloadEvent(p, h.runnerTemp.value), ExtractEvent(p, h.downloaded.value), CacheEvent(h.extracted.value)]
        + InstallDependencies(p, h).trace + PostInstall(p, h.cached.value, h).trace + [FirstRunEvent(p, exe)])
  {
    InstallUnfolds(p, h);
    var prefix := [DownloadEvent(p, h.runnerTemp.value), ExtractEvent(p, h.downloaded.value), CacheEvent(h.extracted.value)];
    var deps, post := InstallDependencies(p, h).trace, PostInstall(p, h.cached.value, h).trace;
    var run := [FirstRunEvent(p, ExecutablePath(p, h.cached.value))];
    Reassociate(deps, post, run);
    Reassociate(prefix, deps + post, run);
    Reassociate(prefix, deps, post);
  }

  /** On Windows a successful fresh install makes exactly the five calls of
      the pipeline: no dependency, filesystem or extra process effects. */
  lemma WindowsInstallHasNoSetupEffects(h: Host)
    requires h.found == "" && InstallIfNecessary(Windows, h).result.Ok?
    ensures InstallIfNecessary(Windows, h).trace ==
      [CacheProbe, DownloadEvent(Windows, h.runnerTemp.value), ExtractZip(h.downloaded.value, "steamcmd"),
       CacheEvent(h.extracted.value), Exec(ExecutablePath(Windows, h.cached.value), ["+quit"], true)]
  {
    InstallUnfolds(Windows, h);
  }
}
