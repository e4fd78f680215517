/** Whole runs of the action's install step on hosts shaped like the
    situations the repository's tests set up: every collaborator answers,
    the cache misses unless said otherwise, and each run's complete call
    sequence and outcome is stated. */
module Scenarios {
  import opened Results
  import opened Effects
  import opened Paths
  import opened Platforms
  import InstallSteps
  import PosixSteps
  import WindowsSteps
  import LinuxSteps
  import Installation
  import opened Action

  /** Every collaborator of a fresh install answers with a value. */
  predicate Cooperative(h: Host)
  {
    h.found == "" && h.runnerTemp.Some? && h.downloaded.Done? && h.extracted.Done? && h.cached.Done?
  }

  /** A fresh install on a cooperative host: the lookup, the download, the
      extraction and the registration, then the steps on the registered
      directory. */
  lemma FreshRun(id: string, p: Platform, h: Host)
    requires Resolve(id) == Ok(p) && Cooperative(h)
    ensures var rest := InstallSteps.DependencyStage(p, h.cached.value, h);
      Installation.AttemptInstall(id, h) == Run(rest.result, [
        Find("steamcmd", "latest"),
        InstallSteps.DownloadEvent(p, h.runnerTemp.value),
        InstallSteps.ExtractEvent(p, h.downloaded.value),
        InstallSteps.CacheEvent(h.extracted.value)] + rest.trace)
  {
    InstallSteps.MissUnfolds(p, h);
  }

  /** The three download URLs spelled out. */
  lemma KnownDownloads()
    ensures InstallSteps.DownloadUrl(Windows).0 == "https://steamcdn-a.akamaihd.net/client/installer/steamcmd.zip"
    ensures InstallSteps.DownloadUrl(Darwin).0 == "https://steamcdn-a.akamaihd.net/client/installer/steamcmd_osx.tar.gz"
    ensures InstallSteps.DownloadUrl(Linux).0 == "https://steamcdn-a.akamaihd.net/client/installer/steamcmd_linux.tar.gz"
  {
  }

  /** The shim's text spelled out. */
  lemma ShimText(dir: string)
    ensures PosixSteps.ShimScript(dir) == "#!/bin/bash\nexec \"" + Join(dir, "steamcmd.sh", '/') + "\" \"$@\""
  {
    PosixSteps.ShimRunsEntryPoint(dir);
    assert PosixSteps.Shebang + "exec \"" == "#!/bin/bash\nexec \"";
  }

  /** On Windows the first run may exit 7: the install passes, the zip is
      extracted from the downloaded file, the extracted directory is
      registered, the registered directory's `steamcmd.exe` runs in
      forward-slash form, and that directory is both output and PATH entry. */
  lemma WindowsInstallToleratesExitSeven(h: Host)
    requires Cooperative(h) && h.firstRunStatus == 7
    ensures var dir := ForwardSlashes(h.cached.value);
      var exe := Join(dir, "steamcmd.exe", '/');
      AttemptInstall("win32", h) == Run(Ok(()), [
        Find("steamcmd", "latest"),
        Download("https://steamcdn-a.akamaihd.net/client/installer/steamcmd.zip",
                 Join(h.runnerTemp.value, "steamcmd.zip", '\\')),
        ExtractZip(h.downloaded.value, "steamcmd"),
        CacheDir(h.extracted.value, "steamcmd", "latest", "i386"),
        Exec(exe, ["+quit"], true),
        SetOutput("directory", dir),
        SetOutput("executable", exe),
        AddPath(dir)])
  {
    WindowsFreshRun(h);
    WindowsTraceSpelledOut(h);
  }

  /** The calls and reports of a successful fresh Windows install, spelled
      out from the profile's definitions. */
  lemma WindowsTraceSpelledOut(h: Host)
    requires Cooperative(h)
    ensures var info := InstallSteps.GetInfo(Windows, h.cached.value);
      var dir := ForwardSlashes(h.cached.value);
      var exe := Join(dir, "steamcmd.exe", '/');
      [Find("steamcmd", "latest"), InstallSteps.DownloadEvent(Windows, h.runnerTemp.value),
       InstallSteps.ExtractEvent(Windows, h.downloaded.value), InstallSteps.CacheEvent(h.extracted.value),
       Exec(info.executable, ["+quit"], true)] + Report(info)
      == [Find("steamcmd", "latest"),
          Download("https://steamcdn-a.akamaihd.net/client/installer/steamcmd.zip",
                   Join(h.runnerTemp.value, "steamcmd.zip", '\\')),
          ExtractZip(h.downloaded.value, "steamcmd"),
          CacheDir(h.extracted.value, "steamcmd", "latest", "i386"),
          Exec(exe, ["+quit"], true),
          SetOutput("directory", dir),
          SetOutput("executable", exe),
          AddPath(dir)]
  {
    KnownDownloads();
    WindowsSteps.WindowsLayout(h.cached.value);
  }

  /** A fresh Windows install whose first run passes: the pipeline's four
      calls, the tolerant first run and the reports, and nothing else. */
  lemma WindowsFreshRun(h: Host)
    requires Cooperative(h) && (h.firstRunStatus == 0 || h.firstRunStatus == 7)
    ensures var info := InstallSteps.GetInfo(Windows, h.cached.value);
      AttemptInstall("win32", h) == Run(Ok(()),
        [Find("steamcmd", "latest"), InstallSteps.DownloadEvent(Windows, h.runnerTemp.value),
         InstallSteps.ExtractEvent(Windows, h.downloaded.value), InstallSteps.CacheEvent(h.extracted.value),
         Exec(info.executable, ["+quit"], true)] + Report(info))
  {
    var info := InstallSteps.GetInfo(Windows, h.cached.value);
    var head := [Find("steamcmd", "latest"), InstallSteps.DownloadEvent(Windows, h.runnerTemp.value),
                 InstallSteps.ExtractEvent(Windows, h.downloaded.value), InstallSteps.CacheEvent(h.extracted.value)];
    var run := Exec(info.executable, ["+quit"], true);
    FreshRun("win32", Windows, h);
    WindowsSetup(h.cached.value, h);
    assert Installation.AttemptInstall("win32", h) == Run(Ok(info), head + [run]);
    ReportsFollowInstall("win32", h, info, head + [run]);
    assert head + [run] == [head[0], head[1], head[2], head[3], run];
  }

  /** The steps on the registered directory of a Windows install whose first
      run passes: only the tolerant first run of its `steamcmd.exe`. */
  lemma WindowsSetup(dir: string, h: Host)
    requires h.firstRunStatus == 0 || h.firstRunStatus == 7
    ensures InstallSteps.DependencyStage(Windows, dir, h) ==
      Run(Ok(InstallSteps.GetInfo(Windows, dir)), [Exec(InstallSteps.GetInfo(Windows, dir).executable, ["+quit"], true)])
  {
    ForwardSlashesIdempotent(Join(dir, "steamcmd.exe", '\\'));
    assert InstallSteps.PostInstallStage(Windows, dir, h) == InstallSteps.VerifyStage(Windows, dir, h);
  }

  /** A fresh Linux or Darwin install whose every step succeeds: after the
      registration come the dependency calls, the three shim calls, the
      strict first run and the reports, and nothing else. */
  lemma PosixFreshRun(id: string, p: Platform, h: Host)
    requires Resolve(id) == Ok(p) && !p.Windows? && Cooperative(h) && h.firstRunStatus == 0
    requires h.mkdirReply.Done? && h.writeFileReply.Done? && h.chmodReply.Done?
    requires InstallSteps.InstallDependencies(p, h).result.Ok?
    ensures var dir := h.cached.value;
      var info := InstallSteps.GetInfo(p, dir);
      AttemptInstall(id, h) == Run(Ok(()),
        [Find("steamcmd", "latest"), InstallSteps.DownloadEvent(p, h.runnerTemp.value),
         InstallSteps.ExtractEvent(p, h.downloaded.value), InstallSteps.CacheEvent(h.extracted.value)]
        + InstallSteps.InstallDependencies(p, h).trace
        + PosixSteps.ShimEffects(dir)
        + [Exec(PosixSteps.ExecutablePath(dir), ["+quit"], false)]
        + Report(info))
  {
    var dir := h.cached.value;
    var info := InstallSteps.GetInfo(p, dir);
    var head := [Find("steamcmd", "latest"), InstallSteps.DownloadEvent(p, h.runnerTemp.value),
                 InstallSteps.ExtractEvent(p, h.downloaded.value), InstallSteps.CacheEvent(h.extracted.value)];
    var deps := InstallSteps.InstallDependencies(p, h).trace;
    var shim := PosixSteps.ShimEffects(dir);
    var run := [Exec(PosixSteps.ExecutablePath(dir), ["+quit"], false)];
    PosixInstall(id, p, h);
    ReportsFollowInstall(id, h, info, head + (deps + (shim + run)));
    Reassociate(deps, shim, run);
    Reassociate(head, deps + shim, run);
    Reassociate(head, deps, shim);
  }

  /** The install of a Linux or Darwin run whose every step succeeds, before
      anything is reported. */
  lemma PosixInstall(id: string, p: Platform, h: Host)
    requires Resolve(id) == Ok(p) && !p.Windows? && Cooperative(h) && h.firstRunStatus == 0
    requires h.mkdirReply.Done? && h.writeFileReply.Done? && h.chmodReply.Done?
    requires InstallSteps.InstallDependencies(p, h).result.Ok?
    ensures var dir := h.cached.value;
      Installation.AttemptInstall(id, h) == Run(Ok(InstallSteps.GetInfo(p, dir)),
        [Find("steamcmd", "latest"), InstallSteps.DownloadEvent(p, h.runnerTemp.value),
         InstallSteps.ExtractEvent(p, h.downloaded.value), InstallSteps.CacheEvent(h.extracted.value)]
        + (InstallSteps.InstallDependencies(p, h).trace
           + (PosixSteps.ShimEffects(dir) + [Exec(PosixSteps.ExecutablePath(dir), ["+quit"], false)])))
  {
    FreshRun(id, p, h);
    PosixSetup(p, h.cached.value, h);
  }

  /** The steps on the registered directory of a Linux or Darwin install
      whose every step succeeds. */
  lemma PosixSetup(p: Platform, dir: string, h: Host)
    requires !p.Windows? && h.firstRunStatus == 0
    requires h.mkdirReply.Done? && h.writeFileReply.Done? && h.chmodReply.Done?
    requires InstallSteps.InstallDependencies(p, h).result.Ok?
    ensures InstallSteps.DependencyStage(p, dir, h) ==
      Run(Ok(InstallSteps.GetInfo(p, dir)),
          InstallSteps.InstallDependencies(p, h).trace
          + (PosixSteps.ShimEffects(dir) + [Exec(PosixSteps.ExecutablePath(dir), ["+quit"], false)]))
  {
    assert InstallSteps.PostInstallStage(p, dir, h) ==
      Run(Ok(InstallSteps.GetInfo(p, dir)),
          PosixSteps.ShimEffects(dir) + [Exec(PosixSteps.ExecutablePath(dir), ["+quit"], false)]);
  }

  /** On Darwin the tar is extracted, the shim is written into the
      registered directory's `bin` before the strict first run of
      `steamcmd.sh`, and `bin` goes on PATH. */
  lemma DarwinInstallWritesShim(h: Host)
    requires Cooperative(h) && h.firstRunStatus == 0
    requires h.mkdirReply.Done? && h.writeFileReply.Done? && h.chmodReply.Done?
    ensures var dir := h.cached.value;
      var bin := Join(dir, "bin", '/');
      var shim := Join(bin, "steamcmd", '/');
      var exe := Join(dir, "steamcmd.sh", '/');
      AttemptInstall("darwin", h) == Run(Ok(()),
        [Find("steamcmd", "latest"),
         Download("https://steamcdn-a.akamaihd.net/client/installer/steamcmd_osx.tar.gz",
                  Join(h.runnerTemp.value, "steamcmd_osx.tar.gz", '/')),
         ExtractTar(h.downloaded.value, "steamcmd"),
         CacheDir(h.extracted.value, "steamcmd", "latest", "i386")]
        + [Mkdir(bin), WriteFile(shim, "#!/bin/bash\nexec \"" + exe + "\" \"$@\""), Chmod(shim, 493)]
        + [Exec(exe, ["+quit"], false)]
        + [SetOutput("directory", dir), SetOutput("executable", exe), AddPath(bin)])
  {
    PosixFreshRun("darwin", Darwin, h);
    KnownDownloads();
    ShimText(h.cached.value);
    assert InstallSteps.InstallDependencies(Darwin, h).trace == [];
  }

  /** On Linux a successful apt bootstrap comes between registration and
      the shim: one index refresh, one install of `lib32gcc-s1`, and no
      dpkg checks. */
  lemma LinuxInstallBootstrapsApt(h: Host)
    requires Cooperative(h) && h.firstRunStatus == 0
    requires h.mkdirReply.Done? && h.writeFileReply.Done? && h.chmodReply.Done?
    requires h.aptUpdateStatus == 0 && h.aptInstallStatus == 0
    ensures var dir := h.cached.value;
      var bin := Join(dir, "bin", '/');
      var shim := Join(bin, "steamcmd", '/');
      var exe := Join(dir, "steamcmd.sh", '/');
      AttemptInstall("linux", h) == Run(Ok(()),
        [Find("steamcmd", "latest"),
         Download("https://steamcdn-a.akamaihd.net/client/installer/steamcmd_linux.tar.gz",
                  Join(h.runnerTemp.value, "steamcmd_linux.tar.gz", '/')),
         ExtractTar(h.downloaded.value, "steamcmd"),
         CacheDir(h.extracted.value, "steamcmd", "latest", "i386")]
        + [Exec("sudo apt-get", ["--yes", "update"], true),
           Exec("sudo apt-get", ["--yes", "install", "lib32gcc-s1"], true)]
        + [Mkdir(bin), WriteFile(shim, "#!/bin/bash\nexec \"" + exe + "\" \"$@\""), Chmod(shim, 493)]
        + [Exec(exe, ["+quit"], false)]
        + [SetOutput("directory", dir), SetOutput("executable", exe), AddPath(bin)])
  {
    assert InstallSteps.InstallDependencies(Linux, h).trace ==
      [LinuxSteps.AptUpdate, LinuxSteps.AptInstall(LinuxSteps.AptDependencies)];
    assert ["--yes", "install"] + LinuxSteps.AptDependencies == ["--yes", "install", "lib32gcc-s1"];
    PosixFreshRun("linux", Linux, h);
    KnownDownloads();
    ShimText(h.cached.value);
  }

  /** On Linux a failed index refresh aborts right after it: no package is
      installed or checked, no shim is written, the tool is never run and
      nothing is reported. */
  lemma LinuxAptUpdateFailureAborts(h: Host)
    requires Cooperative(h) && h.aptUpdateStatus != 0
    ensures AttemptInstall("linux", h) == Run(Err(AptUpdateFailed), [
        Find("steamcmd", "latest"),
        Download("https://steamcdn-a.akamaihd.net/client/installer/steamcmd_linux.tar.gz",
                 Join(h.runnerTemp.value, "steamcmd_linux.tar.gz", '/')),
        ExtractTar(h.downloaded.value, "steamcmd"),
        CacheDir(h.extracted.value, "steamcmd", "latest", "i386"),
        Exec("sudo apt-get", ["--yes", "update"], true)])
    ensures Message(AttemptInstall("linux", h).result.error) == "Couldn't update apt package index. Aborting."
  {
    var head := [Find("steamcmd", "latest"), InstallSteps.DownloadEvent(Linux, h.runnerTemp.value),
                 InstallSteps.ExtractEvent(Linux, h.downloaded.value), InstallSteps.CacheEvent(h.extracted.value)];
    AptUpdateFailureInstall(h);
    FailurePassesThrough("linux", h, AptUpdateFailed, head + [LinuxSteps.AptUpdate]);
    AptUpdateFailureSpelledOut(h);
    AptUpdateMessage();
  }

  /** The calls of a Linux install whose index refresh fails, spelled out
      from the profile's definitions. */
  lemma AptUpdateFailureSpelledOut(h: Host)
    requires Cooperative(h)
    ensures [Find("steamcmd", "latest"), InstallSteps.DownloadEvent(Linux, h.runnerTemp.value),
             InstallSteps.ExtractEvent(Linux, h.downloaded.value), InstallSteps.CacheEvent(h.extracted.value)]
            + [LinuxSteps.AptUpdate]
         == [Find("steamcmd", "latest"),
             Download("https://steamcdn-a.akamaihd.net/client/installer/steamcmd_linux.tar.gz",
                      Join(h.runnerTemp.value, "steamcmd_linux.tar.gz", '/')),
             ExtractTar(h.downloaded.value, "steamcmd"),
             CacheDir(h.extracted.value, "steamcmd", "latest", "i386"),
             Exec("sudo apt-get", ["--yes", "update"], true)]
  {
    KnownDownloads();
  }

  /** The text of a failed index refresh. */
  lemma AptUpdateMessage()
    ensures Message(AptUpdateFailed) == "Couldn't update apt package index. Aborting."
  {
  }

  /** The install of a Linux run whose index refresh fails, before anything
      would be reported. */
  lemma AptUpdateFailureInstall(h: Host)
    requires Cooperative(h) && h.aptUpdateStatus != 0
    ensures Installation.AttemptInstall("linux", h) == Run(Err(AptUpdateFailed),
      [Find("steamcmd", "latest"), InstallSteps.DownloadEvent(Linux, h.runnerTemp.value),
       InstallSteps.ExtractEvent(Linux, h.downloaded.value), InstallSteps.CacheEvent(h.extracted.value)]
      + [LinuxSteps.AptUpdate])
  {
    FreshRun("linux", Linux, h);
    var update := [LinuxSteps.AptUpdate];
    assert InstallSteps.InstallDependencies(Linux, h) == Run(Err(AptUpdateFailed), update);
    assert InstallSteps.DependencyStage(Linux, h.cached.value, h) == Run(Err(AptUpdateFailed), update);
  }

  /** A cached tool is reported as found: one lookup, no install calls, and
      the found directory's record as outputs and PATH entry. */
  lemma CacheHitReportsFoundDirectory(id: string, h: Host)
    requires id == "darwin" || id == "linux" || id == "win32"
    requires h.found != ""
    ensures var info := InstallSteps.GetInfo(Resolve(id).value, h.found);
      AttemptInstall(id, h) == Run(Ok(()), [Find("steamcmd", "latest")] + Report(info))
  {
  }

  /** Each of the other operating-system families is refused with
      `Unsupported platform.` and no call is made. */
  lemma OtherFamiliesAreRefused(id: string, h: Host)
    requires id in OtherFamilies
    ensures AttemptInstall(id, h) == Run(Err(UnsupportedPlatform), [])
    ensures Message(AttemptInstall(id, h).result.error) == "Unsupported platform."
  {
    UnsupportedPlatformDoesNothing(id, h);
  }

  /** The download location handed to the download call is an absolute
      `https` URL on every platform. */
  lemma DownloadUrlIsHttps(p: Platform)
    ensures "https://steamcdn-a.akamaihd.net/client/installer/steamcmd" <= InstallSteps.DownloadUrl(p).0
  {
    InstallSteps.ArchiveNameShapes(p);
    var (url, name) := InstallSteps.DownloadUrl(p);
    assert url == InstallSteps.DownloadBase + name;
  }
}
