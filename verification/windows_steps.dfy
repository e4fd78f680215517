/** The Windows profile: the zip archive, `steamcmd.exe`, paths rewritten to
    forward slashes, and a first run that tolerates exit code 7. Windows
    keeps the base class's dependency and post-install steps. */
module WindowsSteps {
  import opened Results
  import opened Effects
  import opened Paths

  const ArchiveName := "steamcmd.zip"

  /** The benign exit code of the tool's first run on Windows. */
  const FirstRunQuirk := 7

  /** The entry point, joined with the host's back-slash and then rewritten
      to forward slashes. */
  function ExecutablePath(dir: string): string
  {
    ForwardSlashes(Join(dir, "steamcmd.exe", '\\'))
  }

  /** The location record, every path rewritten to forward slashes; the
      install directory itself, not a `bin` below it, goes on PATH. */
  function GetInfo(dir: string): Info
  {
    Info(ForwardSlashes(dir), ForwardSlashes(ExecutablePath(dir)), ForwardSlashes(dir))
  }

  /** The layout of a Windows install: no back-slash survives in any path,
      the entry point is `steamcmd.exe` right inside the rewritten install
      directory, and that directory is also the one that goes on PATH. */
  lemma WindowsLayout(dir: string)
    ensures var info := GetInfo(dir);
      && '\\' !in info.directory && '\\' !in info.executable && '\\' !in info.binDirectory
      && info.directory == info.binDirectory == ForwardSlashes(dir)
      && |info.directory| == |dir|
      && info.executable == ExecutablePath(dir) == Join(ForwardSlashes(dir), "steamcmd.exe", '/')
      && Parent(info.executable, '/') == info.directory && Base(info.executable, '/') == "steamcmd.exe"
  {
    ForwardSlashesJoin(dir, "steamcmd.exe");
    ForwardSlashesKeepsClean("steamcmd.exe");
    ForwardSlashesIdempotent(Join(dir, "steamcmd.exe", '\\'));
    JoinSplits(ForwardSlashes(dir), "steamcmd.exe", '/');
  }

  /** Extraction goes to the zip extractor, into `steamcmd`. */
  function ExtractArchive(archive: string, h: Host): (r: Run<string>)
    ensures r.trace == [ExtractZip(archive, ExtractDestination)]
    ensures r.result == Lift(h.extracted)
  {
    Run(Lift(h.extracted), [ExtractZip(archive, ExtractDestination)])
  }

  /** The first run passes `+quit` and reads the exit code itself: 0 and 7
      pass, anything else fails with the unexpected-exit-code error. */
  function TestFirstTimeRun(exe: string, h: Host): (r: Run<()>)
    ensures r.trace == [Exec(exe, ["+quit"], true)]
    ensures r.result.Ok? <==> h.firstRunStatus == 0 || h.firstRunStatus == 7
    ensures r.result.Err? ==> r.result.error == UnexpectedFirstRunExitCode
  {
    var trace := [Exec(exe, ["+quit"], true)];
    if h.firstRunStatus == FirstRunQuirk then Run(Ok(()), trace)
    else if h.firstRunStatus == 0 then Run(Ok(()), trace)
    else Run(Err(UnexpectedFirstRunExitCode), trace)
  }
}
