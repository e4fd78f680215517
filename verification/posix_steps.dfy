/** The install steps the Linux and Darwin profiles share word for word:
    the `steamcmd.sh` entry point, the tar extractor, the `bin/steamcmd`
    shim and the strict first run. */
module PosixSteps {
  import opened Results
  import opened Effects
  import opened Paths

  const Shebang := "#!/bin/bash\n"

  /** Permission bits of the shim, 0o755. */
  const ShimMode := 493

  /** The tool's own entry point inside an install directory. */
  function ExecutablePath(dir: string): string
  {
    Join(dir, "steamcmd.sh", '/')
  }

  /** The directory that receives the shim and goes on PATH. */
  function BinDirectory(dir: string): string
  {
    Join(dir, "bin", '/')
  }

  /** The extension-less shim, inside the bin directory. */
  function ShimPath(dir: string): string
  {
    Join(BinDirectory(dir), "steamcmd", '/')
  }

  /** The shim's text: a bash script that hands all its arguments to the
      entry point of the install directory. */
  function ShimScript(dir: string): string
  {
    Shebang + "exec \"" + dir + "/steamcmd.sh\" \"$@\""
  }

  /** The location record: the install directory itself, its entry point,
      and the bin directory where the shim lives. */
  function GetInfo(dir: string): Info
  {
    Info(dir, ExecutablePath(dir), BinDirectory(dir))
  }

  /** The layout of a Linux or Darwin install: the entry point and the bin
      directory sit right inside the install directory, the shim sits in the
      bin directory, and the bin directory is what goes on PATH. */
  lemma PosixLayout(dir: string)
    ensures var info := GetInfo(dir);
      && info.directory == dir
      && Parent(info.executable, '/') == dir && Base(info.executable, '/') == "steamcmd.sh"
      && Parent(info.binDirectory, '/') == dir && Base(info.binDirectory, '/') == "bin"
      && Parent(ShimPath(dir), '/') == info.binDirectory && Base(ShimPath(dir), '/') == "steamcmd"
  {
    JoinSplits(dir, "steamcmd.sh", '/');
    JoinSplits(dir, "bin", '/');
    JoinSplits(BinDirectory(dir), "steamcmd", '/');
  }

  /** The shim is a bash script whose one command execs the quoted entry
      point of the install directory with every argument passed through. */
  lemma ShimRunsEntryPoint(dir: string)
    ensures Shebang <= ShimScript(dir)
    ensures ShimScript(dir) == Shebang + "exec \"" + GetInfo(dir).executable + "\" \"$@\""
  {
    assert ExecutablePath(dir) == dir + "/steamcmd.sh";
  }

  /** Extraction goes to the tar extractor, into `steamcmd`. */
  function ExtractArchive(archive: string, h: Host): (r: Run<string>)
    ensures r.trace == [ExtractTar(archive, ExtractDestination)]
    ensures r.result == Lift(h.extracted)
  {
    Run(Lift(h.extracted), [ExtractTar(archive, ExtractDestination)])
  }

  /** The three filesystem calls of a successful post-install, in order. */
  function ShimEffects(dir: string): seq<Event>
  {
    [Mkdir(BinDirectory(dir)), WriteFile(ShimPath(dir), ShimScript(dir)), Chmod(ShimPath(dir), ShimMode)]
  }

  /** Creates the bin directory, writes the shim and makes it executable,
      stopping at the first filesystem call that fails. */
  function PostInstall(dir: string, h: Host): (r: Run<()>)
    ensures r.trace <= ShimEffects(dir)
    ensures forall i :: 0 <= i < |r.trace| ==> IsSetup(r.trace[i])
    ensures r.result.Ok? <==> h.mkdirReply.Done? && h.writeFileReply.Done? && h.chmodReply.Done?
    ensures r.result.Ok? ==> r.trace == ShimEffects(dir)
    ensures h.mkdirReply.Failed? ==>
      r.result == Err(External(h.mkdirReply.reason)) && |r.trace| == 1
    ensures h.mkdirReply.Done? && h.writeFileReply.Failed? ==>
      r.result == Err(External(h.writeFileReply.reason)) && |r.trace| == 2
    ensures h.mkdirReply.Done? && h.writeFileReply.Done? && h.chmodReply.Failed? ==>
      r.result == Err(External(h.chmodReply.reason)) && |r.trace| == 3
  {
    var binDir := BinDirectory(dir);
    var binExe := ShimPath(dir);
    var mkdir := [Mkdir(binDir)];
    var write := mkdir + [WriteFile(binExe, ShimScript(dir))];
    var chmod := write + [Chmod(binExe, ShimMode)];
    match h.mkdirReply
    case Failed(reason) => Run(Err(External(reason)), mkdir)
    case Done(_) =>
      match h.writeFileReply
      case Failed(reason) => Run(Err(External(reason)), write)
      case Done(_) =>
        match h.chmodReply
        case Failed(reason) => Run(Err(External(reason)), chmod)
        case Done(_) => Run(Ok(()), chmod)
  }

  /** The first run passes `+quit` and lets the process runner reject any
      non-zero exit. */
  function TestFirstTimeRun(exe: string, h: Host): (r: Run<()>)
    ensures r.trace == [Exec(exe, ["+quit"], false)]
    ensures r.result.Ok? <==> h.firstRunStatus == 0
    ensures r.result.Err? ==> r.result.error == ExecFailed(exe, h.firstRunStatus)
  {
    var trace := [Exec(exe, ["+quit"], false)];
    if h.firstRunStatus == 0 then Run(Ok(()), trace)
    else Run(Err(ExecFailed(exe, h.firstRunStatus)), trace)
  }
}
