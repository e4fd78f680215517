/** The install location record, the calls the installer makes on its
    collaborators (recorded as a trace of events), and the answers those
    collaborators give (an oracle `Host`). */
module Effects {
  import opened Results

  /** Where the tool ended up: the action's `directory` and `executable`
      outputs and the directory it adds to PATH. */
  datatype Info = Info(directory: string, executable: string, binDirectory: string)

  /** One call on a collaborator, with the arguments the installer passes. */
  datatype Event =
    | Find(tool: string, version: string)
    | Download(url: string, dest: string)
    | ExtractTar(archive: string, dest: string)
    | ExtractZip(archive: string, dest: string)
    | CacheDir(source: string, tool: string, version: string, arch: string)
    | Exec(command: string, args: seq<string>, ignoreReturnCode: bool)
    | Mkdir(path: string)
    | WriteFile(path: string, content: string)
    | Chmod(path: string, mode: int)
    | SetOutput(name: string, value: string)
    | AddPath(path: string)

  /** The destination both archive extractors are given. */
  const ExtractDestination := "steamcmd"

  /** Reports to the host runner: action outputs and PATH additions. */
  predicate IsReport(e: Event)
  {
    e.SetOutput? || e.AddPath?
  }

  /** Effects of the dependency and post-install steps: process runs and
      filesystem changes. */
  predicate IsSetup(e: Event)
  {
    e.Exec? || e.Mkdir? || e.WriteFile? || e.Chmod?
  }

  /** A collaborator's answer: a value, or a rejection with its reason. */
  datatype Reply<+T> = Done(value: T) | Failed(reason: string)

  /** A collaborator's rejection becomes an `External` error with the same
      reason; its value is passed on untouched. */
  function Lift<T>(reply: Reply<T>): (r: Result<T>)
    ensures r.Ok? <==> reply.Done?
    ensures reply.Done? ==> r.value == reply.value
    ensures reply.Failed? ==> r.error == External(reply.reason)
  {
    match reply
    case Done(v) => Ok(v)
    case Failed(reason) => Err(External(reason))
  }

  /** What the environment answers during one run. Each collaborator is
      called at most once per run, except the package query, which is asked
      per package. */
  datatype Host = Host(
    runnerTemp: Option<string>,      // RUNNER_TEMP, when it is defined
    found: string,                   // tool cache lookup; "" is a miss
    downloaded: Reply<string>,       // path of the downloaded archive
    extracted: Reply<string>,        // directory the archive was extracted to
    cached: Reply<string>,           // directory the tool cache registered
    aptUpdateStatus: int,            // exit code of `apt-get update`
    aptInstallStatus: int,           // exit code of `apt-get install`
    dpkgStatus: string -> int,       // exit code of `dpkg-query` per package
    mkdirReply: Reply<()>,
    writeFileReply: Reply<()>,
    chmodReply: Reply<()>,
    firstRunStatus: int)             // exit code of the first tool run

  /** The outcome of a step together with the calls it made, in order. */
  datatype Run<+T> = Run(result: Result<T>, trace: seq<Event>)

  /** Traces joined from the right are the same traces joined from the left. */
  lemma Reassociate(a: seq<Event>, b: seq<Event>, c: seq<Event>)
    ensures a + (b + c) == a + b + c
  {
  }
}
