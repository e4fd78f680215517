/** The action's install step: install through the resolved profile, then
    publish the location record as step outputs and a PATH entry. */
module Action {
  import opened Results
  import opened Effects
  import opened Platforms
  import Installation

  /** The reports of a successful install: the `directory` and `executable`
      outputs, then the PATH entry, in that order. */
  function Report(info: Info): seq<Event>
  {
    [SetOutput("directory", info.directory), SetOutput("executable", info.executable), AddPath(info.binDirectory)]
  }

  /** Installs and, only once the install has succeeded, reports its
      record; a failure is passed on and reports nothing. */
  function AttemptInstall(id: string, h: Host): (r: Run<()>)
    ensures r.result.Ok? <==> Installation.AttemptInstall(id, h).result.Ok?
    ensures r.result.Err? ==>
      r == Run(Err(Installation.AttemptInstall(id, h).result.error), Installation.AttemptInstall(id, h).trace)
    ensures r.result.Ok? ==>
      r.trace == Installation.AttemptInstall(id, h).trace + Report(Installation.AttemptInstall(id, h).result.value)
  {
    var install := Installation.AttemptInstall(id, h);
    match install.result
    case Err(e) => Run(Err(e), install.trace)
    case Ok(info) => Run(Ok(()), install.trace + Report(info))
  }

  /** A successful install whose run is known is followed by exactly the
      reports of the record it returned. */
  lemma ReportsFollowInstall(id: string, h: Host, info: Info, t: seq<Event>)
    requires Installation.AttemptInstall(id, h) == Run(Ok(info), t)
    ensures AttemptInstall(id, h) == Run(Ok(()), t + Report(info))
  {
  }

  /** A failed install is passed on as it is. */
  lemma FailurePassesThrough(id: string, h: Host, e: Error, t: seq<Event>)
    requires Installation.AttemptInstall(id, h) == Run(Err(e), t)
    ensures AttemptInstall(id, h) == Run(Err(e), t)
  {
  }

  /** An unsupported platform is refused with `Unsupported platform.` before
      anything is looked up, installed or reported. */
  lemma UnsupportedPlatformDoesNothing(id: string, h: Host)
    requires id != "darwin" && id != "linux" && id != "win32"
    ensures AttemptInstall(id, h) == Run(Err(UnsupportedPlatform), [])
    ensures Message(AttemptInstall(id, h).result.error) == "Unsupported platform."
  {
  }

  /** A failed install leaves no output and no PATH entry behind. */
  lemma FailureReportsNothing(id: string, h: Host)
    requires AttemptInstall(id, h).result.Err?
    ensures var t := AttemptInstall(id, h).trace;
      forall i :: 0 <= i < |t| ==> !IsReport(t[i])
  {
  }

  /** A successful install ends with its three reports, built from the
      record the install returned; they are the only reports, so each output
      is set once and the PATH entry is added exactly once, last. */
  lemma SuccessReportsOnceAtEnd(id: string, h: Host)
    requires AttemptInstall(id, h).result.Ok?
    ensures var t := AttemptInstall(id, h).trace;
      var info := Installation.AttemptInstall(id, h).result.value;
      && |t| >= 4
      && t[|t| - 3] == SetOutput("directory", info.directory)
      && t[|t| - 2] == SetOutput("executable", info.executable)
      && t[|t| - 1] == AddPath(info.binDirectory)
      && (forall i :: 0 <= i < |t| ==> (IsReport(t[i]) <==> i >= |t| - 3))
      && (forall i :: 0 <= i < |t| ==> (t[i].AddPath? <==> i == |t| - 1))
  {
    var install := Installation.AttemptInstall(id, h);
    var t := AttemptInstall(id, h).trace;
    var report := Report(install.result.value);
    assert t == install.trace + report;
    assert forall i :: 0 <= i < |install.trace| ==> t[i] == install.trace[i];
    assert forall i :: |install.trace| <= i < |t| ==> t[i] == report[i - |install.trace|];
  }
}
