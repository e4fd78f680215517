/** The entry point that picks the install-step profile for the host's
    platform and runs it, handing back the location record. */
module Installation {
  import opened Results
  import opened Effects
  import opened Platforms
  import InstallSteps

  /** Resolves the host identifier and installs if necessary. An unsupported
      platform fails before any call is made; otherwise the record of the
      found or freshly registered directory comes back unchanged. */
  function AttemptInstall(id: string, h: Host): (r: Run<Info>)
    ensures Resolve(id).Err? ==> r == Run(Err(UnsupportedPlatform), [])
    ensures Resolve(id).Ok? ==> r == InstallSteps.InstallIfNecessary(Resolve(id).value, h)
    ensures r.trace == [] <==> Resolve(id).Err?
    ensures forall i :: 0 <= i < |r.trace| ==> !IsReport(r.trace[i])
    ensures r.result.Ok? ==>
      && Resolve(id).Ok?
      && r.result.value == InstallSteps.GetInfo(Resolve(id).value, if h.found != "" then h.found else h.cached.value)
  {
    match Resolve(id)
    case Err(e) => Run(Err(e), [])
    case Ok(p) =>
      InstallSteps.InstallIfNecessaryReportsNothing(p, h);
      InstallSteps.InstallIfNecessary(p, h)
  }
}
