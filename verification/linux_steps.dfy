/** The Linux profile's own steps: its archive and the apt bootstrap of the
    32-bit runtime, with its fallback to checking each package with dpkg.
    The rest of the Linux profile is `PosixSteps`. */
module LinuxSteps {
  import opened Results
  import opened Effects

  const ArchiveName := "steamcmd_linux.tar.gz"

  /** Packages the tool needs on Linux, in the order they are checked. */
  const AptDependencies: seq<string> := ["lib32gcc-s1"]

  /** Refreshing the package index; a non-zero exit is read, not thrown. */
  const AptUpdate := Exec("sudo apt-get", ["--yes", "update"], true)

  /** Installing the packages in one go; a non-zero exit is read, not thrown. */
  function AptInstall(deps: seq<string>): Event
  {
    Exec("sudo apt-get", ["--yes", "install"] + deps, true)
  }

  /** Asking dpkg for the status of one package. */
  function DpkgQuery(pkg: string): Event
  {
    Exec("/usr/bin/dpkg-query", ["--show", "--showformat='${db:Status-Status}\\n'", pkg], true)
  }

  /** One query per package, in list order. */
  function DpkgQueries(deps: seq<string>): (t: seq<Event>)
    ensures |t| == |deps|
    ensures forall i :: 0 <= i < |deps| ==> t[i] == DpkgQuery(deps[i])
  {
    seq(|deps|, i requires 0 <= i < |deps| => DpkgQuery(deps[i]))
  }

  /** A package counts as installed exactly when dpkg exits 0 for it. */
  function CheckDependencyAlreadyInstalled(pkg: string, h: Host): (r: Run<()>)
    ensures r.trace == [DpkgQuery(pkg)]
    ensures r.result.Ok? <==> h.dpkgStatus(pkg) == 0
    ensures r.result.Err? ==> r.result.error == DependencyNotInstalled(pkg)
    ensures r.result.Err? ==> Message(r.result.error) == "Failed to install " + pkg + ". See apt-get log."
  {
    if h.dpkgStatus(pkg) == 0 then Run(Ok(()), [DpkgQuery(pkg)])
    else Run(Err(DependencyNotInstalled(pkg)), [DpkgQuery(pkg)])
  }

  /** The rejections of checking every package, in list order: the checks
      are settled together, so one missing package does not stop the
      others from being queried. */
  function Rejections(deps: seq<string>, h: Host): (rs: seq<Error>)
    ensures |rs| <= |deps|
    ensures rs == [] <==> forall i :: 0 <= i < |deps| ==> h.dpkgStatus(deps[i]) == 0
    ensures forall j :: 0 <= j < |rs| ==> rs[j].DependencyNotInstalled? && h.dpkgStatus(rs[j].pkg) != 0
  {
    if |deps| == 0 then []
    else
      var check := CheckDependencyAlreadyInstalled(deps[0], h);
      var mine := if check.result.Err? then [check.result.error] else [];
      var rest := Rejections(deps[1..], h);
      assert rest == [] <==> forall i :: 1 <= i < |deps| ==> h.dpkgStatus(deps[i]) == 0 by {
        assert forall i :: 1 <= i < |deps| ==> deps[i] == deps[1..][i - 1];
      }
      mine + rest
  }

  /** Index of the last package dpkg does not report installed, or -1. */
  function LastMissing(deps: seq<string>, h: Host): (k: int)
    ensures -1 <= k < |deps|
    ensures k >= 0 ==> h.dpkgStatus(deps[k]) != 0
    ensures forall j :: k < j < |deps| ==> h.dpkgStatus(deps[j]) == 0
  {
    if |deps| == 0 then -1
    else if h.dpkgStatus(deps[|deps| - 1]) != 0 then |deps| - 1
    else LastMissing(deps[..|deps| - 1], h)
  }

  /** The last rejection, the one that is thrown, names the last missing
      package in list order. */
  lemma {:induction false} LastRejectionIsLastMissing(deps: seq<string>, h: Host)
    requires Rejections(deps, h) != []
    ensures LastMissing(deps, h) >= 0
    ensures var rs := Rejections(deps, h);
      rs[|rs| - 1] == DependencyNotInstalled(deps[LastMissing(deps, h)])
  {
    var rest := Rejections(deps[1..], h);
    if rest == [] {
      assert forall i :: 1 <= i < |deps| ==> h.dpkgStatus(deps[i]) == 0 by {
        forall i | 1 <= i < |deps|
          ensures h.dpkgStatus(deps[i]) == 0
        {
          assert deps[1..][i - 1] == deps[i];
        }
      }
      assert h.dpkgStatus(deps[0]) != 0;
      LastMissingFindsLast(deps, h, 0);
    } else {
      LastRejectionIsLastMissing(deps[1..], h);
      var k := LastMissing(deps[1..], h);
      assert deps[1..][k] == deps[k + 1];
      LastMissingFindsLast(deps, h, k + 1);
    }
  }

  /** `LastMissing` finds the index whose package is missing when every
      later one is installed. */
  lemma {:induction false} LastMissingFindsLast(deps: seq<string>, h: Host, k: int)
    requires 0 <= k < |deps| && h.dpkgStatus(deps[k]) != 0
    requires forall j :: k < j < |deps| ==> h.dpkgStatus(deps[j]) == 0
    ensures LastMissing(deps, h) == k
  {
    if k < |deps| - 1 {
      var front := deps[..|deps| - 1];
      assert forall j :: k < j < |front| ==> front[j] == deps[j];
      LastMissingFindsLast(front, h, k);
    }
  }

  /** The apt bootstrap over a package list: an index refresh that must
      succeed, one install of the whole list, and when that install fails a
      dpkg check of every package; the run fails with the last package that
      is still missing. */
  function InstallDependenciesOf(deps: seq<string>, h: Host): (r: Run<()>)
    ensures forall i :: 0 <= i < |r.trace| ==> r.trace[i].Exec?
    ensures h.aptUpdateStatus != 0 ==> r == Run(Err(AptUpdateFailed), [AptUpdate])
    ensures h.aptUpdateStatus == 0 && h.aptInstallStatus == 0 ==>
      r == Run(Ok(()), [AptUpdate, AptInstall(deps)])
    ensures h.aptUpdateStatus == 0 && h.aptInstallStatus != 0 ==>
      && r.trace == [AptUpdate, AptInstall(deps)] + DpkgQueries(deps)
      && (r.result.Ok? <==> forall i :: 0 <= i < |deps| ==> h.dpkgStatus(deps[i]) == 0)
      && (r.result.Err? ==>
            LastMissing(deps, h) >= 0 && r.result.error == DependencyNotInstalled(deps[LastMissing(deps, h)]))
  {
    if h.aptUpdateStatus != 0 then Run(Err(AptUpdateFailed), [AptUpdate])
    else if h.aptInstallStatus == 0 then Run(Ok(()), [AptUpdate, AptInstall(deps)])
    else
      // every check runs and makes its one query, in list order
      var trace := [AptUpdate, AptInstall(deps)] + DpkgQueries(deps);
      var rejections := Rejections(deps, h);
      if |rejections| == 0 then Run(Ok(()), trace)
      else
        LastRejectionIsLastMissing(deps, h);
        Run(Err(rejections[|rejections| - 1]), trace)
  }

  /** The Linux dependency step, over `lib32gcc-s1`. */
  function InstallDependencies(h: Host): (r: Run<()>)
    ensures forall i :: 0 <= i < |r.trace| ==> r.trace[i].Exec?
    ensures r.result.Ok? <==>
      h.aptUpdateStatus == 0 && (h.aptInstallStatus == 0 || h.dpkgStatus("lib32gcc-s1") == 0)
    ensures r.result.Err? ==>
      r.result.error == (if h.aptUpdateStatus != 0 then AptUpdateFailed else DependencyNotInstalled("lib32gcc-s1"))
  {
    InstallDependenciesOf(AptDependencies, h)
  }
}
