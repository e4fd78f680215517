/** Values and failures shared by every install step. */
module Results {

  datatype Option<+T> = None | Some(value: T)

  /** The failures an installation can end with. The first six are raised by
      the installer itself. `ExecFailed` is the rejection of the process runner
      when a command it was told not to tolerate exits non-zero; `External`
      carries the reason of any other collaborator failure (download, extract,
      tool cache, filesystem), which is propagated unchanged. */
  datatype Error =
    | UnsupportedPlatform
    | RunnerTempUndefined
    | NotImplemented
    | AptUpdateFailed
    | DependencyNotInstalled(pkg: string)
    | UnexpectedFirstRunExitCode
    | ExecFailed(command: string, exitCode: int)
    | External(reason: string)

  datatype Result<+T> = Ok(value: T) | Err(error: Error)

  /** The message an error carries. The process runner's own wording for
      `ExecFailed` belongs to a library this model does not include. */
  function Message(e: Error): string
    requires !e.ExecFailed?
  {
    match e
    case UnsupportedPlatform => "Unsupported platform."
    case RunnerTempUndefined => "Expected RUNNER_TEMP to be defined"
    case NotImplemented => "Not implemented."
    case AptUpdateFailed => "Couldn't update apt package index. Aborting."
    case DependencyNotInstalled(pkg) => "Failed to install " + pkg + ". See apt-get log."
    case UnexpectedFirstRunExitCode => "SteamCMD first-run test yielded an unexpected exit code. Aborting."
    case External(reason) => reason
  }

  /** Failures the installer raises itself, with a text of its own. */
  predicate RaisedByInstaller(e: Error)
  {
    !e.ExecFailed? && !e.External?
  }

  /** The letter three places from the end of an installer failure's
      message. It is an 'o' exactly for the dependency failure, whose text
      ends in "log."; the other texts differ from each other in length. */
  function ThirdFromEnd(e: Error): (c: char)
    requires RaisedByInstaller(e)
    ensures |Message(e)| >= 3 && Message(e)[|Message(e)| - 3] == c
    ensures c == 'o' <==> e.DependencyNotInstalled?
  {
    match e
    case UnsupportedPlatform => 'r'
    case RunnerTempUndefined => 'n'
    case NotImplemented => 'e'
    case AptUpdateFailed => 'n'
    case DependencyNotInstalled(_) => 'o'
    case UnexpectedFirstRunExitCode => 'n'
  }

  /** The dependency message names its package: equal texts mean the same
      package. */
  lemma DependencyMessageNamesPackage(p: string, q: string)
    requires Message(DependencyNotInstalled(p)) == Message(DependencyNotInstalled(q))
    ensures p == q
  {
    var m := Message(DependencyNotInstalled(p));
    assert |p| == |q|;
    assert p == m[18..|m| - 18];
    assert q == m[18..|m| - 18];
  }

  /** The installer's own messages tell its failures apart: two of them
      carry the same text exactly when they are the same failure, down to
      the package a failed dependency names. */
  lemma MessageIdentifiesFailure(a: Error, b: Error)
    requires RaisedByInstaller(a) && RaisedByInstaller(b)
    ensures Message(a) == Message(b) <==> a == b
  {
    if Message(a) == Message(b) {
      assert ThirdFromEnd(a) == ThirdFromEnd(b);
      if a.DependencyNotInstalled? {
        DependencyMessageNamesPackage(a.pkg, b.pkg);
      } else {
        assert |Message(a)| == |Message(b)|;
      }
    }
  }
}
