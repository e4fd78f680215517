# setup-steamcmd, modelled in Dafny

setup-steamcmd is a GitHub Action that installs Valve's SteamCMD on the runner. It resolves
the runner's platform identifier to one of three install-step profiles (Darwin, Linux,
Windows), or refuses with `Unsupported platform.`. It looks for `steamcmd`/`latest` in the
tool cache. On a miss it runs a fixed pipeline:

1. download the platform's archive into `RUNNER_TEMP`;
2. extract it;
3. register the extracted directory in the tool cache as (`steamcmd`, `latest`, `i386`);
4. bootstrap dependencies (apt on Linux);
5. post-install (the `bin/steamcmd` shim on Linux and Darwin);
6. run the tool once with `+quit`.

It then publishes the `directory` and `executable` outputs and adds the bin directory to
PATH.

The model is pure. Every collaborator is an oracle, the `Host` datatype: the cache lookup,
download, extractors, tool cache, process runner, filesystem and `RUNNER_TEMP`. Every call
on a collaborator is an `Event` in a trace. A step is a function returning a `Run`: a
`Result` (success value or `Error`) plus the calls it made, in order.

The modules follow the source:
- `Platforms`: the resolver.
- `PosixSteps`: the Linux and Darwin methods that are word-for-word the same.
- `LinuxSteps`, `DarwinSteps`, `WindowsSteps`: each platform's own methods.
- `InstallSteps`: the abstract base class's defaults, per-platform dispatch and the pipeline.
- `Installation`: the resolver plus `installIfNecessary`.
- `Action`: publishing the outputs.
- `Scenarios`: whole runs shaped like the repository's tests.
- `Paths`, `Effects`, `Results`: the shared vocabulary.

Three behaviours of the code that the model keeps exactly:
- **Linux dependency bootstrap.** A failed `apt-get update` aborts with
  `Couldn't update apt package index. Aborting.`. The per-package `dpkg-query` fallback runs
  only when `apt-get install` fails.
- **Which failure surfaces.** When the fallback finds packages missing, the last rejection is
  thrown (`pop`), so the model reports the last missing package in list order.
- **Windows paths.** The Windows profile rewrites every back-slash to a forward slash in all
  three fields of its record. The Linux and Darwin profiles leave their joined paths as they are.

## Model

| member | source | states |
|---|---|---|
| Results.MessageIdentifiesFailure | src/installation/platform-specific/LinuxInstallSteps.ts:22-53 | `Message` gives the installer's own texts: `Unsupported platform.` (installation.ts:17), `Not implemented.` (AbstractInstallSteps.ts:14-15), `Expected RUNNER_TEMP to be defined` (AbstractInstallSteps.ts:31-32), the two apt texts of LinuxInstallSteps.ts:23 and :53, and the first-run text of WindowsInstallSteps.ts:44-46; two of these texts are equal exactly when they are the same failure, down to the package named |
| Platforms.Resolve | src/installation/installation.ts:8-18 | exactly `darwin`, `linux` and `win32` resolve, each to the platform whose identifier it is; every other identifier is `UnsupportedPlatform` |
| Platforms.ResolveIdentifier | src/installation/main.ts:9-19 | each profile's own identifier resolves back to that profile |
| Platforms.ResolveRefusesOtherFamilies | src/main.ts:6-14 | `aix`, `freebsd`, `cygwin`, `openbsd`, `netbsd`, `sunos`, `android` and `haiku` are refused with the message `Unsupported platform.` |
| Paths.JoinSplits | src/platform-specific/darwin.install.steps.ts:38-39 | joining a directory and a separator-free name, then splitting at the last separator, gives back the directory and the name |
| Paths.ForwardSlashes | src/installation/platform-specific/WindowsInstallSteps.ts:10 | the global replacement keeps the length, turns each back-slash into `/`, leaves every other character in place, and leaves no back-slash |
| Paths.ForwardSlashesIdempotent | src/installation/platform-specific/WindowsInstallSteps.ts:20 | replacing again changes nothing, so the second replacement applied to the executable path is a no-op |
| Paths.ForwardSlashesJoin | src/installation/platform-specific/WindowsInstallSteps.ts:9-11 | rewriting a back-slash join equals the forward-slash join of the rewritten parts |
| Effects.Lift | src/installation/platform-specific/AbstractInstallSteps.ts:49-51 | an awaited collaborator's value is passed on, and its rejection propagates with its reason unchanged |
| LinuxSteps.DpkgQueries | src/installation/platform-specific/LinuxInstallSteps.ts:29-31 | one `dpkg-query` per dependency, in list order |
| LinuxSteps.CheckDependencyAlreadyInstalled | src/installation/platform-specific/LinuxInstallSteps.ts:41-54 | one `dpkg-query --show` call; passes iff its exit code is 0, else fails with `Failed to install <pkg>. See apt-get log.` |
| LinuxSteps.Rejections | src/installation/platform-specific/LinuxInstallSteps.ts:29-35 | the settled checks' rejections: empty iff every package's query exits 0, and each names a package whose query did not exit 0 |
| LinuxSteps.LastMissing | src/installation/platform-specific/LinuxInstallSteps.ts:29-38 | reference definition: the last package in list order whose query does not exit 0, or none |
| LinuxSteps.LastRejectionIsLastMissing | src/installation/platform-specific/LinuxInstallSteps.ts:37-38 | the rejection that is thrown (the last one) names the last missing package |
| LinuxSteps.InstallDependenciesOf | src/installation/platform-specific/LinuxInstallSteps.ts:20-39 | a failed refresh aborts with `AptUpdateFailed` after that one call; a successful install ends after two calls; otherwise every package is queried and the step passes iff all are present, failing with the last missing one |
| LinuxSteps.InstallDependencies | src/installation/platform-specific/LinuxInstallSteps.ts:19-27 | over `lib32gcc-s1`: passes iff the refresh succeeds and either the install succeeds or the package is already present |
| PosixSteps.PosixLayout | src/platform-specific/darwin.install.steps.ts:9-27 | of `GetInfo` and `ExecutablePath` (the same in LinuxInstallSteps.ts:11-13, 56-62 and DarwinInstallSteps.ts:8-23): the record's directory is the install directory; its executable `steamcmd.sh` and its `bin` sit right inside it; the shim `steamcmd` sits in `bin`, which is the PATH entry |
| PosixSteps.ShimRunsEntryPoint | src/installation/platform-specific/LinuxInstallSteps.ts:77 | the text `ShimScript` writes into the shim starts with `#!/bin/bash\n` and execs the quoted entry point of the install directory with `"$@"` |
| PosixSteps.ExtractArchive | src/installation/platform-specific/LinuxInstallSteps.ts:64-66 | one tar extraction of the archive into `steamcmd`, with the extractor's answer as result |
| PosixSteps.PostInstall | src/installation/platform-specific/LinuxInstallSteps.ts:72-79 | mkdir `bin`, write the shim, chmod it 0o755, in that order, stopping at the first failure with its reason; passes iff all three succeed |
| PosixSteps.TestFirstTimeRun | src/installation/platform-specific/LinuxInstallSteps.ts:81-83 | one run with `+quit`, return code not ignored: passes iff exit 0, else the process runner's rejection |
| WindowsSteps.WindowsLayout | src/installation/platform-specific/WindowsInstallSteps.ts:9-23 | of `ExecutablePath` and `GetInfo`: no field holds a back-slash; directory and PATH entry are both the rewritten install directory; the executable is `steamcmd.exe` right inside it, same length as the input directory |
| WindowsSteps.ExtractArchive | src/installation/platform-specific/WindowsInstallSteps.ts:25-27 | one zip extraction of the archive into `steamcmd` |
| WindowsSteps.TestFirstTimeRun | src/installation/platform-specific/WindowsInstallSteps.ts:29-47 | one run with `+quit`, return code read: passes iff exit 0 or 7, else `SteamCMD first-run test yielded an unexpected exit code. Aborting.` |
| InstallSteps.DefaultExtractArchive | src/installation/platform-specific/AbstractInstallSteps.ts:14 | without an override extraction fails with `Not implemented.` and calls nothing |
| InstallSteps.DefaultTestFirstTimeRun | src/installation/platform-specific/AbstractInstallSteps.ts:15 | without an override the first run fails with `Not implemented.` and calls nothing |
| InstallSteps.DefaultInstallDependencies | src/installation/platform-specific/AbstractInstallSteps.ts:17-19 | without an override the dependency step passes and calls nothing |
| InstallSteps.DefaultPostInstall | src/installation/platform-specific/AbstractInstallSteps.ts:21-23 | without an override the post-install step passes and calls nothing |
| InstallSteps.ArchiveNameShapes | src/installation/platform-specific/DarwinInstallSteps.ts:13-15 | `ArchiveName` takes each profile's own name (also LinuxInstallSteps.ts:15-17 and WindowsInstallSteps.ts:13-15), and every archive name is a plain `steamcmd…` file name: `.zip` on Windows, `.tar.gz` on Darwin and Linux |
| InstallSteps.InfoLayout | src/installation/platform-specific/AbstractInstallSteps.ts:56-59 | `ExecutablePath` and `GetInfo` take the profile's own definitions, and on every platform the record's executable is the entry point the first run uses, inside the reported directory; the PATH entry is `bin` on POSIX and the directory itself on Windows |
| InstallSteps.ExtractArchive | src/installation/platform-specific/DarwinInstallSteps.ts:25-27 | extraction is one call: zip on Windows, tar elsewhere |
| InstallSteps.InstallDependencies | src/installation/platform-specific/AbstractInstallSteps.ts:17-19 | only process runs; Darwin and Windows pass without any call |
| InstallSteps.PostInstall | src/installation/platform-specific/AbstractInstallSteps.ts:21-23 | only filesystem calls; Windows passes without any call; elsewhere a prefix of the shim calls |
| InstallSteps.TestFirstTimeRun | src/installation/platform-specific/DarwinInstallSteps.ts:45-47 | one `+quit` run, whose return code is ignored only on Windows; passes iff exit 0, or 7 on Windows |
| InstallSteps.DownloadUrl | src/installation/platform-specific/AbstractInstallSteps.ts:25-28 | the URL is the fixed installer base followed by the archive name, which comes back alongside it |
| InstallSteps.TempDirectory | src/installation/platform-specific/AbstractInstallSteps.ts:30-35 | `RUNNER_TEMP` when defined, else `Expected RUNNER_TEMP to be defined` |
| InstallSteps.DownloadArchive | src/installation/platform-specific/AbstractInstallSteps.ts:37-42 | without `RUNNER_TEMP` nothing is downloaded; else one download into the temp directory under the archive's name |
| InstallSteps.CacheInstalledTool | src/installation/platform-specific/AbstractInstallSteps.ts:44-46 | one registration under (`steamcmd`, `latest`, `i386`) |
| InstallSteps.VerifyStage | src/installation/platform-specific/AbstractInstallSteps.ts:56-59 | the first run of the directory's entry point; on success the directory's record |
| InstallSteps.PostInstallStage | src/installation/platform-specific/AbstractInstallSteps.ts:54-59 | only setup calls; a failed post-install is the outcome and the tool is not run; otherwise the post-install calls are followed by the first run, which decides the outcome; success yields the record of the registered directory |
| InstallSteps.DependencyStage | src/installation/platform-specific/AbstractInstallSteps.ts:53-59 | only setup calls; a failed dependency bootstrap is the outcome and no post-install call follows; otherwise the dependency calls come before the post-install stage's calls, and that stage's result is the result; on success the record of the given directory, with the first run as the last call |
| InstallSteps.CacheStage | src/installation/platform-specific/AbstractInstallSteps.ts:51-59 | registration comes first; a failed registration stops everything; the later steps work on the directory the cache returned |
| InstallSteps.ExtractStage | src/installation/platform-specific/AbstractInstallSteps.ts:50-59 | extraction comes first; a failed extraction stops everything; registration gets the extracted directory |
| InstallSteps.Install | src/installation/platform-specific/AbstractInstallSteps.ts:48-60 | the fresh install never looks in the cache or reports; without `RUNNER_TEMP` or with a failed download it stops there; otherwise the download is followed by the extraction stage; success needs `RUNNER_TEMP`, the download, the extraction and the registration to answer, and returns the record of the registered directory |
| InstallSteps.InstallSucceedsExactlyWhen | src/installation/platform-specific/AbstractInstallSteps.ts:48-60 | the fresh install succeeds if and only if every collaborator it calls answers: `RUNNER_TEMP`, download, extraction and registration; on Linux the apt refresh and the install or the package check; on Linux and Darwin mkdir, writeFile and chmod; and the first run exits 0, or 7 on Windows |
| InstallSteps.InstallIfNecessary | src/installation/platform-specific/AbstractInstallSteps.ts:62-71 | one lookup first; a non-empty answer returns its record after no other call; an empty answer runs the fresh install |
| InstallSteps.InstallUnfolds | src/installation/platform-specific/AbstractInstallSteps.ts:48-59 | when download, extraction and registration succeed, the install is those three calls followed by the steps on the registered directory |
| InstallSteps.MissUnfolds | src/installation/platform-specific/AbstractInstallSteps.ts:62-70 | on a miss whose download, extraction and registration succeed, the run is the lookup, those three calls, then the steps on the registered directory, with their result |
| InstallSteps.InstallIfNecessaryReportsNothing | src/installation/platform-specific/AbstractInstallSteps.ts:62-71 | neither a hit nor a miss sets an output or touches PATH |
| InstallSteps.CacheMissRunsEveryStepInOrder | src/installation/platform-specific/AbstractInstallSteps.ts:48-57 | a successful miss is: lookup, download, extraction of the downloaded file, registration of the extracted directory, setup calls only, and last the registered directory's first run |
| InstallSteps.CacheMissRunsEachStepOnce | src/installation/platform-specific/AbstractInstallSteps.ts:49-51 | on a successful miss the lookup, download, extraction and registration each happen exactly once |
| InstallSteps.EarlyFailureStopsInstall | src/installation/platform-specific/AbstractInstallSteps.ts:37-51 | missing `RUNNER_TEMP`, or a failed download, extraction or registration, ends the install with that error, the trace stopping at the failing call |
| InstallSteps.SetupFailureStopsInstall | src/installation/platform-specific/AbstractInstallSteps.ts:53-57 | a failed dependency, post-install or first-run step ends the install with its own error, and nothing later runs |
| InstallSteps.DependencyFailureStopsInstall | src/installation/platform-specific/AbstractInstallSteps.ts:53 | after a successful registration, a failed dependency step is the install's error and its calls are the last ones made |
| InstallSteps.PostInstallFailureStopsInstall | src/installation/platform-specific/AbstractInstallSteps.ts:54 | after successful dependencies, a failed post-install is the install's error, after its own calls and before any run of the tool |
| InstallSteps.FirstRunFailureStopsInstall | src/installation/platform-specific/AbstractInstallSteps.ts:56-57 | after a successful post-install, a failed first run of the registered directory's entry point is the install's error, and that run is the last call |
| InstallSteps.WindowsInstallHasNoSetupEffects | src/installation/platform-specific/WindowsInstallSteps.ts:8-48 | a successful Windows miss is exactly lookup, download, zip extraction, registration and one tolerant first run |
| Installation.AttemptInstall | src/installation/installation.ts:20-23 | unsupported: fails before any call; supported: exactly `installIfNecessary`'s run; never reports; on success the record of the found or registered directory |
| Action.AttemptInstall | src/installation/main.ts:21-27 | reports only after the install succeeded, appending the three reports of its record; a failure passes through unchanged |
| Action.UnsupportedPlatformDoesNothing | src/installation/main.ts:18-22 | an unsupported identifier fails with `Unsupported platform.` and no call at all |
| Action.FailureReportsNothing | src/main.ts:17-21 | a failed run sets no output and adds no PATH entry |
| Action.SuccessReportsOnceAtEnd | src/main.ts:18-21 | a successful run ends with the three calls of `Report`: `directory`, `executable`, then the PATH entry of the returned record; these are its only reports, so PATH is extended exactly once |
| Scenarios.WindowsInstallToleratesExitSeven | __tests__/main.test.ts:131-149 | with a first-run exit of 7 the Windows run passes, and its full trace is derived: the zip of the downloaded file, registration of the extracted directory, then the forward-slash `steamcmd.exe` of the registered one |
| Scenarios.DarwinInstallWritesShim | __tests__/main.test.ts:161-190 | the full Darwin trace, including mkdir of `<cached>/bin`, the shim write and chmod 493 before the strict first run of `<cached>/steamcmd.sh` |
| Scenarios.LinuxInstallBootstrapsApt | __tests__/main.test.ts:202-231 | the full Linux trace, with the apt refresh and install between registration and the shim |
| Scenarios.LinuxAptUpdateFailureAborts | src/installation/platform-specific/LinuxInstallSteps.ts:21-24 | a failed refresh ends the run right after it, with its message and no reports |
| Scenarios.CacheHitReportsFoundDirectory | src/installation/platform-specific/AbstractInstallSteps.ts:62-67 | a non-empty lookup gives one lookup followed by the found directory's reports (src/main.ts:18-21), with no install call |
| Scenarios.OtherFamiliesAreRefused | __tests__/main.test.ts:269-280 | each listed family is rejected with `Unsupported platform.` |
| Scenarios.DownloadUrlIsHttps | __tests__/main.test.ts:241-249 | every download URL is an absolute `https://steamcdn-a.akamaihd.net/client/installer/steamcmd…` URL |

## Left out

- Collaborators are modelled by their answers only. The internals of `toolCache.find`,
  `downloadTool`, `extractTar`, `extractZip`, `cacheDir`, `exec.exec`, `fs.mkdir`,
  `fs.writeFile` and `fs.chmod` are external libraries. Each is one `Host` answer and one
  trace event.
- `core.setOutput` and `core.addPath` are assumed to succeed. Each is one trace event with no
  `Host` answer. In the source they are external calls that can throw, for example when the
  runner's output or path file is missing. Such a throw fails the run after some outputs have
  already been set. The model does not represent a failure while reporting, so
  `Action.FailureReportsNothing` and `Action.SuccessReportsOnceAtEnd` are about install
  failures only.
- Apart from `dpkgStatus`, which answers per package, the oracle answers regardless of its
  arguments. In particular the Windows zip extractor's
  refusal of a non-`.zip` file is not modelled. `InstallSteps.ArchiveNameShapes` shows that the
  download destination ends in `.zip`. The path the extractor receives is the downloader's
  answer, which the model leaves free.
- Node's `path.join` normalisation is not modelled (`..`, doubled separators, rewriting `/`
  as `\` on Windows). `Paths.Join` is plain concatenation with the host's separator. That
  matches the source only for an already-normalised, non-empty directory: no `//`, `.` or `..`
  segment, no trailing separator and, on Windows, no `/`. The file name must also be plain.
- The cache lookup and the cache registration use different keys. The lookup
  (`toolCache.find('steamcmd', 'latest')`) names no architecture, so the library uses the
  runner's own. The registration (`cacheDir(…, 'steamcmd', 'latest', 'i386')`) is under `i386`.
  On a non-`i386` runner a registered copy may never be found again. The model does not say
  when `find` succeeds: the `found` answer is left free.
- Empty and trailing-separator segments are not dropped the way `path.join` drops them. With
  `RUNNER_TEMP` set to `""`, which passes the `=== undefined` test, Node downloads to
  `steamcmd_linux.tar.gz` and the model to `/steamcmd_linux.tar.gz`. A directory ending in a
  separator gets a doubled separator in the model.
- `Promise.allSettled` runs the dpkg checks concurrently. The model runs them in list order,
  which is the order of the settled results the code reads.
- Logging (`core.info`) is left out, since it has no effect on results or on the calls made.
  The process environment is reduced to "`RUNNER_TEMP` defined or not".
- Results.Message: the process runner's own wording for a rejected non-zero exit (`ExecFailed`)
  belongs to the exec library, so `Message` does not give a text for it.
- A process that cannot be started at all (a spawn failure) is not modelled. Exec calls always
  return an exit code.
- src/index.ts (the top-level `main`, `core.setFailed` and the fire-and-forget `wrap_main`) is
  runner wiring and is not part of this model.
- src/platform-specific/abstract.install.steps.ts and src/platform-specific/index.ts are not part
  of this model. The methods of darwin.install.steps.ts are word for word the `PosixSteps`
  methods. src/main.ts is modelled with the pipeline of
  src/installation/platform-specific/AbstractInstallSteps.ts.
- __tests__/main.test.ts:147 expects a back-slash executable path on Windows. That comes from
  the Windows variant of src/platform-specific/, which is not part of this model. The modelled
  WindowsInstallSteps.ts turns every back-slash into a forward slash, and
  `Scenarios.WindowsInstallToleratesExitSeven` states the forward-slash path.
- The unbound `this.extractArchive` and `this.cacheInstalledTool` passed to `.then` behave
  like bound ones, because neither method reads `this`. They are modelled as plain calls.
