/** The Darwin profile's own value: its archive. Everything else the Darwin
    profile does is `PosixSteps`, in both copies of the Darwin steps. */
module DarwinSteps {

  const ArchiveName := "steamcmd_osx.tar.gz"
}
