/** The three supported platforms and the resolver that picks one from the
    host's platform identifier. */
module Platforms {
  import opened Results

  datatype Platform = Darwin | Linux | Windows

  /** The host identifier of each supported platform. */
  function Identifier(p: Platform): string
  {
    match p
    case Darwin => "darwin"
    case Linux => "linux"
    case Windows => "win32"
  }

  /** The install-step profile for a host identifier: exactly the three
      supported identifiers resolve, to the platform they name; every other
      identifier is rejected as unsupported. */
  function Resolve(id: string): (r: Result<Platform>)
    ensures r.Ok? <==> id == "darwin" || id == "linux" || id == "win32"
    ensures r.Ok? ==> Identifier(r.value) == id
    ensures r.Err? ==> r.error == UnsupportedPlatform
  {
    if id == "darwin" then Ok(Darwin)
    else if id == "linux" then Ok(Linux)
    else if id == "win32" then Ok(Windows)
    else Err(UnsupportedPlatform)
  }

  /** Resolving a platform's own identifier gives that platform back. */
  lemma ResolveIdentifier(p: Platform)
    ensures Resolve(Identifier(p)) == Ok(p)
  {
  }

  /** The operating-system families Node reports besides the supported three. */
  const OtherFamilies := ["aix", "freebsd", "cygwin", "openbsd", "netbsd", "sunos", "android", "haiku"]

  /** The other operating-system families are all refused with the message
      `Unsupported platform.`. */
  lemma ResolveRefusesOtherFamilies(id: string)
    requires id in OtherFamilies
    ensures Resolve(id).Err?
    ensures Message(Resolve(id).error) == "Unsupported platform."
  {
  }

  /** The host's path separator, which the host's path joining uses. */
  function Sep(p: Platform): char
  {
    if p.Windows? then '\\' else '/'
  }
}
