/** Path strings as the installer builds them: joining with an explicit
    separator, splitting at the last separator, and the Windows profile's
    global replacement of back-slashes by forward slashes. */
module Paths {

  /** `dir`, a separator and `name`, as the host's path joining produces for
      a plain directory and a plain file name. */
  function Join(dir: string, name: string, sep: char): string
  {
    dir + [sep] + name
  }

  /** Index of the last `sep` in `path`, or -1 when there is none. */
  function LastSep(path: string, sep: char): (k: int)
    ensures -1 <= k < |path|
    ensures k >= 0 ==> path[k] == sep
    ensures forall i :: k < i < |path| ==> path[i] != sep
  {
    if |path| == 0 then -1
    else if path[|path| - 1] == sep then |path| - 1
    else LastSep(path[..|path| - 1], sep)
  }

  /** Everything before the last separator (the containing directory). */
  function Parent(path: string, sep: char): string
  {
    var k := LastSep(path, sep);
    if k < 0 then "" else path[..k]
  }

  /** Everything after the last separator (the entry's own name). */
  function Base(path: string, sep: char): string
  {
    var k := LastSep(path, sep);
    path[k + 1..]
  }

  /** Splitting a join at its last separator gives back both parts. */
  lemma JoinSplits(dir: string, name: string, sep: char)
    requires sep !in name
    ensures Parent(Join(dir, name, sep), sep) == dir
    ensures Base(Join(dir, name, sep), sep) == name
  {
    var p := Join(dir, name, sep);
    assert p[|dir|] == sep;
    assert forall i :: |dir| < i < |p| ==> p[i] == name[i - |dir| - 1];
    assert LastSep(p, sep) == |dir|;
    assert p[..|dir|] == dir;
    assert p[|dir| + 1..] == name;
  }

  /** The character a back-slash-to-slash replacement puts in place of `c`. */
  function Slash(c: char): char
  {
    if c == '\\' then '/' else c
  }

  /** The string with every back-slash replaced by a forward slash. */
  function ForwardSlashes(s: string): (r: string)
    ensures |r| == |s|
    ensures forall i :: 0 <= i < |s| && s[i] == '\\' ==> r[i] == '/'
    ensures forall i :: 0 <= i < |s| && s[i] != '\\' ==> r[i] == s[i]
    ensures '\\' !in r
  {
    seq(|s|, i requires 0 <= i < |s| => Slash(s[i]))
  }

  /** A string without back-slashes is left as it is. */
  lemma ForwardSlashesKeepsClean(s: string)
    requires '\\' !in s
    ensures ForwardSlashes(s) == s
  {
    var r := ForwardSlashes(s);
    assert forall i :: 0 <= i < |s| ==> r[i] == s[i];
  }

  /** Replacing twice is replacing once. */
  lemma ForwardSlashesIdempotent(s: string)
    ensures ForwardSlashes(ForwardSlashes(s)) == ForwardSlashes(s)
  {
    ForwardSlashesKeepsClean(ForwardSlashes(s));
  }

  /** The replacement works character by character, so it distributes over
      concatenation. */
  lemma ForwardSlashesAppend(a: string, b: string)
    ensures ForwardSlashes(a + b) == ForwardSlashes(a) + ForwardSlashes(b)
  {
    var l := ForwardSlashes(a + b);
    var r := ForwardSlashes(a) + ForwardSlashes(b);
    assert forall i :: 0 <= i < |a + b| ==> l[i] == r[i] by {
      forall i | 0 <= i < |a + b|
        ensures l[i] == r[i]
      {
        if i < |a| {
          assert (a + b)[i] == a[i];
        } else {
          assert (a + b)[i] == b[i - |a|];
        }
      }
    }
  }

  /** Normalising a back-slash join gives the forward-slash join of the
      normalised parts. */
  lemma ForwardSlashesJoin(dir: string, name: string)
    ensures ForwardSlashes(Join(dir, name, '\\')) == Join(ForwardSlashes(dir), ForwardSlashes(name), '/')
  {
    ForwardSlashesAppend(dir + ['\\'], name);
    ForwardSlashesAppend(dir, ['\\']);
  }
}
