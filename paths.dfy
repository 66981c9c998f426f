/** The POSIX path operations of `os.path` that the render path uses. */
module Paths {
  import opened Strings

  /** `os.path.join(a, b)`: an absolute `b` replaces `a`; otherwise one '/' separates them. */
  function PathJoin(a: string, b: string): string
  {
    if StartsWith(b, "/") then b
    else if a == "" || EndsWith(a, "/") then a + b
    else a + "/" + b
  }

  /** `os.path.split(p)[-1]`: the longest suffix of `p` that holds no '/'. */
  function Tail(p: string): (r: string)
    ensures '/' !in r
    ensures EndsWith(p, r)
    ensures |r| < |p| ==> p[|p| - |r| - 1] == '/'
  {
    if p == [] || p[|p| - 1] == '/' then ""
    else
      var r := Tail(p[..|p| - 1]) + [p[|p| - 1]];
      assert p[..|p| - 1] + [p[|p| - 1]] == p;
      r
  }

  /** Joining a relative name under a directory and then appending a suffix is the same
      as joining the suffixed name. */
  lemma PathJoinSuffix(a: string, b: string, suffix: string)
    requires !StartsWith(b, "/") && !StartsWith(b + suffix, "/")
    ensures PathJoin(a, b + suffix) == PathJoin(a, b) + suffix
  {
  }
}
