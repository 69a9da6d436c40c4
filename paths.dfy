/** The two `os.path` operations the modelled code needs, on Windows and elsewhere. */
module Paths {
  import opened Text

  /** The separators `ntpath` accepts. */
  predicate IsNtSep(c: char) {
    c == '\\' || c == '/'
  }

  /** The separator `os.path.join` inserts: a backslash on Windows, `/` elsewhere. */
  function JoinSep(system: string): char {
    if system == "Windows" then '\\' else '/'
  }

  /**
   * When `os.path.join(a, b)` inserts nothing between `a` and `b`: after an empty
   * `a` or a trailing separator, and on Windows also after a bare drive `X:`.
   */
  predicate JoinsWithoutSep(system: string, a: string) {
    if system == "Windows" then a == [] || IsNtSep(a[|a| - 1]) || (|a| == 2 && a[1] == ':')
    else a == [] || a[|a| - 1] == '/'
  }

  /**
   * `os.path.join(a, b)` for a relative `b` without a drive: `posixpath` off Windows,
   * `ntpath` on it. `ntpath` adds no separator after a bare drive `X:` or a trailing
   * separator; a UNC share `\\host\share` gets one, like any other directory.
   */
  function PathJoin(system: string, a: string, b: string): (r: string)
    ensures r == a + b || r == a + [JoinSep(system)] + b
    ensures r == a + b <==> JoinsWithoutSep(system, a)
    ensures StartsWith(r, a)
    ensures |r| >= |a| + |b| && r[|r| - |b|..] == b
  {
    if system == "Windows" then
      if a == [] || IsNtSep(a[|a| - 1]) || (|a| == 2 && a[1] == ':') then a + b
      else a + "\\" + b
    else
      if a == [] || a[|a| - 1] == '/' then a + b else a + "/" + b
  }

  /**
   * `ntpath.split(p)[1]` of a path without a drive: the text after the last
   * separator, or all of `p` when it has none.
   */
  function NtTail(p: string): (tail: string)
    ensures |tail| <= |p| && p[|p| - |tail|..] == tail
    ensures forall i :: 0 <= i < |tail| ==> !IsNtSep(tail[i])
    ensures |tail| == |p| || IsNtSep(p[|p| - |tail| - 1])
  {
    if p == [] || IsNtSep(p[|p| - 1]) then []
    else
      var init := NtTail(p[..|p| - 1]);
      assert p[..|p| - 1][|p| - 1 - |init|..] == p[|p| - 1 - |init|..|p| - 1];
      init + [p[|p| - 1]]
  }
}
