/**
 * The path and string helpers the plugin relies on: Node's `path.join`,
 * `path.resolve`, `path.basename`, `String.prototype.endsWith` and the
 * backslash-to-slash replacement `s.replace(/\\/g, '/')`. Paths are taken as
 * already normalised POSIX strings, so joining is concatenation with `/`.
 */
module Paths {

  /** `s` ends with `suffix`. */
  predicate EndsWith(s: string, suffix: string) {
    |suffix| <= |s| && s[|s| - |suffix|..] == suffix
  }

  /** `path.join(dir, name)` on normalised strings. */
  function Join(dir: string, name: string): (r: string)
    ensures |r| == |dir| + 1 + |name|
    ensures r[..|dir|] == dir && r[|dir|] == '/' && r[|dir| + 1..] == name
  {
    dir + "/" + name
  }

  /** A joined path determines the name that was joined onto a given directory. */
  lemma JoinInjective(dir: string, a: string, b: string)
    requires Join(dir, a) == Join(dir, b)
    ensures a == b
  {
    assert a == Join(dir, a)[|dir| + 1..];
  }

  lemma JoinEndsWith(dir: string, name: string, suffix: string)
    requires EndsWith(name, suffix)
    ensures EndsWith(Join(dir, name), suffix)
  {
    var r := Join(dir, name);
    assert r[|r| - |suffix|..] == name[|name| - |suffix|..];
  }

  predicate IsAbsolute(p: string) {
    |p| > 0 && p[0] == '/'
  }

  /**
   * `path.resolve(root, p)`: an absolute `p` is kept, a relative one is
   * placed under `root`.
   */
  function Resolve(root: string, p: string): (r: string)
    ensures IsAbsolute(p) ==> r == p
    ensures !IsAbsolute(p) ==> r == Join(root, p)
    ensures IsAbsolute(root) ==> IsAbsolute(r)
  {
    if IsAbsolute(p) then p else Join(root, p)
  }

  /** Where the last segment of `p` begins: just after its last `/`, or 0. */
  function SegmentStart(p: string): (k: nat)
    ensures k <= |p|
    ensures forall i :: k <= i < |p| ==> p[i] != '/'
    ensures k > 0 ==> p[k - 1] == '/'
    decreases |p|
  {
    if p == [] then 0
    else if p[|p| - 1] == '/' then |p|
    else SegmentStart(p[..|p| - 1])
  }

  /** `path.basename(p)`: the text after the last `/`. */
  function Basename(p: string): (r: string)
    ensures '/' !in r
  {
    p[SegmentStart(p)..]
  }

  /** A path with no `/` is its own basename. */
  lemma {:induction false} BasenameOfName(p: string)
    requires '/' !in p
    ensures Basename(p) == p
  {
  }

  /** The basename of a joined path is the joined name when that name has no `/`. */
  lemma {:induction false} BasenameOfJoin(dir: string, name: string)
    requires '/' !in name
    ensures Basename(Join(dir, name)) == name
  {
    var p := Join(dir, name);
    assert p[|dir|] == '/';
    assert forall i :: |dir| < i < |p| ==> p[i] == name[i - |dir| - 1];
    assert SegmentStart(p) == |dir| + 1;
  }

  /** `s.replace(/\\/g, '/')`: every backslash becomes a forward slash. */
  function ForwardSlashes(s: string): (r: string)
    ensures |r| == |s|
    ensures forall i :: 0 <= i < |s| ==> r[i] == (if s[i] == '\\' then '/' else s[i])
  {
    seq(|s|, i requires 0 <= i < |s| => if s[i] == '\\' then '/' else s[i])
  }

  lemma ForwardSlashesHasNoBackslash(s: string)
    ensures '\\' !in ForwardSlashes(s)
  {
    var r := ForwardSlashes(s);
    forall i | 0 <= i < |r| ensures r[i] != '\\' {
    }
  }
}
