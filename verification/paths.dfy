/**
 * POSIX path helpers as Python's `os.path` computes them: `basename` keeps
 * what follows the last '/', `join` glues a directory and a name with one '/'.
 */
module Paths {

  const Sep: char := '/'

  /** Index just past the last separator of `p`, or 0 when there is none. */
  function NameStart(p: string): (k: nat)
    ensures k <= |p|
    ensures k == 0 || p[k - 1] == Sep
    ensures forall i :: k <= i < |p| ==> p[i] != Sep
  {
    if |p| == 0 then 0
    else if p[|p| - 1] == Sep then |p|
    else NameStart(p[..|p| - 1])
  }

  /**
   * `os.path.basename(p)`: the longest suffix of `p` without a separator.
   * What is cut off is empty or ends with a separator, so no directory
   * component survives.
   */
  function Basename(p: string): (r: string)
    ensures Sep !in r
    ensures |r| <= |p| && p[|p| - |r|..] == r
    ensures |r| == |p| || p[|p| - |r| - 1] == Sep
  {
    p[NameStart(p)..]
  }

  /** `os.path.join(dir, name)` for a single second argument. */
  function PathJoin(dir: string, name: string): string {
    if |name| > 0 && name[0] == Sep then name
    else if |dir| == 0 || dir[|dir| - 1] == Sep then dir + name
    else dir + [Sep] + name
  }

  /**
   * Basename is characterised by where it starts: any cut point with only
   * non-separators after it and a separator (or nothing) just before it.
   */
  lemma BasenameAt(p: string, k: nat)
    requires k <= |p|
    requires forall i :: k <= i < |p| ==> p[i] != Sep
    requires k == 0 || p[k - 1] == Sep
    ensures Basename(p) == p[k..]
  {
    var start := NameStart(p);
    assert start == k;
  }

  /** A name without separators is its own basename. */
  lemma BasenameOfPlainName(p: string)
    requires Sep !in p
    ensures Basename(p) == p
  {
    BasenameAt(p, 0);
  }

  /** Taking the basename twice changes nothing. */
  lemma BasenameIdempotent(p: string)
    ensures Basename(Basename(p)) == Basename(p)
  {
    BasenameOfPlainName(Basename(p));
  }

  /**
   * Joining a directory with a separator-free name yields a path that starts
   * with the directory and whose basename is exactly that name: the name is
   * appended as one last component and nothing else is added.
   */
  lemma JoinPlainName(dir: string, name: string)
    requires Sep !in name
    ensures |dir| <= |PathJoin(dir, name)| && PathJoin(dir, name)[..|dir|] == dir
    ensures Basename(PathJoin(dir, name)) == name
    ensures |dir| > 0 && dir[|dir| - 1] != Sep ==> PathJoin(dir, name) == dir + "/" + name
  {
    var path := PathJoin(dir, name);
    if |name| > 0 {
      assert name[0] in name;
    }
    var k := |path| - |name|;
    assert path[k..] == name;
    forall i | k <= i < |path| ensures path[i] != Sep {
      assert path[i] == name[i - k];
      assert name[i - k] in name;
    }
    BasenameAt(path, k);
  }
}
