/**
 * The Windows path operations the service relies on: joining the upload
 * root, the bucket directory and the stored name (`path.join`), and taking
 * the last segment of a stored file's path (`path.basename`). Only paths
 * whose segments carry no separator are modelled; normalisation of `.`
 * and `..` segments and of trailing separators is not.
 */
module Paths {

  /** The storage root the service writes under. */
  const UploadRoot: string := "D:\\file-uploads"

  /** Both slashes separate segments of a Windows path. */
  predicate IsSeparator(c: char) {
    c == '\\' || c == '/'
  }

  predicate NoSeparator(s: string) {
    forall i :: 0 <= i < |s| ==> !IsSeparator(s[i])
  }

  /** `path.join(dir, name)` on Windows, for a `name` that is one segment. */
  function Join(dir: string, name: string): (p: string)
    ensures |p| == |dir| + 1 + |name|
    ensures p[..|dir|] == dir && p[|dir|] == '\\' && p[|dir| + 1..] == name
  {
    dir + "\\" + name
  }

  /**
   * `path.basename(p)` on Windows: the longest suffix of `p` without a
   * separator.
   */
  function Basename(p: string): (r: string)
    ensures NoSeparator(r)
    ensures |r| <= |p| && r == p[|p| - |r|..]
    ensures |r| < |p| ==> IsSeparator(p[|p| - |r| - 1])
  {
    if p == [] then []
    else if IsSeparator(p[|p| - 1]) then []
    else
      var q := p[..|p| - 1];
      var r := Basename(q);
      var r' := r + [p[|p| - 1]];
      assert r == q[|q| - |r|..];
      assert r' == p[|p| - |r'|..];
      assert |r| < |q| ==> q[|q| - |r| - 1] == p[|p| - |r'| - 1];
      assert NoSeparator(r') by {
        forall i | 0 <= i < |r'| ensures !IsSeparator(r'[i]) {
          if i < |r| { assert r'[i] == r[i]; }
        }
      }
      r'
  }

  /** The last segment of a joined path is the name that was joined. */
  lemma BasenameOfJoin(dir: string, name: string)
    requires NoSeparator(name)
    ensures Basename(Join(dir, name)) == name
  {
  }

  /**
   * A backslash inside the joined name is a separator: the last segment is
   * then only what follows it.
   */
  lemma BasenameCutsAtBackslash(dir: string)
    ensures Basename(Join(dir, "a\\b")) == "b"
  {
  }

}
