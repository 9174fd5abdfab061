/** Paths as the program builds them with os.path.join, and the string
    helpers it applies to names (os.path.basename, str.endswith). */
module Paths {

  type Name = string

  /** A filesystem path: the destination directory given on the command line,
      the k-th directory made by tempfile.mkdtemp during a run, or the entry
      called `name` inside `parent` (os.path.join(parent, name)). */
  datatype Path = Root(dir: string) | Temp(serial: nat) | Child(parent: Path, name: Name)

  /** os.path.basename of a '/'-separated string: the text after the last '/',
      or the whole string when it has no '/'. The ensures clauses determine
      the result: a '/'-free suffix that is either all of `s` or preceded by '/'. */
  function LastSegment(s: string): (r: string)
    ensures '/' !in r
    ensures |r| <= |s| && r == s[|s| - |r|..]
    ensures |r| < |s| ==> s[|s| - |r| - 1] == '/'
  {
    if s == [] || s[|s| - 1] == '/' then []
    else LastSegment(s[..|s| - 1]) + [s[|s| - 1]]
  }

  /** Taking the basename undoes joining a '/'-free name onto a directory. */
  lemma {:induction false} LastSegmentOfJoined(dir: string, name: string)
    requires '/' !in name
    ensures LastSegment(dir + "/" + name) == name
  {
    if name != [] {
      var init := name[..|name| - 1];
      assert (dir + "/" + name)[..|dir + "/" + name| - 1] == dir + "/" + init;
      LastSegmentOfJoined(dir, init);
      assert init + [name[|name| - 1]] == name;
    } else {
      assert dir + "/" + name == dir + "/";
    }
  }

  /** str.endswith: `suffix` is the tail of `s`. */
  predicate EndsWith(s: string, suffix: string)
  {
    |suffix| <= |s| && s[|s| - |suffix|..] == suffix
  }
}
