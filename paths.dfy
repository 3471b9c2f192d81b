/** Path strings as the provisioner builds them with Node's `path.join`. */
module Paths {

  /** `path.join(dir, name)` for a directory without a trailing separator: the two
      segments joined by one "/". */
  function Join(dir: string, name: string): string
  {
    dir + "/" + name
  }

  /** `p` names something strictly inside directory `dir`. */
  predicate IsUnder(p: string, dir: string)
  {
    |dir| < |p| && p[..|dir| + 1] == dir + "/"
  }

  lemma JoinIsUnder(dir: string, name: string)
    ensures IsUnder(Join(dir, name), dir)
    ensures Join(dir, name)[|dir| + 1..] == name
  {
  }

  /** `dir + suffix` is inside `dir` only when the suffix starts with the separator. */
  lemma SuffixNotUnder(dir: string, suffix: string)
    requires |suffix| > 0 && suffix[0] != '/'
    ensures !IsUnder(dir + suffix, dir)
  {
    assert (dir + suffix)[|dir|] == suffix[0];
  }
}
