/**
 * POSIX path handling as used by the adapter: `os.path.join` (posixpath.join) and
 * the split of a path into its directory part and its base name.
 */
module Paths {

  /** The POSIX path separator. */
  const SEP: char := '/'

  /** A path is absolute when it starts with the separator. */
  predicate IsAbsolute(p: string) {
    |p| > 0 && p[0] == SEP
  }

  /**
   * What `a` contributes in front of a relative component joined to it:
   * `a` itself when it is empty or already ends in a separator, otherwise
   * `a` followed by one separator.
   */
  function DirPrefix(a: string): (d: string)
    ensures a <= d && |d| <= |a| + 1
    ensures d == [] || d[|d| - 1] == SEP
    ensures d == [] <==> a == []
  {
    if a == [] || a[|a| - 1] == SEP then a else a + [SEP]
  }

  /**
   * posixpath.join(a, b): an absolute `b` replaces `a`; otherwise `b` is appended
   * to `a` with exactly one separator between them unless `a` is empty or already
   * ends in one. The many-argument join is this applied from left to right.
   */
  function Join(a: string, b: string): (r: string)
    ensures IsAbsolute(b) ==> r == b
    ensures !IsAbsolute(b) ==> a <= r && |b| <= |r| && r[|r| - |b|..] == b
    ensures !IsAbsolute(b) ==> |r| <= |a| + 1 + |b|
    ensures !IsAbsolute(b) && (a == [] || a[|a| - 1] == SEP) ==> r == a + b
    ensures !IsAbsolute(b) && a != [] && a[|a| - 1] != SEP ==> r == a + [SEP] + b
  {
    if IsAbsolute(b) then b else DirPrefix(a) + b
  }

  /** Index of the last separator in `p` (what `p.rfind('/')` returns), -1 if there is none. */
  function LastSep(p: string): (k: int)
    ensures -1 <= k < |p|
    ensures k >= 0 ==> p[k] == SEP
    ensures forall j :: k < j < |p| ==> p[j] != SEP
  {
    if p == [] then -1
    else if p[|p| - 1] == SEP then |p| - 1
    else LastSep(p[..|p| - 1])
  }

  /** posixpath.basename: the longest suffix of `p` free of separators. */
  function BaseName(p: string): (r: string)
    ensures SEP !in r
    ensures |r| <= |p| && p[|p| - |r|..] == r
    ensures |r| < |p| ==> p[|p| - |r| - 1] == SEP
  {
    p[LastSep(p) + 1..]
  }

  /** Everything of `p` up to and including its last separator. */
  function DirPart(p: string): (r: string)
    ensures r + BaseName(p) == p
    ensures r == [] || r[|r| - 1] == SEP
  {
    p[..LastSep(p) + 1]
  }

  /** Past a prefix that is empty or ends in a separator, a separator-free tail adds no separator. */
  lemma {:induction false} LastSepAfterDirectory(d: string, b: string)
    requires d == [] || d[|d| - 1] == SEP
    requires SEP !in b
    ensures LastSep(d + b) == |d| - 1
    decreases |b|
  {
    if b == [] {
      assert d + b == d;
    } else {
      var p := d + b;
      assert p[|p| - 1] == b[|b| - 1] && b[|b| - 1] in b;
      assert p[..|p| - 1] == d + b[..|b| - 1];
      assert forall c :: c in b[..|b| - 1] ==> c in b;
      LastSepAfterDirectory(d, b[..|b| - 1]);
    }
  }

  /**
   * Joining a separator-free name onto a directory can be undone: the base name of
   * the result is the name, and its directory part is the directory with one
   * trailing separator.
   */
  lemma {:induction false} JoinSplitsBack(a: string, b: string)
    requires SEP !in b
    ensures BaseName(Join(a, b)) == b
    ensures DirPart(Join(a, b)) == DirPrefix(a)
  {
    if b != [] {
      assert b[0] in b;
    }
    var d := DirPrefix(a);
    assert Join(a, b) == d + b;
    LastSepAfterDirectory(d, b);
  }

  /**
   * Under the conditions the adapter's components meet (a non-empty directory not
   * ending in a separator, a relative name) join is plain concatenation with `/`.
   */
  lemma JoinIsConcatenation(a: string, b: string)
    requires a != [] && a[|a| - 1] != SEP
    requires !IsAbsolute(b)
    ensures Join(a, b) == a + "/" + b
  {
  }
}
