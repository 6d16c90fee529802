/**
 * The `posixpath` helpers the handlers call: `basename`, `dirname`,
 * `splitext` (its extension part) and two-argument `join`.
 */
module PosixPath {
  import opened PyStr

  /** `s.rfind(c)`: the last index of `c`, or -1. */
  function RFind(s: string, c: char): (i: int)
    ensures -1 <= i < |s|
    ensures i >= 0 ==> s[i] == c
    ensures forall k :: i < k < |s| ==> s[k] != c
  {
    if s == [] then -1
    else if s[|s| - 1] == c then |s| - 1
    else RFind(s[..|s| - 1], c)
  }

  predicate AllSlashes(s: string) {
    forall i :: 0 <= i < |s| ==> s[i] == '/'
  }

  /** `s.rstrip('/')`. */
  function RStripSlashes(s: string): (r: string)
    ensures |r| <= |s| && r == s[..|r|]
    ensures r == [] || r[|r| - 1] != '/'
    ensures forall i :: |r| <= i < |s| ==> s[i] == '/'
  {
    if s != [] && s[|s| - 1] == '/' then RStripSlashes(s[..|s| - 1]) else s
  }

  /** `posixpath.basename(p)`: everything after the last '/'. */
  function Basename(p: string): (b: string)
    ensures '/' !in b
    ensures EndsWith(p, b)
    ensures |b| < |p| ==> p[|p| - |b| - 1] == '/'
  {
    p[RFind(p, '/') + 1..]
  }

  /**
   * `posixpath.dirname(p)`: everything up to the last '/', with trailing
   * slashes removed unless that prefix consists of slashes only.
   */
  function Dirname(p: string): (d: string)
    ensures |d| <= |p| && d == p[..|d|]
  {
    var head := p[..RFind(p, '/') + 1];
    if head != [] && !AllSlashes(head) then RStripSlashes(head) else head
  }

  /** `dirname` strictly shortens every path that holds a character other than '/'. */
  lemma DirnameShrinks(p: string)
    requires !AllSlashes(p)
    ensures |Dirname(p)| < |p|
  {
    var i := RFind(p, '/') + 1;
    var head := p[..i];
    if i == |p| {
      assert head == p;
      assert p[|p| - 1] == '/';
    }
  }

  /** A path made only of slashes is its own `dirname` (the string "//", say). */
  lemma DirnameOfSlashes(p: string)
    requires AllSlashes(p)
    ensures Dirname(p) == p
  {
    if p != [] {
      assert RFind(p, '/') == |p| - 1;
      assert p[..|p|] == p;
    }
  }

  /** The path is its `dirname`, a '/', and its `basename`, up to the slashes `dirname` strips. */
  lemma DirnameBasename(p: string)
    ensures StartsWith(p, Dirname(p))
    ensures forall i :: |Dirname(p)| <= i < |p| - |Basename(p)| ==> p[i] == '/'
  {
    var i := RFind(p, '/') + 1;
    var head := p[..i];
    assert |Basename(p)| == |p| - i;
  }

  /** `posixpath.join(a, b)` for two components. */
  function Join(a: string, b: string): (r: string)
    ensures StartsWith(b, "/") ==> r == b
    ensures !StartsWith(b, "/") ==> EndsWith(r, b) && StartsWith(r, a)
  {
    if StartsWith(b, "/") then b
    else if a == [] || EndsWith(a, "/") then a + b
    else a + "/" + b
  }

  /** Some character of `p[from..to]` is not '.'. */
  predicate HasNonDot(p: string, from: nat, to: nat)
    requires from <= to <= |p|
  {
    exists k :: from <= k < to && p[k] != '.'
  }

  /**
   * The extension part of `posixpath.splitext(p)`: from the last '.' on, when
   * that dot lies in the final component and is not part of the leading dots
   * of that component; otherwise empty.
   */
  function Extension(p: string): (e: string)
    ensures e == [] || (e[0] == '.' && EndsWith(p, e) && '/' !in e)
  {
    var sepIndex := RFind(p, '/');
    var dotIndex := RFind(p, '.');
    if dotIndex > sepIndex && HasNonDot(p, sepIndex + 1, dotIndex) then p[dotIndex..] else []
  }
}
