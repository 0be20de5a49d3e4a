/**
 * Path handling of the watcher: the prefix test `isSubpath`
 * (lib/fswatcher/fswatcher.go) and a model of `filepath.Rel` for the paths it
 * accepts.
 */
module Paths {

  /** The path separator of the Unix build, as `os.IsPathSeparator` reports it. */
  predicate IsPathSeparator(c: char) {
    c == '/'
  }

  const Separator: char := '/'

  /** Drops one trailing separator, but never reduces a one-character path. */
  function StripTrailingSeparator(s: string): (r: string)
    ensures r <= s
    ensures |s| <= 1 ==> r == s
    ensures |r| == |s| || (|r| == |s| - 1 && |s| > 1 && IsPathSeparator(s[|s| - 1]))
    ensures |s| > 1 && IsPathSeparator(s[|s| - 1]) ==> |r| == |s| - 1
  {
    if |s| > 1 && IsPathSeparator(s[|s| - 1]) then s[..|s| - 1] else s
  }

  /** A path that does not end in a separator is left as it is. */
  lemma KeepsUnterminated(p: string)
    requires |p| >= 1 && !IsPathSeparator(p[|p| - 1])
    ensures StripTrailingSeparator(p) == p
  {
  }

  /** `isSubpath`: plain prefix containment after normalising both sides. */
  predicate IsSubpath(path: string, folderPath: string) {
    StripTrailingSeparator(folderPath) <= StripTrailingSeparator(path)
  }

  /** The folder itself is accepted. */
  lemma SubpathReflexive(p: string)
    ensures IsSubpath(p, p)
  {
  }

  /** A trailing separator on the event path does not change the verdict. */
  lemma TrailingSeparatorOnPath(p: string, f: string)
    requires |p| >= 1 && !IsPathSeparator(p[|p| - 1])
    ensures IsSubpath(p + [Separator], f) <==> IsSubpath(p, f)
  {
    assert StripTrailingSeparator(p + [Separator]) == p;
  }

  /** A trailing separator on the folder path does not change the verdict. */
  lemma TrailingSeparatorOnFolder(p: string, f: string)
    requires |f| >= 1 && !IsPathSeparator(f[|f| - 1])
    ensures IsSubpath(p, f + [Separator]) <==> IsSubpath(p, f)
  {
    assert StripTrailingSeparator(f + [Separator]) == f;
  }

  /** Everything that extends an accepted path is accepted too. */
  lemma {:induction false} SubpathExtends(p: string, q: string, f: string)
    requires IsSubpath(p, f) && q != []
    ensures IsSubpath(p + q, f)
  {
    var sf, sp, spq := StripTrailingSeparator(f), StripTrailingSeparator(p), StripTrailingSeparator(p + q);
    assert |spq| >= |p|;
    assert p <= spq by {
      forall i | 0 <= i < |p| ensures p[i] == spq[i] {
        assert spq[i] == (p + q)[i];
      }
    }
    assert sp <= p;
  }

  /** Under the root `/`, every absolute path is accepted. */
  lemma EveryAbsolutePathUnderRoot(p: string)
    requires |p| >= 1 && IsPathSeparator(p[0])
    ensures IsSubpath(p, [Separator])
  {
    var sp := StripTrailingSeparator(p);
    assert |sp| >= 1 && sp[0] == p[0];
  }

  /** The test compares characters, not path components: `/rother` is inside `/r`. */
  lemma NonComponentAccepted()
    ensures IsSubpath("/rother", "/r")
  {
    assert "/r" == "/rother"[..2];
  }

  /** A path outside the folder is refused. */
  lemma OutsidePathRefused()
    ensures !IsSubpath("/other/x.txt", "/r")
  {
    assert "/other/x.txt"[1] != "/r"[1];
  }

  /** The part of `f` after its last separator. */
  function LastElement(f: string): (r: string)
    ensures |r| <= |f| && r == f[|f| - |r|..]
    ensures forall i :: 0 <= i < |r| ==> !IsPathSeparator(r[i])
    ensures |r| < |f| ==> IsPathSeparator(f[|f| - |r| - 1])
  {
    if f == [] then []
    else if IsPathSeparator(f[|f| - 1]) then []
    else LastElement(f[..|f| - 1]) + [f[|f| - 1]]
  }

  /**
   * `filepath.Rel(folderPath, path)` for a path that `IsSubpath` accepted,
   * on clean paths: what is left after the folder, without its leading
   * separator; `.` for the folder itself; and `../<last element><rest>` when
   * the folder is a prefix that ends inside a path element.
   */
  function RelPath(folderPath: string, path: string): (r: string)
    requires IsSubpath(path, folderPath)
    ensures r != []
  {
    var f := StripTrailingSeparator(folderPath);
    var p := StripTrailingSeparator(path);
    var rest := p[|f|..];
    if rest == [] then "."
    else if IsPathSeparator(rest[0]) then (if |rest| == 1 then "." else rest[1..])
    else if f == [] || IsPathSeparator(f[|f| - 1]) then rest
    else ".." + [Separator] + LastElement(f) + rest
  }

  /** The folder relative to itself is `.`, with or without a trailing separator. */
  lemma RelPathOfFolder(f: string)
    requires |f| >= 1 && !IsPathSeparator(f[|f| - 1])
    ensures IsSubpath(f, f) && RelPath(f, f) == "."
    ensures IsSubpath(f + [Separator], f) && RelPath(f, f + [Separator]) == "."
  {
    assert StripTrailingSeparator(f + [Separator]) == f;
  }

  /** Round trip: joining a relative path onto the folder and taking `Rel` gives it back. */
  lemma RelPathOfJoin(f: string, q: string)
    requires |f| >= 1 && !IsPathSeparator(f[|f| - 1])
    requires q != [] && !IsPathSeparator(q[0]) && !IsPathSeparator(q[|q| - 1])
    ensures IsSubpath(f + [Separator] + q, f)
    ensures RelPath(f, f + [Separator] + q) == q
  {
    var p := f + [Separator] + q;
    assert StripTrailingSeparator(p) == p;
    assert p[|f|..] == [Separator] + q;
    assert p[..|f|] == f;
  }

  /** Under the root folder `/`, the relative path is the absolute path without its leading separator. */
  lemma RelPathUnderRoot(p: string)
    requires |p| >= 2 && IsPathSeparator(p[0]) && !IsPathSeparator(p[1]) && !IsPathSeparator(p[|p| - 1])
    ensures IsSubpath(p, [Separator])
    ensures RelPath([Separator], p) == p[1..]
  {
    KeepsUnterminated(p);
  }

  /**
   * A path that shares only a character prefix with the folder leaves it
   * through `..`: `Rel("/r", "/rother")` is `../rother`.
   */
  lemma NonComponentRelPath(f: string, p: string)
    requires |f| >= 1 && !IsPathSeparator(f[|f| - 1])
    requires |p| > |f| && p[..|f|] == f && !IsPathSeparator(p[|f|]) && !IsPathSeparator(p[|p| - 1])
    ensures IsSubpath(p, f)
    ensures RelPath(f, p) == ".." + [Separator] + LastElement(f) + p[|f|..]
  {
    KeepsUnterminated(f);
    KeepsUnterminated(p);
  }
}
