/**
 * POSIX path handling as the tool uses it: `os.path.isabs`, `os.path.basename`,
 * `os.path.join`, the two path-resolution rules (documents and images) and the
 * ".pptx" extension rule applied before saving.
 */
module Paths {

  /** The file extension the saved presentation is forced to carry. */
  const Extension: string := ".pptx"

  /** `os.path.isabs` on POSIX: the path starts with a slash. */
  predicate IsAbs(p: string) {
    |p| > 0 && p[0] == '/'
  }

  predicate StartsWith(s: string, prefix: string) {
    |prefix| <= |s| && s[..|prefix|] == prefix
  }

  predicate EndsWith(s: string, suffix: string) {
    |suffix| <= |s| && s[|s| - |suffix|..] == suffix
  }

  /**
   * `os.path.basename`: everything after the last slash. The result is the
   * longest slash-free suffix of `p`.
   */
  function Basename(p: string): (b: string)
    ensures '/' !in b
    ensures EndsWith(p, b)
    ensures |b| < |p| ==> p[|p| - |b| - 1] == '/'
  {
    if p == [] || p[|p| - 1] == '/' then [] else Basename(p[..|p| - 1]) + [p[|p| - 1]]
  }

  /**
   * `os.path.join(a, b)` with two arguments: an absolute `b` replaces `a`;
   * otherwise `b` is appended to `a` with one separating slash, unless `a`
   * is empty or already ends with one.
   */
  function Join(a: string, b: string): (r: string)
    ensures IsAbs(b) ==> r == b
    ensures !IsAbs(b) ==> StartsWith(r, a) && EndsWith(r, b) && |a| + |b| <= |r| <= |a| + |b| + 1
    ensures !IsAbs(b) && a != [] ==> r[|r| - |b| - 1] == '/'
    ensures !IsAbs(b) && (a == [] || EndsWith(a, "/")) ==> |r| == |a| + |b|
    ensures !IsAbs(b) && a != [] && !EndsWith(a, "/") ==> |r| == |a| + |b| + 1
    ensures IsAbs(a) ==> IsAbs(r)
  {
    if IsAbs(b) then b
    else if a == [] || a[|a| - 1] == '/' then a + b
    else a + "/" + b
  }

  /**
   * Where a presentation's `file_path` is stored: an absolute path is
   * re-rooted to its basename directly under `root`, a relative one is
   * joined onto `root`.
   */
  function ResolveDocPath(root: string, p: string): (r: string)
    ensures StartsWith(r, root)
    ensures IsAbs(root) ==> IsAbs(r)
    ensures !IsAbs(p) ==> EndsWith(r, p)
    ensures IsAbs(p) ==> EndsWith(r, Basename(p))
    ensures IsAbs(p) ==> forall i | |root| < i < |r| :: r[i] != '/'
  {
    if IsAbs(p) then Join(root, Basename(p)) else Join(root, p)
  }

  /**
   * Where an `image_path` is looked for: an absolute path is used as it is,
   * a relative one is joined onto `root`.
   */
  function ResolveImagePath(root: string, p: string): (r: string)
    ensures IsAbs(p) ==> r == p
    ensures !IsAbs(p) ==> StartsWith(r, root) && EndsWith(r, p)
  {
    if IsAbs(p) then p else Join(root, p)
  }

  /** The save path: ".pptx" is appended unless the path already ends with it. */
  function WithPptx(p: string): (r: string)
    ensures EndsWith(r, Extension)
    ensures StartsWith(r, p) && |r| <= |p| + |Extension|
    ensures EndsWith(p, Extension) ==> r == p
  {
    if EndsWith(p, Extension) then p else p + Extension
  }

  /** Whatever directories precede the last slash, the basename is what follows it. */
  lemma {:induction false} BasenameAfterSlash(d: string, n: string)
    requires '/' !in n
    ensures Basename(d + "/" + n) == n
  {
    var p := d + "/" + n;
    if n == [] {
      assert p[|p| - 1] == '/';
    } else {
      var q := d + "/" + n[..|n| - 1];
      assert p[..|p| - 1] == q;
      assert p[|p| - 1] == n[|n| - 1];
      BasenameAfterSlash(d, n[..|n| - 1]);
      assert n[..|n| - 1] + [n[|n| - 1]] == n;
    }
  }

  /**
   * An absolute document path lands exactly where its bare basename would:
   * the directories it names are dropped, not recreated under the root.
   */
  lemma AbsoluteDocPathIsItsBasename(root: string, p: string)
    requires IsAbs(p)
    ensures ResolveDocPath(root, p) == ResolveDocPath(root, Basename(p))
  {
  }

  /** Applying the extension rule a second time changes nothing: the extension never stacks. */
  lemma WithPptxIdempotent(p: string)
    ensures WithPptx(WithPptx(p)) == WithPptx(p)
    ensures !EndsWith(p, Extension) ==> WithPptx(p) == p + Extension
  {
  }
}
