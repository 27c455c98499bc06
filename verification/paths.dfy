/**
 * The `os.path` functions the pipeline applies to strings, with POSIX
 * (`posixpath`) semantics: `/` is the only separator and there are no drive
 * letters.  `os.path.abspath` depends on the working directory and is an
 * oracle wherever it is needed.
 */
module Paths {
  import opened Wrappers

  /** `os.path.isabs`. */
  predicate IsAbs(p: string) {
    |p| > 0 && p[0] == '/'
  }

  /** `os.path.join(a, b)`: an absolute `b` replaces `a`; otherwise one separator joins them. */
  function Join(a: string, b: string): (r: string)
    ensures IsAbs(b) ==> r == b
    ensures !IsAbs(b) ==> |r| >= |b| && r[|r| - |b|..] == b
    ensures !IsAbs(b) ==> |r| >= |a| && r[..|a|] == a
  {
    if IsAbs(b) then b
    else if a == "" || a[|a| - 1] == '/' then a + b
    else a + "/" + b
  }

  /** Index of the last occurrence of `c` in `p` (Python's `rfind`, with `None` for -1). */
  function LastIndexOf(p: string, c: char): (r: Option<nat>)
    ensures r.Some? ==> r.value < |p| && p[r.value] == c
    ensures r.Some? ==> forall k :: r.value < k < |p| ==> p[k] != c
    ensures r.None? ==> forall k :: 0 <= k < |p| ==> p[k] != c
  {
    if |p| == 0 then None
    else if p[|p| - 1] == c then Some(|p| - 1)
    else LastIndexOf(p[..|p| - 1], c)
  }

  /** Where the final path component starts. */
  function NameStart(p: string): (i: nat)
    ensures i <= |p|
    ensures i > 0 ==> p[i - 1] == '/'
    ensures forall k :: i <= k < |p| ==> p[k] != '/'
  {
    match LastIndexOf(p, '/')
    case Some(s) => s + 1
    case None => 0
  }

  /** `os.path.basename`: the text after the last separator. */
  function Basename(p: string): (r: string)
    ensures forall k :: 0 <= k < |r| ==> r[k] != '/'
    ensures |r| <= |p| && p[|p| - |r|..] == r
    ensures |r| < |p| ==> p[|p| - |r| - 1] == '/'
  {
    p[NameStart(p)..]
  }

  /**
   * `os.path.splitext`: the extension starts at the last dot of the final
   * component, provided some non-dot character precedes it in that component
   * (so `.bashrc` and `..` have no extension).
   */
  function Splitext(p: string): (r: (string, string))
    ensures r.0 + r.1 == p
    ensures r.1 != "" ==> r.1[0] == '.'
    ensures forall k :: 0 < k < |r.1| ==> r.1[k] != '.' && r.1[k] != '/'
    ensures r.1 != "" ==> LastIndexOf(p, '.') == Some(|r.0|)
    ensures r.1 != "" ==> NameStart(p) <= |r.0| && exists k :: NameStart(p) <= k < |r.0| && p[k] != '.'
    ensures r.1 == "" ==> forall d :: NameStart(p) <= d < |p| && p[d] == '.' ==>
      forall k :: NameStart(p) <= k < d ==> p[k] == '.'
  {
    var start := NameStart(p);
    match LastIndexOf(p, '.')
    case Some(d) =>
      if d >= start && exists k :: start <= k < d && p[k] != '.' then
        assert p[..d] + p[d..] == p;
        (p[..d], p[d..])
      else
        (p, "")
    case None => (p, "")
  }

  /** A leading-dot name has no extension, a dot in a directory name is not one, and only the last dot splits. */
  lemma SplitextExamples()
    ensures Splitext("a/.bashrc") == ("a/.bashrc", "")
    ensures Splitext("x.y/z") == ("x.y/z", "")
    ensures Splitext("a.b.png") == ("a.b", ".png")
  {
    var dotfile := "a/.bashrc";
    LastDotAt(dotfile, 2);
    LastSlashBefore(dotfile, 2);
    var image := "a.b.png";
    assert image[0] != '.';
    SplitextAt(image, 0, 3);
    assert image[..3] == "a.b" && image[3..] == ".png";
  }

  /** Under one directory, different relative names give different paths. */
  lemma JoinInjective(a: string, b1: string, b2: string)
    requires !IsAbs(b1) && !IsAbs(b2) && Join(a, b1) == Join(a, b2)
    ensures b1 == b2
  {
    var pre := if a == "" || a[|a| - 1] == '/' then a else a + "/";
    assert Join(a, b1) == pre + b1 && Join(a, b2) == pre + b2;
    assert b1 == (pre + b1)[|pre|..];
    assert b2 == (pre + b2)[|pre|..];
  }

  /** A bare file name joined to a directory is that path's final component. */
  lemma BasenameOfJoin(dir: string, name: string)
    requires forall k :: 0 <= k < |name| ==> name[k] != '/'
    ensures Basename(Join(dir, name)) == name
  {
    var r := Join(dir, name);
    var pre := if dir == "" || dir[|dir| - 1] == '/' then dir else dir + "/";
    assert r == pre + name;
    var i := NameStart(r);
    // the separator that ends `pre` is the last one in `r`
    assert pre != "" ==> r[|pre| - 1] == '/';
    assert i == |pre|;
    assert r[i..] == name;
  }

  /** A file name with no separator and at least one character other than a dot. */
  predicate PlainName(name: string) {
    && (forall k :: 0 <= k < |name| ==> name[k] != '/')
    && exists k :: 0 <= k < |name| && name[k] != '.'
  }

  /** An extension as `splitext` returns it: a dot followed by no dot or separator. */
  predicate PlainExt(ext: string) {
    |ext| > 0 && ext[0] == '.' && forall k :: 0 < k < |ext| ==> ext[k] != '.' && ext[k] != '/'
  }

  /** Appending an extension to a plain name is undone by `splitext`. */
  lemma SplitextOfJoin(dir: string, name: string, ext: string)
    requires PlainName(name) && PlainExt(ext)
    ensures Join(dir, name + ext) == Join(dir, name) + ext
    ensures Splitext(Join(dir, name + ext)) == (Join(dir, name), ext)
  {
    assert name[0] != '/';
    var pre := JoinAppend(dir, name, ext);
    SplitextOfConcat(pre, name, ext);
  }

  lemma SplitextOfConcat(pre: string, name: string, ext: string)
    requires pre == "" || pre[|pre| - 1] == '/'
    requires PlainName(name) && PlainExt(ext)
    ensures Splitext(pre + name + ext) == (pre + name, ext)
  {
    var q := pre + name;
    var p := q + ext;
    var d := |q|;
    assert p[d] == ext[0] == '.';
    forall k | d < k < |p|
      ensures p[k] != '.' && p[k] != '/'
    {
      assert p[k] == ext[k - d];
    }
    forall k | |pre| <= k < d
      ensures p[k] != '/'
    {
      assert p[k] == name[k - |pre|];
    }
    var j :| 0 <= j < |name| && name[j] != '.';
    assert p[|pre| + j] == name[j];
    SplitextAt(p, |pre|, d);
    assert p[..d] == q && p[d..] == ext;
  }

  /** `os.path.join(dir, name + ext)` is `os.path.join(dir, name) + ext`; the result is the prefix `join` puts before `name`. */
  lemma JoinAppend(dir: string, name: string, ext: string) returns (pre: string)
    requires |name| > 0 && name[0] != '/'
    ensures pre == "" || pre[|pre| - 1] == '/'
    ensures Join(dir, name) == pre + name
    ensures Join(dir, name + ext) == pre + name + ext
  {
    pre := if dir == "" || dir[|dir| - 1] == '/' then dir else dir + "/";
    assert (name + ext)[0] == name[0];
    assert pre + (name + ext) == pre + name + ext;
  }

  /** `splitext` cuts at the dot `d` when it is the last dot and follows a non-dot character of the final component `p[s..]`. */
  lemma SplitextAt(p: string, s: nat, d: nat)
    requires s <= d < |p|
    requires s > 0 ==> p[s - 1] == '/'
    requires forall k :: s <= k < |p| ==> p[k] != '/'
    requires p[d] == '.' && forall k :: d < k < |p| ==> p[k] != '.'
    requires exists k :: s <= k < d && p[k] != '.'
    ensures Splitext(p) == (p[..d], p[d..])
  {
    LastDotAt(p, d);
    LastSlashBefore(p, s);
  }

  lemma LastDotAt(p: string, d: nat)
    requires d < |p| && p[d] == '.'
    requires forall k :: d < k < |p| ==> p[k] != '.'
    ensures LastIndexOf(p, '.') == Some(d)
  {
  }

  lemma LastSlashBefore(p: string, s: nat)
    requires s <= |p|
    requires s > 0 ==> p[s - 1] == '/'
    requires forall k :: s <= k < |p| ==> p[k] != '/'
    ensures NameStart(p) == s
  {
  }
}
