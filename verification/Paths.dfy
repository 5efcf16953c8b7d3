/**
 * The POSIX os.path.splitext used to name the optimizer snapshot that is
 * written beside the best model: the extension is the part from the last
 * '.' of the last path component, provided that component has something
 * other than dots before it; the ".opt" file replaces that extension.
 */
module Paths {

  /** The position of the last occurrence of ch in s, or -1 when there is none. */
  function LastIndexOf(s: string, ch: char): (r: int)
    ensures -1 <= r < |s|
    ensures r >= 0 ==> s[r] == ch
    ensures forall k :: r < k < |s| ==> s[k] != ch
    decreases |s|
  {
    if |s| == 0 then -1
    else if s[|s| - 1] == ch then |s| - 1
    else LastIndexOf(s[..|s| - 1], ch)
  }

  /** Does the last path component have a character other than '.' before position dot? */
  predicate HasStem(path: string, sep: int, dot: int)
    requires -1 <= sep < dot <= |path|
  {
    exists k :: sep + 1 <= k < dot && path[k] != '.'
  }

  /** os.path.splitext: (root, ext) with root + ext == path. */
  function SplitExt(path: string): (r: (string, string))
    ensures r.0 + r.1 == path
    ensures r.1 == [] || (r.1[0] == '.' && '/' !in r.1 && '.' !in r.1[1..])
    ensures r.1 != [] ==> exists k :: 0 <= k < |r.0| && r.0[k] != '.' && '/' !in r.0[k..]
    ensures (exists d, k :: 0 <= k < d < |path| && path[d] == '.' && '.' !in path[d + 1..] && path[k] != '.' && '/' !in path[k..]) ==> r.1 != []
  {
    var sep := LastIndexOf(path, '/');
    var dot := LastIndexOf(path, '.');
    ExtensionCut(path, sep, dot);
    if dot > sep && HasStem(path, sep, dot) then
      SplitAtDot(path, sep, dot);
      (path[..dot], path[dot..])
    else
      (path, [])
  }

  /** Any cut that makes an extension is at the last dot, after the last separator, with a stem before it. */
  lemma ExtensionCut(path: string, sep: int, dot: int)
    requires sep == LastIndexOf(path, '/') && dot == LastIndexOf(path, '.')
    ensures (exists d, k :: 0 <= k < d < |path| && path[d] == '.' && '.' !in path[d + 1..] && path[k] != '.' && '/' !in path[k..]) ==>
      dot > sep && HasStem(path, sep, dot)
  {
    if d, k :| 0 <= k < d < |path| && path[d] == '.' && '.' !in path[d + 1..] && path[k] != '.' && '/' !in path[k..] {
      assert forall m :: d < m < |path| ==> path[m] == path[d + 1..][m - d - 1];
      assert dot == d;
      assert forall m :: k <= m < |path| ==> path[m] == path[k..][m - k];
      assert sep < k;
      assert HasStem(path, sep, dot);
    }
  }

  /** Cutting at a dot after the last separator, with a stem before it, leaves an extension free of separators and dots. */
  lemma SplitAtDot(path: string, sep: int, dot: int)
    requires -1 <= sep < dot < |path| && path[dot] == '.'
    requires forall k :: sep < k < |path| ==> path[k] != '/'
    requires forall k :: dot < k < |path| ==> path[k] != '.'
    requires HasStem(path, sep, dot)
    ensures path[..dot] + path[dot..] == path
    ensures path[dot..][0] == '.' && '/' !in path[dot..] && '.' !in path[dot..][1..]
    ensures exists k :: 0 <= k < dot && path[k] != '.' && '/' !in path[..dot][k..]
  {
    var ext := path[dot..];
    assert forall m :: 0 <= m < |ext| ==> ext[m] == path[dot + m];
    var k :| sep + 1 <= k < dot && path[k] != '.';
    var stem := path[..dot][k..];
    assert forall m :: 0 <= m < |stem| ==> stem[m] == path[k + m];
    assert '/' !in stem;
  }

  /** os.path.splitext(outfile)[0] + ".opt": where the optimizer state is saved. */
  function OptPath(outfile: string): (r: string)
    ensures |r| >= 4 && r[|r| - 4..] == ".opt"
    ensures r[..|r| - 4] + SplitExt(outfile).1 == outfile
  {
    SplitExt(outfile).0 + ".opt"
  }

  /** The last occurrence is pinned down by where ch is and where it is not. */
  lemma LastIndexAt(s: string, ch: char, i: int)
    requires -1 <= i < |s|
    requires i >= 0 ==> s[i] == ch
    requires forall k :: i < k < |s| ==> s[k] != ch
    ensures LastIndexOf(s, ch) == i
  {
  }

  /** The extension of the file name is replaced. */
  lemma OptPathReplacesExtension()
    ensures OptPath("best.pth") == "best.opt"
  {
    var a := "best.pth";
    LastIndexAt(a, '.', 4);
    LastIndexAt(a, '/', -1);
    assert a[0] != '.';
    assert a[..4] == "best";
  }

  /** A dot in a directory name is not an extension: ".opt" is appended. */
  lemma OptPathDottedDirectory()
    ensures OptPath("runs/v1.2/model") == "runs/v1.2/model.opt"
  {
    var b := "runs/v1.2/model";
    LastIndexAt(b, '/', 9);
    LastIndexAt(b, '.', 7);
  }

  /** A leading dot is not an extension: ".opt" is appended. */
  lemma OptPathHiddenFile()
    ensures OptPath(".gridnet") == ".gridnet.opt"
  {
    var c := ".gridnet";
    LastIndexAt(c, '.', 0);
    LastIndexAt(c, '/', -1);
  }

  /** Only the last extension is replaced. */
  lemma OptPathLastExtension()
    ensures OptPath("out/model.tar.gz") == "out/model.tar.opt"
  {
    var d := "out/model.tar.gz";
    LastIndexAt(d, '.', 13);
    LastIndexAt(d, '/', 3);
    assert d[4] != '.';
    assert d[..13] == "out/model.tar";
  }
}
