/**
 * The POSIX path operations the download detector relies on:
 * `os.path.join` of two parts, `os.path.basename` and the extension part of
 * `os.path.splitext`.
 */
module Paths {
  import opened Wrappers

  /** The last index of `c` in `s` (Python's `s.rfind(c)`, None for -1). */
  function LastIndexOf(s: string, c: char): (r: Option<nat>)
    ensures r.Some? ==> r.value < |s| && s[r.value] == c && forall j :: r.value < j < |s| ==> s[j] != c
    ensures r.None? ==> forall j :: 0 <= j < |s| ==> s[j] != c
  {
    if s == [] then None
    else if s[|s| - 1] == c then Some(|s| - 1)
    else LastIndexOf(s[..|s| - 1], c)
  }

  /** `os.path.basename`: what follows the last slash. */
  function Basename(p: string): (r: string)
    ensures '/' !in r
    ensures |r| <= |p| && r == p[|p| - |r|..]
    ensures LastIndexOf(p, '/') == if |r| == |p| then None else Some(|p| - |r| - 1)
  {
    match LastIndexOf(p, '/')
    case None => p
    case Some(i) => p[i + 1..]
  }

  /** `os.path.join(a, b)` for two parts. */
  function Join(a: string, b: string): (r: string)
    ensures |b| > 0 && b[0] == '/' ==> r == b
    ensures !(|b| > 0 && b[0] == '/') ==> r == (if a == [] || a[|a| - 1] == '/' then a + b else a + "/" + b)
    ensures a != [] ==> r != []
  {
    if |b| > 0 && b[0] == '/' then b
    else if a == [] || a[|a| - 1] == '/' then a + b
    else a + "/" + b
  }

  /**
   * The extension `os.path.splitext` splits off. It lies in the last path
   * component: from that component's last dot, provided the dot is preceded
   * in the component by something other than dots (so `.bashrc` has none).
   */
  function Extension(p: string): (r: string)
    ensures r != "" ==> |r| <= |Basename(p)| && r == Basename(p)[|Basename(p)| - |r|..]
    ensures r != "" ==> SplitsAt(Basename(p), |Basename(p)| - |r|) && '.' !in r[1..] && '/' !in r
    ensures (exists d :: SplitsAt(Basename(p), d)) ==> r != ""
  {
    ComponentExtension(Basename(p))
  }

  /** The extension of a single path component `b`. */
  function ComponentExtension(b: string): (r: string)
    ensures r != "" ==> |r| <= |b| && r == b[|b| - |r|..] && SplitsAt(b, |b| - |r|) && '.' !in r[1..]
    ensures (exists d :: SplitsAt(b, d)) ==> r != ""
  {
    match LastIndexOf(b, '.')
    case None => ""
    case Some(d) => if NonDotBetween(b, 0, d) then b[d..] else ""
  }

  /** `b[d]` is a dot with something other than dots before it: a place `splitext` may split a component at. */
  predicate SplitsAt(b: string, d: nat)
  {
    d < |b| && b[d] == '.' && NonDotBetween(b, 0, d)
  }

  /** Some character of `p[lo..hi]` is not a dot. */
  predicate NonDotBetween(p: string, lo: nat, hi: nat)
  {
    exists j :: lo <= j < hi && j < |p| && p[j] != '.'
  }

  /** Searching a concatenation from the back finds the match in the second part first. */
  lemma {:induction false} LastIndexOfConcat(x: string, y: string, c: char)
    ensures LastIndexOf(x + y, c)
         == match LastIndexOf(y, c) case Some(i) => Some(|x| + i) case None => LastIndexOf(x, c)
    decreases |y|
  {
    if y == [] {
      assert x + y == x;
    } else {
      assert (x + y)[..|x + y| - 1] == x + y[..|y| - 1];
      LastIndexOfConcat(x, y[..|y| - 1], c);
    }
  }

  /** Joining a directory and a slash-free name keeps the name as the basename. */
  lemma BasenameOfJoin(a: string, name: string)
    requires '/' !in name
    ensures Basename(Join(a, name)) == name
  {
    var x := if a == [] || a[|a| - 1] == '/' then a else a + "/";
    var p := Join(a, name);
    assert p == x + name;
    if x == [] {
      assert p == name;
    } else {
      assert p[|x| - 1] == '/';
      forall j | |x| <= j < |p| ensures p[j] != '/' {
        assert p[j] == name[j - |x|];
      }
      assert LastIndexOf(p, '/') == Some(|x| - 1);
      assert p[|x|..] == name;
    }
  }

  /** A slash-free name keeps its extension when joined to a directory. */
  lemma ExtensionOfJoin(a: string, name: string)
    requires '/' !in name
    ensures Extension(Join(a, name)) == Extension(name)
  {
    BasenameOfJoin(a, name);
    assert Basename(name) == name;
  }

  /**
   * A name made of a stem with something other than dots in it, then a dot
   * and a dot-free, slash-free suffix, has exactly that dot and suffix as its
   * extension.
   */
  lemma ExtensionOfName(stem: string, ext: string)
    requires '/' !in stem && (exists j :: 0 <= j < |stem| && stem[j] != '.')
    requires |ext| > 0 && ext[0] == '.' && '.' !in ext[1..] && '/' !in ext
    ensures Extension(stem + ext) == ext
  {
    var p := stem + ext;
    assert LastIndexOf(p, '/').None? by {
      forall i | 0 <= i < |p| ensures p[i] != '/' {
        if i < |stem| {
          assert p[i] == stem[i];
        } else {
          assert p[i] == ext[i - |stem|];
        }
      }
    }
    assert Basename(p) == p[0..] == p;
    LastIndexOfConcat(stem, ext, '.');
    assert LastIndexOf(ext, '.') == Some(0) by {
      LastIndexOfConcat([ext[0]], ext[1..], '.');
      assert [ext[0]] + ext[1..] == ext;
    }
    var j :| 0 <= j < |stem| && stem[j] != '.';
    assert p[j] == stem[j];
    assert NonDotBetween(p, 0, |stem|);
    assert p[|stem|..] == ext;
  }
}
