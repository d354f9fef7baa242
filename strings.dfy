/**
 * Substring search on strings: the meaning of Python's `p in s` and of
 * `s.index(p)` (the lowest index at which `p` occurs in `s`).
 */
module Strings {
  import opened Wrappers

  /** `p` occurs in `s` starting at index `i`. */
  predicate OccursAt(s: string, p: string, i: nat)
  {
    i + |p| <= |s| && s[i..i + |p|] == p
  }

  /** The lowest index `>= from` at which `p` occurs in `s`, if any. */
  function FindFrom(s: string, p: string, from: nat): (r: Option<nat>)
    ensures r.Some? ==> from <= r.value && OccursAt(s, p, r.value)
    ensures r.Some? ==> forall j :: from <= j < r.value ==> !OccursAt(s, p, j)
    ensures r.None? ==> forall j :: from <= j ==> !OccursAt(s, p, j)
    decreases |s| - from
  {
    if from + |p| > |s| then None
    else if s[from..from + |p|] == p then Some(from)
    else FindFrom(s, p, from + 1)
  }

  /** Python's `s.index(p)`, with None where Python raises ValueError. */
  function Find(s: string, p: string): Option<nat>
  {
    FindFrom(s, p, 0)
  }

  /** Python's `p in s` for strings. */
  predicate Contains(s: string, p: string)
  {
    Find(s, p).Some?
  }

  /** `p in s` holds exactly when `p` occurs somewhere in `s`. */
  lemma ContainsIff(s: string, p: string)
    ensures Contains(s, p) <==> exists i: nat :: OccursAt(s, p, i)
  {
    if Contains(s, p) {
      assert OccursAt(s, p, Find(s, p).value);
    }
  }

  /** A string built around `p` contains `p`. */
  lemma ContainsInfix(pre: string, p: string, post: string)
    ensures Contains(pre + p + post, p)
  {
    var s := pre + p + post;
    assert s[|pre|..|pre| + |p|] == p;
    assert OccursAt(s, p, |pre|);
  }
}
