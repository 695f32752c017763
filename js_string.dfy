/**
  The one piece of the JavaScript string library the client relies on:
  `String.prototype.indexOf(search)`, which gives the first offset at which
  `search` occurs in a string, or -1 when it occurs nowhere.
 */
module JsString {

  /** `pat` occurs in `s` starting at offset `k`. */
  predicate OccursAt(s: string, pat: string, k: int)
  {
    0 <= k && k + |pat| <= |s| && s[k..k + |pat|] == pat
  }

  /** Reference definition of "contains": some offset holds an occurrence. */
  ghost predicate Contains(s: string, pat: string)
  {
    exists k :: OccursAt(s, pat, k)
  }

  /** The search of `indexOf`, started at offset `from`. */
  function IndexOfFrom(s: string, pat: string, from: nat): (r: int)
    requires from <= |s|
    ensures r == -1 || (from <= r && OccursAt(s, pat, r))
    ensures r != -1 ==> forall k :: from <= k < r ==> !OccursAt(s, pat, k)
    ensures r == -1 <==> forall k :: from <= k ==> !OccursAt(s, pat, k)
    decreases |s| - from
  {
    if from + |pat| > |s| then -1
    else if s[from..from + |pat|] == pat then from
    else IndexOfFrom(s, pat, from + 1)
  }

  /** `s.indexOf(pat)`: the first occurrence, or -1. */
  function IndexOf(s: string, pat: string): (r: int)
    ensures -1 <= r
    ensures r >= 0 ==> OccursAt(s, pat, r) && forall k :: 0 <= k < r ==> !OccursAt(s, pat, k)
    ensures r > -1 <==> Contains(s, pat)
  {
    IndexOfFrom(s, pat, 0)
  }
}
