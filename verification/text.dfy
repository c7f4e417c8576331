/** Small facts about strings shared by the pages' models. */
module Text {

  /** `s` ends with `suffix`. */
  predicate EndsWith(s: string, suffix: string)
  {
    |suffix| <= |s| && s[|s| - |suffix|..] == suffix
  }

  /** Whether `p + q` ends with a suffix no longer than `q` is decided by `q`. */
  lemma EndsWithAppend(p: string, q: string, suffix: string)
    requires |suffix| <= |q|
    ensures EndsWith(p + q, suffix) <==> EndsWith(q, suffix)
  {
    assert (p + q)[|p + q| - |suffix|..] == q[|q| - |suffix|..];
  }
}
