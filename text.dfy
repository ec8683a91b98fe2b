/** Containment of one string in another, used to state what error messages carry. */
module Text {

  /** `s` occurs in `t` starting at index `k`. */
  ghost predicate OccursAt(s: string, t: string, k: int)
  {
    0 <= k <= |t| - |s| && t[k..k + |s|] == s
  }

  /** `s` occurs in `t` as a contiguous part. */
  ghost predicate Occurs(s: string, t: string)
  {
    exists k :: OccursAt(s, t, k)
  }

  lemma OccursInAppend(s: string, a: string, b: string)
    requires Occurs(s, b)
    ensures Occurs(s, a + b)
  {
    var k :| OccursAt(s, b, k);
    assert (a + b)[|a| + k..|a| + k + |s|] == b[k..k + |s|];
    assert OccursAt(s, a + b, |a| + k);
  }

  /** A string occurs in any text that wraps it between a prefix and a suffix. */
  lemma OccursBetween(a: string, s: string, b: string)
    ensures Occurs(s, a + s + b)
  {
    assert (a + s + b)[|a|..|a| + |s|] == s;
    assert OccursAt(s, a + s + b, |a|);
  }

  /** Both strings occur in a text that interleaves them with three other pieces. */
  lemma OccursBothBetween(a: string, s1: string, b: string, s2: string, c: string)
    ensures Occurs(s1, a + s1 + b + s2 + c)
    ensures Occurs(s2, a + s1 + b + s2 + c)
  {
    var t := a + s1 + b + s2 + c;
    assert t == a + s1 + (b + s2 + c);
    OccursBetween(a, s1, b + s2 + c);
    assert t == (a + s1 + b) + s2 + c;
    OccursBetween(a + s1 + b, s2, c);
  }
}
