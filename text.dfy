/** Substring search, Python's `t in s` on two strings. */
module Text {

  /** `t` occurs in `s` starting at position `i`. */
  predicate OccursAt(s: string, t: string, i: int)
  {
    0 <= i && i + |t| <= |s| && s[i..i + |t|] == t
  }

  /** `t in s`: some position of `s` starts an occurrence of `t`. */
  function Contains(s: string, t: string): (r: bool)
    ensures r <==> exists i :: OccursAt(s, t, i)
    decreases |s|
  {
    if |t| > |s| then false
    else if s[..|t|] == t then assert OccursAt(s, t, 0); true
    else ShiftOccurrence(s, t); Contains(s[1..], t)
  }

  /** Once position 0 is ruled out, the occurrences in `s` are those in `s[1..]`, shifted by one. */
  lemma ShiftOccurrence(s: string, t: string)
    requires |t| <= |s| && s[..|t|] != t
    ensures (exists i :: OccursAt(s, t, i)) <==> (exists j :: OccursAt(s[1..], t, j))
  {
    if i :| OccursAt(s, t, i) {
      assert i != 0;
      assert s[1..][i - 1..i - 1 + |t|] == s[i..i + |t|];
      assert OccursAt(s[1..], t, i - 1);
    }
    if j :| OccursAt(s[1..], t, j) {
      assert s[1..][j..j + |t|] == s[j + 1..j + 1 + |t|];
      assert OccursAt(s, t, j + 1);
    }
  }

  /** A string built around `t` contains `t`. */
  lemma ContainsInMiddle(p: string, t: string, q: string)
    ensures Contains(p + t + q, t)
  {
    assert (p + t + q)[|p|..|p| + |t|] == t;
    assert OccursAt(p + t + q, t, |p|);
  }
}
