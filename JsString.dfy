/** The two string tests the storage purge relies on: `startsWith` and `includes`. */
module JsString {

  /** `s.startsWith(p)`: p is a prefix of s. */
  predicate StartsWith(s: string, p: string)
  {
    p <= s
  }

  /** t occurs in s starting at index i. */
  ghost predicate OccursAt(s: string, t: string, i: nat)
  {
    i <= |s| && t <= s[i..]
  }

  /** When t is not a prefix of s, t occurs in s exactly when it occurs in s without its first character. */
  lemma OccursInTail(s: string, t: string)
    requires |s| > 0 && !(t <= s)
    ensures (exists i: nat :: OccursAt(s, t, i)) <==> (exists i: nat :: OccursAt(s[1..], t, i))
  {
    if i: nat :| OccursAt(s, t, i) {
      assert i != 0 by { assert s[0..] == s; }
      assert s[1..][i - 1..] == s[i..];
      assert OccursAt(s[1..], t, i - 1);
    }
    if i: nat :| OccursAt(s[1..], t, i) {
      assert s[1..][i..] == s[i + 1..];
      assert OccursAt(s, t, i + 1);
    }
  }

  /** `s.includes(t)`: t occurs in s as a contiguous run of characters. */
  function Includes(s: string, t: string): (r: bool)
    ensures r <==> exists i: nat :: OccursAt(s, t, i)
    decreases |s|
  {
    assert s[0..] == s;
    if t <= s then
      assert OccursAt(s, t, 0);
      true
    else if |s| == 0 then
      false
    else
      OccursInTail(s, t);
      Includes(s[1..], t)
  }

  /** s cannot include t when some character of t is missing from s. */
  lemma MissingCharExcludes(s: string, t: string, c: char)
    requires c in t && c !in s
    ensures !Includes(s, t)
  {
  }
}
