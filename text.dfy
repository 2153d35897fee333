/** Character-level helpers over Python `str` values, modelled as `string`. */
module Text {

  /** ASCII lower-casing of one character. */
  function LowerChar(ch: char): (r: char)
    ensures 'A' <= ch <= 'Z' ==> 'a' <= r <= 'z' && r as int == ch as int + 32
    ensures !('A' <= ch <= 'Z') ==> r == ch
  {
    if 'A' <= ch <= 'Z' then (ch as int + 32) as char else ch
  }

  /** `s.lower()`, restricted to ASCII letters. */
  function Lower(s: string): (r: string)
    ensures |r| == |s|
    ensures forall i :: 0 <= i < |s| ==> r[i] == LowerChar(s[i])
  {
    seq(|s|, i requires 0 <= i < |s| => LowerChar(s[i]))
  }

  /** `pat` occurs in `s` starting at position `i`. */
  predicate OccursAt(pat: string, s: string, i: int)
  {
    0 <= i && i + |pat| <= |s| && s[i..i + |pat|] == pat
  }

  /** Python's `pat in s` for strings: `pat` occurs at some position of `s`. */
  ghost predicate IsSubstring(pat: string, s: string)
  {
    exists i :: OccursAt(pat, s, i)
  }

  /** A computable search for `pat` in `s`, from the left. */
  function Occurs(pat: string, s: string): (b: bool)
    ensures b <==> IsSubstring(pat, s)
  {
    if pat <= s then
      assert OccursAt(pat, s, 0);
      true
    else if |s| == 0 then
      false
    else
      var b := Occurs(pat, s[1..]);
      if b then
        assert IsSubstring(pat, s) by {
          var i :| OccursAt(pat, s[1..], i);
          assert s[i + 1..i + 1 + |pat|] == s[1..][i..i + |pat|];
          assert OccursAt(pat, s, i + 1);
        }
        true
      else
        forall i | OccursAt(pat, s, i)
          ensures false
        {
          if i > 0 {
            assert s[i..i + |pat|] == s[1..][i - 1..i - 1 + |pat|];
            assert OccursAt(pat, s[1..], i - 1);
          }
        }
        false
  }

  /** Index of the first `ch` in `s`, or `|s|` when there is none. */
  function IndexOf(s: string, ch: char): (r: nat)
    ensures r <= |s|
    ensures forall i :: 0 <= i < r ==> s[i] != ch
    ensures r < |s| ==> s[r] == ch
  {
    if |s| == 0 then 0
    else if s[0] == ch then 0
    else 1 + IndexOf(s[1..], ch)
  }

  /** The first `ch` of `a + b` is found in `b` when `a` holds none. */
  lemma IndexOfAfter(a: string, b: string, ch: char)
    requires ch !in a
    requires |b| > 0 && b[0] == ch
    ensures IndexOf(a + b, ch) == |a|
  {
    assert (a + b)[|a|] == ch;
  }
}
