/**
 * The two string operations the query pipeline relies on, in the meaning
 * Python gives them: the substring test `pat in s` and the deletion of
 * every occurrence of one character, `s.replace(c, '')`.
 */
module Strings {

  /** `pat` occurs in `s` starting at index `i`. */
  ghost predicate OccursAt(pat: string, s: string, i: int) {
    0 <= i && i + |pat| <= |s| && s[i..i + |pat|] == pat
  }

  /** The reference meaning of Python's `pat in s`: some window of `s` equals `pat`. */
  ghost predicate IsSubstring(pat: string, s: string) {
    exists i :: OccursAt(pat, s, i)
  }

  /** An occurrence in `s[1..]` is an occurrence in `s` one position later, and back. */
  lemma {:induction false} OccursAtShift(pat: string, s: string, i: int)
    requires |s| > 0 && i >= 0
    ensures OccursAt(pat, s[1..], i) <==> OccursAt(pat, s, i + 1)
  {
    if i + |pat| <= |s| - 1 {
      assert s[1..][i..i + |pat|] == s[i + 1..i + 1 + |pat|];
    }
  }

  /** Python's `pat in s`, computed by scanning the windows of `s` left to right. */
  function Contains(s: string, pat: string): (b: bool)
    ensures b <==> IsSubstring(pat, s)
    decreases |s|
  {
    if |s| < |pat| then
      false
    else if s[..|pat|] == pat then
      assert OccursAt(pat, s, 0);
      true
    else
      var rest := Contains(s[1..], pat);
      assert IsSubstring(pat, s[1..]) <==> IsSubstring(pat, s) by {
        forall i | OccursAt(pat, s[1..], i) ensures OccursAt(pat, s, i + 1) {
          OccursAtShift(pat, s, i);
        }
        forall i | OccursAt(pat, s, i) ensures OccursAt(pat, s[1..], i - 1) {
          assert i != 0;
          OccursAtShift(pat, s, i - 1);
        }
      }
      rest
  }

  /** Python's `s.replace(c, '')` for a one-character string `c`. */
  function RemoveChar(s: string, c: char): (r: string)
    ensures c !in r
    ensures |r| <= |s|
    ensures c !in s ==> r == s
  {
    if s == [] then [] else (if s[0] == c then [] else [s[0]]) + RemoveChar(s[1..], c)
  }

  /** Deleting a character keeps every other character as often as it occurred. */
  lemma {:induction false} RemoveCharKeepsOthers(s: string, c: char)
    ensures forall x :: x != c ==> multiset(RemoveChar(s, c))[x] == multiset(s)[x]
  {
    if s != [] {
      RemoveCharKeepsOthers(s[1..], c);
      assert s == [s[0]] + s[1..];
    }
  }

  /** Deleting a character commutes with concatenation, so it keeps the order of what remains. */
  lemma {:induction false} RemoveCharAppend(a: string, b: string, c: char)
    ensures RemoveChar(a + b, c) == RemoveChar(a, c) + RemoveChar(b, c)
  {
    if a == [] {
      assert a + b == b;
    } else {
      assert (a + b)[0] == a[0];
      assert (a + b)[1..] == a[1..] + b;
      RemoveCharAppend(a[1..], b, c);
    }
  }

  /** A text one character longer than the pattern has only two windows to look at. */
  lemma OneLongerWindows(pat: string, s: string)
    requires |s| == |pat| + 1
    ensures IsSubstring(pat, s) <==> OccursAt(pat, s, 0) || OccursAt(pat, s, 1)
  {
  }

  /** Every string occurs in itself. */
  lemma SubstringSelf(pat: string)
    ensures IsSubstring(pat, pat)
  {
    assert OccursAt(pat, pat, 0);
  }

  /** An occurrence survives text added on either side. */
  lemma SubstringOfAppend(pat: string, a: string, b: string)
    ensures IsSubstring(pat, a) ==> IsSubstring(pat, a + b)
    ensures IsSubstring(pat, b) ==> IsSubstring(pat, a + b)
  {
    if IsSubstring(pat, a) {
      var i :| OccursAt(pat, a, i);
      assert (a + b)[i..i + |pat|] == a[i..i + |pat|];
      assert OccursAt(pat, a + b, i);
    }
    if IsSubstring(pat, b) {
      var i :| OccursAt(pat, b, i);
      assert (a + b)[|a| + i..|a| + i + |pat|] == b[i..i + |pat|];
      assert OccursAt(pat, a + b, |a| + i);
    }
  }
}
