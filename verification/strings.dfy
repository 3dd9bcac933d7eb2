/** Substring search as JavaScript's `String.prototype.includes` performs it:
    exact, case-sensitive, and true for the empty pattern. */
module Strings {

  /** `pat` occurs in `s` starting at index `i`. */
  ghost predicate OccursAt(s: string, pat: string, i: int)
  {
    0 <= i && i + |pat| <= |s| && s[i..i + |pat|] == pat
  }

  /** The reference meaning of "`s` contains `pat`". */
  ghost predicate Contains(s: string, pat: string)
  {
    exists i :: OccursAt(s, pat, i)
  }

  /** `s.includes(pat)`: scan the start positions of `s` left to right. */
  function Includes(s: string, pat: string): bool
    decreases |s|
  {
    if |pat| > |s| then false
    else if s[..|pat|] == pat then true
    else Includes(s[1..], pat)
  }

  /** The scan answers exactly the reference question. */
  lemma {:induction false} IncludesIsContains(s: string, pat: string)
    ensures Includes(s, pat) <==> Contains(s, pat)
    decreases |s|
  {
    if |pat| > |s| {
    } else if s[..|pat|] == pat {
      assert OccursAt(s, pat, 0);
    } else {
      IncludesIsContains(s[1..], pat);
      if Contains(s, pat) {
        var i :| OccursAt(s, pat, i);
        assert i != 0;
        assert s[1..][i - 1..i - 1 + |pat|] == s[i..i + |pat|];
        assert OccursAt(s[1..], pat, i - 1);
      }
      if Contains(s[1..], pat) {
        var i :| OccursAt(s[1..], pat, i);
        assert s[i + 1..i + 1 + |pat|] == s[1..][i..i + |pat|];
        assert OccursAt(s, pat, i + 1);
      }
    }
  }

  /** Containment is transitive: an occurrence inside an occurrence is an occurrence. */
  lemma ContainsTransitive(a: string, b: string, c: string)
    requires Contains(a, b) && Contains(b, c)
    ensures Contains(a, c)
  {
    var i :| OccursAt(a, b, i);
    var j :| OccursAt(b, c, j);
    forall k | 0 <= k < |c|
      ensures a[i + j + k] == c[k]
    {
      assert b[j + k] == c[k];
      assert a[i + (j + k)] == b[j + k];
    }
    assert a[i + j..i + j + |c|] == c;
    assert OccursAt(a, c, i + j);
  }

  /** A string placed between two others is contained in the result. */
  lemma ContainsInfix(x: string, b: string, y: string)
    ensures Contains(x + b + y, b)
  {
    var s := x + b + y;
    assert s[|x|..|x| + |b|] == b;
    assert OccursAt(s, b, |x|);
  }

  /** The same facts in terms of the executable scan. */
  lemma {:induction false} IncludesTransitive(a: string, b: string, c: string)
    requires Includes(a, b) && Includes(b, c)
    ensures Includes(a, c)
  {
    IncludesIsContains(a, b);
    IncludesIsContains(b, c);
    ContainsTransitive(a, b, c);
    IncludesIsContains(a, c);
  }

  lemma IncludesInfix(x: string, b: string, y: string)
    ensures Includes(x + b + y, b)
  {
    ContainsInfix(x, b, y);
    IncludesIsContains(x + b + y, b);
  }
}
