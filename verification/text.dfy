/** `replacingOccurrences(of:with:)` with an empty replacement: a scan from
    the left that deletes each non-overlapping occurrence of a pattern.
    Characters are compared one by one; Foundation's default search also
    treats canonically equivalent sequences as equal, which is not modelled. */
module Text {

  /** `pat` appears in `s` starting at index `i`. */
  predicate OccursAt(s: string, pat: string, i: int)
  {
    0 <= i && i + |pat| <= |s| && s[i..i + |pat|] == pat
  }

  /** `pat` appears somewhere in `s`. */
  predicate Occurs(s: string, pat: string)
  {
    exists i | 0 <= i <= |s| :: OccursAt(s, pat, i)
  }

  /** Every occurrence found by the left-to-right scan is deleted: the result
      only loses characters, never gains one. */
  function RemoveAll(s: string, pat: string): (r: string)
    requires |pat| > 0
    ensures |r| <= |s|
    ensures forall c :: c in r ==> c in s
    decreases |s|
  {
    if |s| < |pat| then s
    else if s[..|pat|] == pat then RemoveAll(s[|pat|..], pat)
    else [s[0]] + RemoveAll(s[1..], pat)
  }

  /** A string without the pattern is returned unchanged. */
  lemma {:induction false} RemoveAllWithoutOccurrence(s: string, pat: string)
    requires |pat| > 0
    requires !Occurs(s, pat)
    ensures RemoveAll(s, pat) == s
    decreases |s|
  {
    if |s| >= |pat| {
      assert s[..|pat|] != pat by {
        assert s[0..0 + |pat|] == s[..|pat|];
        assert !OccursAt(s, pat, 0);
      }
      assert !Occurs(s[1..], pat) by {
        forall i | OccursAt(s[1..], pat, i)
          ensures false
        {
          assert s[i + 1..i + 1 + |pat|] == s[1..][i..i + |pat|];
          assert OccursAt(s, pat, i + 1);
        }
      }
      RemoveAllWithoutOccurrence(s[1..], pat);
      assert [s[0]] + s[1..] == s;
    }
  }

  /** No character after the first equals the first: such a pattern cannot
      overlap a copy of itself. */
  predicate HeadNotRepeated(pat: string)
  {
    |pat| > 0 && forall i :: 0 < i < |pat| ==> pat[i] != pat[0]
  }

  lemma DropOfConcat(x: string, p: string, n: nat)
    requires n <= |x|
    ensures (x + p)[n..] == x[n..] + p
  {
  }

  /** Appending such a pattern to any string only adds one more occurrence
      to delete: no earlier match can reach into it. */
  lemma {:induction false} RemoveAllTrailing(x: string, pat: string)
    requires HeadNotRepeated(pat)
    ensures RemoveAll(x + pat, pat) == RemoveAll(x, pat)
    decreases |x|
  {
    var s := x + pat;
    if |x| == 0 {
      assert s == pat;
      assert s[|pat|..] == [];
    } else if |x| < |pat| {
      assert s[..|pat|] != pat by {
        assert s[..|pat|][|x|] == pat[0];
      }
      DropOfConcat(x, pat, 1);
      RemoveAllTrailing(x[1..], pat);
      assert [x[0]] + x[1..] == x;
    } else {
      assert s[..|pat|] == x[..|pat|];
      if x[..|pat|] == pat {
        DropOfConcat(x, pat, |pat|);
        RemoveAllTrailing(x[|pat|..], pat);
      } else {
        DropOfConcat(x, pat, 1);
        RemoveAllTrailing(x[1..], pat);
      }
    }
  }
}
