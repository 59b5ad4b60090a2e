/** The two string operations the page applies to backend strings:
    `toLowerCase` (ASCII letters only) and `replace(c, d)` with a one-character
    pattern, which replaces the first occurrence only. */
module Text {

  /** One character of `toLowerCase`, for ASCII capitals only. */
  function LowerChar(c: char): (r: char)
    ensures 'A' <= c <= 'Z' ==> r as int == c as int + 32
    ensures !('A' <= c <= 'Z') ==> r == c
    ensures !('A' <= r <= 'Z')
  {
    if 'A' <= c <= 'Z' then (c as int + 32) as char else c
  }

  /** ASCII lower-casing, character by character. */
  function Lower(s: string): (r: string)
    ensures |r| == |s|
    ensures forall i :: 0 <= i < |s| ==> r[i] == LowerChar(s[i])
  {
    if s == [] then [] else [LowerChar(s[0])] + Lower(s[1..])
  }

  /** Two characters that are equal, or the same ASCII letter in the two cases. */
  predicate SameLetterUpToCase(x: char, y: char) {
    x == y ||
    ('A' <= x <= 'Z' && y as int == x as int + 32) ||
    ('A' <= y <= 'Z' && x as int == y as int + 32)
  }

  /** Two strings that differ only in the case of ASCII letters. */
  ghost predicate SameUpToCase(a: string, b: string) {
    |a| == |b| && forall i :: 0 <= i < |a| ==> SameLetterUpToCase(a[i], b[i])
  }

  lemma LowerCharFolds(x: char, y: char)
    ensures LowerChar(x) == LowerChar(y) <==> SameLetterUpToCase(x, y)
  {
  }

  /** Lower-casing identifies exactly the strings that differ only in letter case. */
  lemma LowerIsCaseFolding(a: string, b: string)
    ensures Lower(a) == Lower(b) <==> SameUpToCase(a, b)
  {
    if SameUpToCase(a, b) {
      forall i | 0 <= i < |a| ensures Lower(a)[i] == Lower(b)[i] {
        LowerCharFolds(a[i], b[i]);
      }
    }
    if Lower(a) == Lower(b) {
      forall i | 0 <= i < |a| ensures SameLetterUpToCase(a[i], b[i]) {
        assert Lower(a)[i] == Lower(b)[i];
        LowerCharFolds(a[i], b[i]);
      }
    }
  }

  /** A string with no upper-case ASCII letter is its own lower-case form. */
  lemma LowerOfLowercase(s: string)
    requires forall i :: 0 <= i < |s| ==> !('A' <= s[i] <= 'Z')
    ensures Lower(s) == s
  {
    assert forall i :: 0 <= i < |s| ==> Lower(s)[i] == s[i];
  }

  /** The index of the first `c` in `s`, or `|s|` when there is none. */
  function FirstIndex(s: string, c: char): (k: nat)
    ensures k <= |s|
    ensures forall j :: 0 <= j < k ==> s[j] != c
    ensures k < |s| ==> s[k] == c
  {
    if s == [] then 0 else if s[0] == c then 0 else 1 + FirstIndex(s[1..], c)
  }

  /** `s.replace(c, d)` for a one-character pattern `c`: only the first
      occurrence of `c` becomes `d`. */
  function ReplaceFirst(s: string, c: char, d: char): (r: string)
    ensures |r| == |s|
    ensures forall i :: 0 <= i < |s| ==> r[i] == if i == FirstIndex(s, c) then d else s[i]
  {
    if s == [] then []
    else if s[0] == c then [d] + s[1..]
    else [s[0]] + ReplaceFirst(s[1..], c, d)
  }

  lemma {:induction false} FirstIndexLower(s: string, c: char)
    requires LowerChar(c) == c
    requires forall x: char :: LowerChar(x) == c ==> x == c
    ensures FirstIndex(Lower(s), c) == FirstIndex(s, c)
  {
    if s != [] {
      assert Lower(s)[1..] == Lower(s[1..]);
      FirstIndexLower(s[1..], c);
    }
  }

  /** Lower-casing and replacing a non-letter by a non-letter commute. */
  lemma LowerReplaceFirst(s: string, c: char, d: char)
    requires LowerChar(c) == c && LowerChar(d) == d
    requires forall x: char :: LowerChar(x) == c ==> x == c
    ensures Lower(ReplaceFirst(s, c, d)) == ReplaceFirst(Lower(s), c, d)
  {
    FirstIndexLower(s, c);
    assert forall i :: 0 <= i < |s| ==> Lower(ReplaceFirst(s, c, d))[i] == ReplaceFirst(Lower(s), c, d)[i];
  }

  /** A string holding `c` but no `d` is never the result of replacing the
      first `c` by `d`. */
  lemma ReplaceFirstNeverYields(x: string, y: string, c: char, d: char)
    requires c != d && c in y && d !in y
    ensures ReplaceFirst(x, c, d) != y
  {
    var k := FirstIndex(x, c);
    if k == |x| {
      assert c !in ReplaceFirst(x, c, d);
    } else {
      assert ReplaceFirst(x, c, d)[k] == d;
    }
  }

  /** If `y` holds exactly one `d`, at `p`, and no `c`, the strings whose first
      `c` replaced by `d` give `y` are `y` itself and `y` with `c` at `p`. */
  lemma ReplaceFirstPreimage(x: string, y: string, p: nat, c: char, d: char)
    requires c != d && p < |y| && y[p] == d && c !in y
    requires forall i :: 0 <= i < |y| && i != p ==> y[i] != d
    ensures ReplaceFirst(x, c, d) == y <==> x == y || x == y[p := c]
  {
    if ReplaceFirst(x, c, d) == y {
      var k := FirstIndex(x, c);
      if k == |x| {
        assert forall i :: 0 <= i < |x| ==> x[i] == y[i];
      } else {
        assert ReplaceFirst(x, c, d)[k] == d;
        assert k == p;
        assert forall i :: 0 <= i < |x| ==> x[i] == y[p := c][i];
      }
    }
    if x == y {
      assert FirstIndex(x, c) == |x|;
      assert forall i :: 0 <= i < |x| ==> ReplaceFirst(x, c, d)[i] == y[i];
    }
    if x == y[p := c] {
      assert FirstIndex(x, c) == p;
      assert forall i :: 0 <= i < |x| ==> ReplaceFirst(x, c, d)[i] == y[i];
    }
  }
}
