/** The two regular expressions the forms test, written as character-level
    predicates: the unanchored email pattern `\S+@\S+\.\S+` and the anchored
    phone pattern `^[0-9]{10}$`. */
module Patterns {
  import opened JsText

  /** No character of `s[i..j]` is whitespace. */
  ghost predicate NonSpaceRun(s: string, i: int, j: int)
    requires 0 <= i <= j <= |s|
  {
    forall k :: i <= k < j ==> !IsSpace(s[k])
  }

  /** `s[a..e]` splits as X '@' Y '.' Z with the '@' at `p`, the '.' at `d`,
      and X, Y and Z non-empty runs of non-whitespace. */
  ghost predicate RegexSplitAt(s: string, a: int, p: int, d: int, e: int)
  {
    && 0 <= a < p && p + 1 < d && d + 1 < e <= |s|
    && s[p] == '@' && s[d] == '.'
    && NonSpaceRun(s, a, p) && NonSpaceRun(s, p + 1, d) && NonSpaceRun(s, d + 1, e)
  }

  /** What `/\S+@\S+\.\S+/.test(s)` means: some substring of `s` splits as
      above. There is no anchor, so the substring may start and end anywhere. */
  ghost predicate EmailRegexMatches(s: string)
  {
    exists a, p, d, e :: RegexSplitAt(s, a, p, d, e)
  }

  /** The '@' at `p` has a non-blank character before it, the '.' at `d` lies
      at least two positions later and has a non-blank character after it, and
      every character between the two is non-blank. */
  predicate ShapedAt(s: string, p: int, d: int)
  {
    && 0 < p && p + 1 < d && d + 1 < |s|
    && s[p] == '@' && s[d] == '.'
    && !IsSpace(s[p - 1]) && !IsSpace(s[d + 1])
    && forall k | p < k < d :: !IsSpace(s[k])
  }

  /** The test the forms evaluate, with the regular expression's matching
      reduced to the shortest possible X and Z. */
  predicate EmailShaped(s: string)
    ensures EmailShaped(s) ==> |s| >= 5 && !IsBlank(s)
  {
    exists p, d | 0 <= p < |s| && 0 <= d < |s| :: ShapedAt(s, p, d)
  }

  /** The executable test agrees with the regular expression on every string. */
  lemma EmailShapedIffRegex(s: string)
    ensures EmailShaped(s) <==> EmailRegexMatches(s)
  {
    if EmailShaped(s) {
      var p, d :| 0 <= p < |s| && 0 <= d < |s| && ShapedAt(s, p, d);
      assert RegexSplitAt(s, p - 1, p, d, d + 2);
    }
    if EmailRegexMatches(s) {
      var a, p, d, e :| RegexSplitAt(s, a, p, d, e);
      assert ShapedAt(s, p, d);
    }
  }

  /** The pattern is unanchored: text on either side never spoils a match,
      so " guest@hotel.com " and "mail: a@b.c" pass as well. */
  lemma EmailRegexUnanchored(x: string, s: string, y: string)
    requires EmailRegexMatches(s)
    ensures EmailRegexMatches(x + s + y)
  {
    var a, p, d, e :| RegexSplitAt(s, a, p, d, e);
    var t, n := x + s + y, |x|;
    assert forall k :: 0 <= k < |s| ==> t[n + k] == s[k];
    assert RegexSplitAt(t, n + a, n + p, n + d, n + e);
  }

  /** A string without an '@' never matches. */
  lemma EmailNeedsAt(s: string)
    requires forall k :: 0 <= k < |s| ==> s[k] != '@'
    ensures !EmailShaped(s) && !EmailRegexMatches(s)
  {
    EmailShapedIffRegex(s);
  }

  predicate IsDigit(c: char)
  {
    '0' <= c <= '9'
  }

  /** What `/^[0-9]{10}$/.test(s)` means: the whole string is ten ASCII digits. */
  predicate PhoneMatches(s: string)
    ensures PhoneMatches(s) ==> !IsBlank(s) && Trim(s) == s
  {
    DigitsSurviveTrim(s);
    |s| == 10 && forall k :: 0 <= k < |s| ==> IsDigit(s[k])
  }

  /** A non-empty run of digits has no whitespace to trim. */
  lemma DigitsSurviveTrim(s: string)
    ensures s != [] && (forall k :: 0 <= k < |s| ==> IsDigit(s[k])) ==> !IsBlank(s) && Trim(s) == s
  {
    if s != [] && forall k :: 0 <= k < |s| ==> IsDigit(s[k]) {
      assert !IsSpace(s[0]) && !IsSpace(s[|s| - 1]);
      assert TrimStart(s) == s;
      assert TrimEnd(s) == s;
    }
  }

  /** The phone pattern is anchored at both ends: surrounding text, even a
      single space, makes a matching number fail. */
  lemma PhoneAnchored(x: string, s: string, y: string)
    requires PhoneMatches(s) && x + y != ""
    ensures !PhoneMatches(x + s + y)
  {
  }
}
