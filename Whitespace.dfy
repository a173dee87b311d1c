/**
 * Foundation's `trimmingCharacters(in: .whitespaces)`, as used by the card
 * editor on the prompt and the answer.  `.whitespaces` is the Unicode
 * general category Zs together with CHARACTER TABULATION (U+0009); line
 * breaks are not in it.  Characters are Unicode scalar values.
 */
module Whitespace {

  /** Membership in `.whitespaces`: spaces and tab are in it, line and paragraph breaks are not. */
  predicate IsWhitespace(c: char): (b: bool)
    ensures c == ' ' || c == '\t' ==> b
    ensures (c == '\n' || c == '\r' || c == '\U{000B}' || c == '\U{000C}' ||
             c == '\U{0085}' || c == '\U{2028}' || c == '\U{2029}') ==> !b
  {
    c == '\t' || c == ' ' || c == '\U{00A0}' || c == '\U{1680}' ||
    ('\U{2000}' <= c <= '\U{200A}') ||
    c == '\U{202F}' || c == '\U{205F}' || c == '\U{3000}'
  }

  /** Every character of s[lo..hi] is whitespace. */
  ghost predicate AllWhitespace(s: string, lo: int, hi: int)
    requires 0 <= lo <= hi <= |s|
  {
    forall k :: lo <= k < hi ==> IsWhitespace(s[k])
  }

  /** How many whitespace characters s starts with. */
  function LeadingCount(s: string): (n: nat)
    ensures n <= |s|
  {
    if s != [] && IsWhitespace(s[0]) then 1 + LeadingCount(s[1..]) else 0
  }

  /** How many whitespace characters s ends with. */
  function TrailingCount(s: string): (n: nat)
    ensures n <= |s|
  {
    if s != [] && IsWhitespace(s[|s| - 1]) then 1 + TrailingCount(s[..|s| - 1]) else 0
  }

  /** The leading count covers a whitespace run that stops at a non-whitespace character or the end. */
  lemma {:induction false} LeadingCountIsMaximal(s: string)
    ensures AllWhitespace(s, 0, LeadingCount(s))
    ensures LeadingCount(s) < |s| ==> !IsWhitespace(s[LeadingCount(s)])
  {
    if s != [] && IsWhitespace(s[0]) {
      LeadingCountIsMaximal(s[1..]);
      forall k | 0 <= k < LeadingCount(s) ensures IsWhitespace(s[k]) {
        if k > 0 { assert s[k] == s[1..][k - 1]; }
      }
    }
  }

  /** The trailing count covers a whitespace run that stops at a non-whitespace character or the start. */
  lemma {:induction false} TrailingCountIsMaximal(s: string)
    ensures AllWhitespace(s, |s| - TrailingCount(s), |s|)
    ensures TrailingCount(s) < |s| ==> !IsWhitespace(s[|s| - 1 - TrailingCount(s)])
  {
    if s != [] && IsWhitespace(s[|s| - 1]) {
      var init := s[..|s| - 1];
      TrailingCountIsMaximal(init);
      forall k | |s| - TrailingCount(s) <= k < |s| ensures IsWhitespace(s[k]) {
        if k < |s| - 1 { assert s[k] == init[k]; }
      }
      if TrailingCount(s) < |s| {
        assert s[|s| - 1 - TrailingCount(s)] == init[|init| - 1 - TrailingCount(init)];
      }
    }
  }

  /** s with its leading whitespace removed. */
  function TrimStart(s: string): (r: string)
    ensures |r| <= |s| && r == s[|s| - |r|..]
  {
    s[LeadingCount(s)..]
  }

  /** s with its trailing whitespace removed. */
  function TrimEnd(s: string): (r: string)
    ensures |r| <= |s| && r == s[..|r|]
  {
    s[..|s| - TrailingCount(s)]
  }

  /** `s.trimmingCharacters(in: .whitespaces)`. */
  function Trim(s: string): (r: string)
    ensures |r| <= |s|
  {
    TrimEnd(TrimStart(s))
  }

  /**
   * The meaning of trimming, independent of how it is computed: s[lo..hi]
   * is what is left of s once the whitespace at both ends is cut off.
   */
  ghost predicate TrimmedAt(s: string, lo: int, hi: int)
  {
    0 <= lo <= hi <= |s| &&
    AllWhitespace(s, 0, lo) && AllWhitespace(s, hi, |s|) &&
    (lo < hi ==> !IsWhitespace(s[lo]) && !IsWhitespace(s[hi - 1]))
  }

  /** Trim(s) is a contiguous slice of s whose cut-off ends are whitespace. */
  lemma TrimIsTrimmedSlice(s: string)
    ensures exists lo, hi :: TrimmedAt(s, lo, hi) && Trim(s) == s[lo..hi]
  {
    var lo := LeadingCount(s);
    var t := s[lo..];
    var hi := |s| - TrailingCount(t);
    LeadingCountIsMaximal(s);
    TrailingCountIsMaximal(t);
    assert Trim(s) == s[lo..hi];
    forall k | hi <= k < |s| ensures IsWhitespace(s[k]) {
      assert s[k] == t[k - lo];
    }
    if lo < hi {
      assert s[hi - 1] == t[|t| - 1 - TrailingCount(t)];
    }
    assert TrimmedAt(s, lo, hi);
  }

  /** Any slice obtained by cutting whitespace off both ends down to non-whitespace is Trim(s). */
  lemma TrimUnique(s: string, lo: int, hi: int)
    requires TrimmedAt(s, lo, hi)
    ensures Trim(s) == s[lo..hi]
  {
    TrimIsTrimmedSlice(s);
    var lo', hi' :| TrimmedAt(s, lo', hi') && Trim(s) == s[lo'..hi'];
    if lo < hi {
      assert !IsWhitespace(s[lo]) && !IsWhitespace(s[hi - 1]);
    }
  }

  /** The trimmed text neither starts nor ends with whitespace. */
  lemma TrimHasNoEdgeWhitespace(s: string)
    ensures Trim(s) != [] ==> !IsWhitespace(Trim(s)[0]) && !IsWhitespace(Trim(s)[|Trim(s)| - 1])
  {
    TrimIsTrimmedSlice(s);
    var lo, hi :| TrimmedAt(s, lo, hi) && Trim(s) == s[lo..hi];
    if lo < hi {
      assert Trim(s)[0] == s[lo] && Trim(s)[|Trim(s)| - 1] == s[hi - 1];
    }
  }

  /** Trimming twice is trimming once. */
  lemma TrimIdempotent(s: string)
    ensures Trim(Trim(s)) == Trim(s)
  {
    var t := Trim(s);
    TrimHasNoEdgeWhitespace(s);
    assert TrimmedAt(t, 0, |t|);
    TrimUnique(t, 0, |t|);
    assert t[0..|t|] == t;
  }

  /** The trimmed text is empty exactly when the input is made of whitespace only. */
  lemma TrimEmptyIff(s: string)
    ensures Trim(s) == [] <==> AllWhitespace(s, 0, |s|)
  {
    if AllWhitespace(s, 0, |s|) {
      assert TrimmedAt(s, 0, 0);
      TrimUnique(s, 0, 0);
    } else {
      TrimIsTrimmedSlice(s);
      var lo, hi :| TrimmedAt(s, lo, hi) && Trim(s) == s[lo..hi];
    }
  }
}
