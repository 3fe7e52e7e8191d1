/**
 * Foundation's `trimmingCharacters(in: .whitespacesAndNewlines)`, used on
 * search-API titles, subtitles and descriptions and on colour hex strings.
 */
module Text {

  /**
   * Membership in `CharacterSet.whitespacesAndNewlines`: the Unicode space
   * separators, the tab, and the line and paragraph breaks.
   */
  predicate IsWhitespaceOrNewline(c: char) {
    || c == ' ' || c == '\t' || c == '\n' || c == '\r'
    || c == '\U{B}' || c == '\U{C}' || c == '\U{85}' || c == '\U{A0}'
    || c == '\U{1680}' || ('\U{2000}' <= c <= '\U{200A}')
    || c == '\U{2028}' || c == '\U{2029}' || c == '\U{202F}'
    || c == '\U{205F}' || c == '\U{3000}'
  }

  /** Drops the whitespace at the front of `s`, and only that. */
  function TrimStart(s: string): (r: string)
    ensures |r| <= |s| && r == s[|s| - |r|..]
    ensures forall i :: 0 <= i < |s| - |r| ==> IsWhitespaceOrNewline(s[i])
    ensures r == [] || !IsWhitespaceOrNewline(r[0])
  {
    if |s| > 0 && IsWhitespaceOrNewline(s[0]) then TrimStart(s[1..]) else s
  }

  /** Drops the whitespace at the end of `s`, and only that. */
  function TrimEnd(s: string): (r: string)
    ensures |r| <= |s| && r == s[..|r|]
    ensures forall i :: |r| <= i < |s| ==> IsWhitespaceOrNewline(s[i])
    ensures r == [] || !IsWhitespaceOrNewline(r[|r| - 1])
  {
    if |s| > 0 && IsWhitespaceOrNewline(s[|s| - 1]) then TrimEnd(s[..|s| - 1]) else s
  }

  /**
   * `s` without its leading and trailing whitespace: a contiguous slice of
   * `s` that neither starts nor ends with whitespace, everything cut off
   * being whitespace.
   */
  function Trim(s: string): (r: string)
    ensures exists lo, hi :: 0 <= lo <= hi <= |s| && r == s[lo..hi] &&
              (forall i :: 0 <= i < lo ==> IsWhitespaceOrNewline(s[i])) &&
              (forall i :: hi <= i < |s| ==> IsWhitespaceOrNewline(s[i]))
    ensures r == [] || (!IsWhitespaceOrNewline(r[0]) && !IsWhitespaceOrNewline(r[|r| - 1]))
  {
    PrefixThenSuffixIsSlice(s, TrimStart(s), TrimEnd(TrimStart(s)), IsWhitespaceOrNewline);
    TrimEnd(TrimStart(s))
  }

  /**
   * Cutting a prefix and then a suffix of elements that satisfy `p` leaves a
   * slice of `s`, with everything cut off satisfying `p`.
   */
  lemma PrefixThenSuffixIsSlice<T>(s: seq<T>, front: seq<T>, r: seq<T>, p: T -> bool)
    requires |front| <= |s| && front == s[|s| - |front|..]
    requires forall i :: 0 <= i < |s| - |front| ==> p(s[i])
    requires |r| <= |front| && r == front[..|r|]
    requires forall i :: |r| <= i < |front| ==> p(front[i])
    ensures var lo := |s| - |front|; var hi := lo + |r|;
            && r == s[lo..hi]
            && (forall i :: 0 <= i < lo ==> p(s[i]))
            && (forall i :: hi <= i < |s| ==> p(s[i]))
  {
    var lo := |s| - |front|;
    forall i | lo + |r| <= i < |s|
      ensures p(s[i])
    {
      assert s[i] == front[i - lo];
    }
  }

  /** Trimming twice is trimming once. */
  lemma TrimIdempotent(s: string)
    ensures Trim(Trim(s)) == Trim(s)
  {
    var t := Trim(s);
    TrimNoEdgeWhitespace(t);
  }

  /** A string with no whitespace at either end is its own trim. */
  lemma TrimNoEdgeWhitespace(t: string)
    requires t == [] || (!IsWhitespaceOrNewline(t[0]) && !IsWhitespaceOrNewline(t[|t| - 1]))
    ensures Trim(t) == t
  {
    assert TrimStart(t) == t;
    assert TrimEnd(t) == t;
  }

  predicate AllWhitespace(w: string) {
    forall i :: 0 <= i < |w| ==> IsWhitespaceOrNewline(w[i])
  }

  lemma {:induction false} TrimStartSkipsWhitespace(w: string, s: string)
    requires AllWhitespace(w)
    requires s == [] || !IsWhitespaceOrNewline(s[0])
    ensures TrimStart(w + s) == s
  {
    if w == [] {
      assert w + s == s;
    } else {
      assert (w + s)[1..] == w[1..] + s;
      TrimStartSkipsWhitespace(w[1..], s);
    }
  }

  lemma {:induction false} TrimEndSkipsWhitespace(s: string, w: string)
    requires AllWhitespace(w)
    requires s == [] || !IsWhitespaceOrNewline(s[|s| - 1])
    ensures TrimEnd(s + w) == s
  {
    if w == [] {
      assert s + w == s;
    } else {
      assert (s + w)[..|s + w| - 1] == s + w[..|w| - 1];
      TrimEndSkipsWhitespace(s, w[..|w| - 1]);
    }
  }

  /**
   * Whitespace added around a string with no whitespace at either end is
   * exactly what trimming removes.
   */
  lemma TrimSurrounded(before: string, s: string, after: string)
    requires AllWhitespace(before) && AllWhitespace(after)
    requires s == [] || (!IsWhitespaceOrNewline(s[0]) && !IsWhitespaceOrNewline(s[|s| - 1]))
    ensures Trim(before + s + after) == s
  {
    if s == [] {
      assert before + s + after == before + after;
      assert AllWhitespace(before + after);
      TrimStartSkipsWhitespace(before + after, []);
      assert before + after + [] == before + after;
    } else {
      assert before + s + after == before + (s + after);
      TrimStartSkipsWhitespace(before, s + after);
      TrimEndSkipsWhitespace(s, after);
    }
  }
}
