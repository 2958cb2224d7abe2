/** Query sanitising for the search box (source/components/SearchInput.tsx). */
module SearchInput {

  /** Longest query kept from the text input. */
  const MaxQueryLength: nat := 100

  /** The characters JavaScript's `String.prototype.trim` removes: the white-space and
      line-terminator code points of the ECMAScript grammar. */
  const TrimmedCharacters: set<char> := {
    '\t', '\n', '\U{000B}', '\U{000C}', '\r', ' ', '\U{00A0}', '\U{1680}',
    '\U{2000}', '\U{2001}', '\U{2002}', '\U{2003}', '\U{2004}', '\U{2005}', '\U{2006}', '\U{2007}',
    '\U{2008}', '\U{2009}', '\U{200A}', '\U{2028}', '\U{2029}', '\U{202F}', '\U{205F}', '\U{3000}',
    '\U{FEFF}'
  }

  /** Membership in that set, tested on code-point ranges. */
  predicate IsWhitespace(c: char) {
    var n := c as int;
    (0x09 <= n <= 0x0D) || n == 0x20 || n == 0xA0 || n == 0x1680 ||
    (0x2000 <= n <= 0x200A) || n == 0x2028 || n == 0x2029 || n == 0x202F ||
    n == 0x205F || n == 0x3000 || n == 0xFEFF
  }

  /** The range test picks out exactly the listed characters. */
  lemma WhitespaceIsTrimmedCharacters(c: char)
    ensures IsWhitespace(c) <==> c in TrimmedCharacters
  {
  }

  /** `s` with its leading white space removed: a suffix of `s` that does not start
      with white space, and everything cut off is white space. */
  function TrimStart(s: string): (r: string)
    ensures |r| <= |s| && r == s[|s| - |r|..]
    ensures forall k :: 0 <= k < |s| - |r| ==> IsWhitespace(s[k])
    ensures r == [] || !IsWhitespace(r[0])
  {
    if s != [] && IsWhitespace(s[0]) then TrimStart(s[1..]) else s
  }

  /** `s` with its trailing white space removed: a prefix of `s` that does not end
      with white space, and everything cut off is white space. */
  function TrimEnd(s: string): (r: string)
    ensures |r| <= |s| && r == s[..|r|]
    ensures forall k :: |r| <= k < |s| ==> IsWhitespace(s[k])
    ensures r == [] || !IsWhitespace(r[|r| - 1])
  {
    if s != [] && IsWhitespace(s[|s| - 1]) then TrimEnd(s[..|s| - 1]) else s
  }

  /** `trim()`: the part of `s` left after removing white space at both ends. It
      starts where `TrimStart` starts, and everything cut off on either side is white
      space. */
  function Trim(s: string): (r: string)
    ensures |r| <= |s|
    ensures r == [] || (!IsWhitespace(r[0]) && !IsWhitespace(r[|r| - 1]))
    ensures var i := |s| - |TrimStart(s)|;
            && i + |r| <= |s| && r == s[i..i + |r|]
            && (forall k :: 0 <= k < i ==> IsWhitespace(s[k]))
            && (forall k :: i + |r| <= k < |s| ==> IsWhitespace(s[k]))
  {
    var t := TrimStart(s);
    var r := TrimEnd(t);
    TrimEndCutsWhitespace(s, t, r);
    r
  }

  /** A prefix `r` of a suffix `t` of `s` is a contiguous part of `s`, and what is cut
      off `t` after `r`, when it is white space, is white space in `s`. */
  lemma TrimEndCutsWhitespace(s: string, t: string, r: string)
    requires |t| <= |s| && t == s[|s| - |t|..]
    requires |r| <= |t| && r == t[..|r|]
    requires forall k :: |r| <= k < |t| ==> IsWhitespace(t[k])
    ensures r == s[|s| - |t|..|s| - |t| + |r|]
    ensures forall k :: |s| - |t| + |r| <= k < |s| ==> IsWhitespace(s[k])
  {
    var i := |s| - |t|;
    assert r == s[i..i + |r|] by {
      forall k | 0 <= k < |r| ensures r[k] == s[i + k] {
        assert r[k] == t[k];
      }
    }
    forall k | i + |r| <= k < |s| ensures IsWhitespace(s[k]) {
      assert s[k] == t[k - i];
    }
  }

  /** `sanitizeSearchQuery`: keep the first 100 characters, then trim them. */
  function Sanitize(query: string): (r: string)
    ensures |r| <= MaxQueryLength
    ensures r == [] || (!IsWhitespace(r[0]) && !IsWhitespace(r[|r| - 1]))
  {
    if query == "" then ""
    else Trim(query[..if |query| < MaxQueryLength then |query| else MaxQueryLength])
  }

  /** A string with nothing to trim is its own trim. */
  lemma TrimOfTrimmed(s: string)
    requires s == [] || (!IsWhitespace(s[0]) && !IsWhitespace(s[|s| - 1]))
    ensures Trim(s) == s
  {
  }

  /** The empty query sanitises to the empty string. */
  lemma SanitizeEmpty()
    ensures Sanitize("") == ""
  {
  }

  /** Truncation comes before trimming. */
  lemma SanitizeTruncatesThenTrims(query: string)
    ensures Sanitize(query) == Trim(query[..if |query| < MaxQueryLength then |query| else MaxQueryLength])
  {
  }

  /** A query of at most 100 characters with no surrounding white space is kept as it is. */
  lemma SanitizeKeepsCleanQuery(query: string)
    requires |query| <= MaxQueryLength
    requires query == [] || (!IsWhitespace(query[0]) && !IsWhitespace(query[|query| - 1]))
    ensures Sanitize(query) == query
  {
    if query != "" {
      assert query[..|query|] == query;
      TrimOfTrimmed(query);
    }
  }

  /** Sanitising twice is sanitising once. */
  lemma SanitizeIdempotent(query: string)
    ensures Sanitize(Sanitize(query)) == Sanitize(query)
  {
    SanitizeKeepsCleanQuery(Sanitize(query));
  }

  /** Because truncation comes first, a long query can lose more than its white space:
      a space followed by 100 letters keeps only 99 of them. */
  lemma TruncationBeforeTrimExample()
    ensures |Sanitize([' '] + seq(MaxQueryLength, _ => 'a'))| == MaxQueryLength - 1
  {
    var q := [' '] + seq(MaxQueryLength, _ => 'a');
    var cut := q[..MaxQueryLength];
    assert cut == [' '] + seq(MaxQueryLength - 1, _ => 'a');
    assert TrimStart(cut) == cut[1..];
    assert TrimEnd(cut[1..]) == cut[1..];
  }
}
