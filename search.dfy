/** The fuzzy matcher (source/utils/search.ts): a case-insensitive subsequence test. */
module Search {
  import opened Seqs

  /** ASCII lower-casing of one character; other characters are left as they are. */
  function Lower(c: char): char {
    if 'A' <= c <= 'Z' then (c as int + 32) as char else c
  }

  /** ASCII upper-casing of one character, used to state case-insensitivity. */
  function Upper(c: char): char {
    if 'a' <= c <= 'z' then (c as int - 32) as char else c
  }

  function LowerString(s: string): (r: string)
    ensures |r| == |s| && forall k :: 0 <= k < |s| ==> r[k] == Lower(s[k])
  {
    seq(|s|, k requires 0 <= k < |s| => Lower(s[k]))
  }

  function UpperString(s: string): (r: string)
    ensures |r| == |s| && forall k :: 0 <= k < |s| ==> r[k] == Upper(s[k])
  {
    seq(|s|, k requires 0 <= k < |s| => Upper(s[k]))
  }

  /** What `fuzzyMatch(pattern, str)` decides: the lower-cased pattern is a subsequence
      of the lower-cased string. */
  predicate Matches(pattern: string, str: string) {
    IsSubsequence(LowerString(pattern), LowerString(str))
  }

  /** The two-index scan of the source: `strIdx` moves on every step, `patternIdx` only
      when the current characters are equal; the pattern matches when it is used up. */
  method FuzzyMatch(pattern: string, str: string) returns (matched: bool)
    ensures matched == Matches(pattern, str)
  {
    var p := LowerString(pattern);
    var s := LowerString(str);
    var patternIdx := 0;
    var strIdx := 0;
    while patternIdx < |p| && strIdx < |s|
      invariant 0 <= patternIdx <= strIdx <= |s|
      invariant patternIdx <= |p|
      invariant IsSubsequence(p, s) == IsSubsequence(p[patternIdx..], s[strIdx..])
      decreases |s| - strIdx
    {
      if p[patternIdx] == s[strIdx] {
        GreedyStep(p[patternIdx..], s[strIdx..]);
        assert p[patternIdx..][1..] == p[patternIdx + 1..];
        patternIdx := patternIdx + 1;
      }
      assert s[strIdx..][1..] == s[strIdx + 1..];
      strIdx := strIdx + 1;
    }
    matched := patternIdx == |p|;
  }

  /** The empty pattern matches every string, the empty one included. */
  lemma EmptyPatternMatchesAll(str: string)
    ensures Matches("", str)
  {
  }

  /** A non-empty pattern never matches the empty string. */
  lemma NonEmptyPatternRejectsEmpty(pattern: string)
    requires pattern != ""
    ensures !Matches(pattern, "")
  {
  }

  /** A pattern longer than the string cannot match it. */
  lemma LongerPatternNeverMatches(pattern: string, str: string)
    requires |pattern| > |str|
    ensures !Matches(pattern, str)
  {
    if Matches(pattern, str) {
      SubsequenceLength(LowerString(pattern), LowerString(str));
    }
  }

  lemma LowerOfUpper(s: string)
    ensures LowerString(UpperString(s)) == LowerString(s)
  {
    var a, b := LowerString(UpperString(s)), LowerString(s);
    forall k | 0 <= k < |s| ensures a[k] == b[k] {
      var c := s[k];
      if 'a' <= c <= 'z' {
        assert Upper(c) as int == c as int - 32;
      }
    }
  }

  lemma LowerIdempotent(s: string)
    ensures LowerString(LowerString(s)) == LowerString(s)
  {
  }

  /** Matching ignores the case of ASCII letters in both arguments: strings that agree
      up to case are interchangeable, and upper- or lower-casing either side changes
      nothing. */
  lemma MatchIgnoresCase(pattern: string, str: string, pattern': string, str': string)
    requires LowerString(pattern) == LowerString(pattern') && LowerString(str) == LowerString(str')
    ensures Matches(pattern, str) == Matches(pattern', str')
    ensures Matches(UpperString(pattern), str) == Matches(pattern, str)
    ensures Matches(pattern, UpperString(str)) == Matches(pattern, str)
    ensures Matches(LowerString(pattern), str) == Matches(pattern, str)
    ensures Matches(pattern, LowerString(str)) == Matches(pattern, str)
  {
    LowerOfUpper(pattern);
    LowerOfUpper(str);
    LowerIdempotent(pattern);
    LowerIdempotent(str);
  }

  lemma LowerConcat(a: string, b: string)
    ensures LowerString(a + b) == LowerString(a) + LowerString(b)
  {
    var l, r := LowerString(a + b), LowerString(a) + LowerString(b);
    forall k | 0 <= k < |l| ensures l[k] == r[k] {
      if k >= |a| {
        assert (a + b)[k] == b[k - |a|];
      }
    }
  }

  lemma LowerSlices(s: string, i: nat)
    requires i <= |s|
    ensures LowerString(s[..i]) == LowerString(s)[..i]
    ensures LowerString(s[i..]) == LowerString(s)[i..]
  {
    var l, r := LowerString(s[i..]), LowerString(s)[i..];
    forall k | 0 <= k < |l| ensures l[k] == r[k] {
      assert s[i..][k] == s[i + k];
    }
  }

  lemma LowerOfInsert(s: string, i: nat, c: char)
    requires i <= |s|
    ensures LowerString(s[..i] + [c] + s[i..]) == LowerString(s)[..i] + [Lower(c)] + LowerString(s)[i..]
  {
    var front, back := s[..i], s[i..];
    var t := front + [c];
    LowerConcat(t, back);
    assert LowerString(t + back) == LowerString(t) + LowerString(back);
    LowerConcat(front, [c]);
    assert LowerString([c]) == [Lower(c)];
    assert LowerString(t) == LowerString(front) + [Lower(c)];
    LowerSlices(s, i);
  }

  /** A match survives inserting a character anywhere into the string. */
  lemma InsertKeepsMatch(pattern: string, str: string, i: nat, c: char)
    requires Matches(pattern, str) && i <= |str|
    ensures Matches(pattern, str[..i] + [c] + str[i..])
  {
    LowerOfInsert(str, i, c);
    InsertKeepsSubsequence(LowerString(pattern), LowerString(str), i, Lower(c));
  }

  /** If a pattern matches, so does every prefix of it. */
  lemma PatternPrefixMatches(pattern: string, str: string, k: nat)
    requires Matches(pattern, str) && k <= |pattern|
    ensures Matches(pattern[..k], str)
  {
    assert LowerString(pattern[..k]) == LowerString(pattern)[..k];
    PrefixOfSubsequence(LowerString(pattern), LowerString(str), k);
  }

  /** `bd` matches `build` and `bundle`: its letters occur in them in order. */
  lemma SubsequenceExamples()
    ensures Matches("bd", "build") && Matches("bd", "bundle")
  {
    assert LowerString("bd") == "bd";
    assert LowerString("build") == "build";
    assert LowerString("bundle") == "bundle";
    assert IsSubsequence("d", "d");
    assert IsSubsequence("d", "ld");
    assert IsSubsequence("d", "ild");
    assert IsSubsequence("d", "uild");
    assert IsSubsequence("d", "dle");
    assert IsSubsequence("d", "ndle");
    assert IsSubsequence("d", "undle");
  }

  /** A pattern whose first character is absent from the name does not match it. */
  lemma MissingCharacterExample()
    ensures !Matches("bd", "deploy")
  {
    assert LowerString("bd") == "bd";
    assert LowerString("deploy") == "deploy";
    assert !IsSubsequence("bd", "y");
    assert !IsSubsequence("bd", "oy");
    assert !IsSubsequence("bd", "loy");
    assert !IsSubsequence("bd", "ploy");
    assert !IsSubsequence("bd", "eploy");
  }

  /** Characters must appear in order: `dlib` does not match `build`. */
  lemma OrderMattersExample()
    ensures !Matches("dlib", "build")
  {
    assert LowerString("dlib") == "dlib";
    assert LowerString("build") == "build";
    assert !IsSubsequence("lib", "");
    assert !IsSubsequence("dlib", "d");
    assert !IsSubsequence("dlib", "ld");
    assert !IsSubsequence("dlib", "ild");
    assert !IsSubsequence("dlib", "uild");
  }

  /** Matching ignores case in concrete use: `Build` matches `bUILD`. */
  lemma CaseExample()
    ensures Matches("Build", "bUILD")
  {
    assert LowerString("Build") == "build";
    assert LowerString("bUILD") == "build";
    assert IsSubsequence("d", "d");
    assert IsSubsequence("ld", "ld");
    assert IsSubsequence("ild", "ild");
    assert IsSubsequence("uild", "uild");
  }
}
