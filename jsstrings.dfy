/**
 * The JavaScript string operations the glue code relies on, with their
 * ECMAScript semantics: `indexOf`/`lastIndexOf` of one character,
 * `substring` (which clamps and swaps its arguments), `trim`, the `\s`
 * and `\w` character classes, and `search`/`test` of the end-anchored
 * suffix patterns `\.(a|b|...)$` with and without the `i` flag.
 * Strings are sequences of Unicode scalar values.
 */
module JsStrings {

  /** WhiteSpace and LineTerminator code points: the `\s` class, and what `trim` removes. */
  predicate IsSpace(c: char)
  {
    || c == '\t' || c == '\n' || c == '\U{000B}' || c == '\U{000C}' || c == '\r'
    || c == ' ' || c == '\U{00A0}' || c == '\U{1680}' || ('\U{2000}' <= c <= '\U{200A}')
    || c == '\U{2028}' || c == '\U{2029}' || c == '\U{202F}' || c == '\U{205F}'
    || c == '\U{3000}' || c == '\U{FEFF}'
  }

  /** The code points a regular-expression `.` does not match (no `s` flag). */
  predicate IsLineTerminator(c: char)
  {
    c == '\n' || c == '\r' || c == '\U{2028}' || c == '\U{2029}'
  }

  /** The `\w` class: ASCII letters, digits and `_`. */
  predicate IsWordChar(c: char)
  {
    ('a' <= c <= 'z') || ('A' <= c <= 'Z') || ('0' <= c <= '9') || c == '_'
  }

  /** `s.indexOf(c)`: the first position of `c`, or -1. */
  function IndexOf(s: string, c: char): (r: int)
    ensures -1 <= r < |s|
    ensures r == -1 <==> c !in s
    ensures r >= 0 ==> s[r] == c && c !in s[..r]
  {
    if s == [] then -1
    else if s[0] == c then 0
    else
      var k := IndexOf(s[1..], c);
      assert k >= 0 ==> s[..k + 1] == [s[0]] + s[1..][..k];
      if k == -1 then -1 else k + 1
  }

  /** `s.lastIndexOf(c)`: the last position of `c`, or -1. */
  function LastIndexOf(s: string, c: char): (r: int)
    ensures -1 <= r < |s|
    ensures r == -1 <==> c !in s
    ensures r >= 0 ==> s[r] == c && c !in s[r + 1..]
  {
    if s == [] then -1
    else if s[|s| - 1] == c then |s| - 1
    else
      var k := LastIndexOf(s[..|s| - 1], c);
      assert s == s[..|s| - 1] + [s[|s| - 1]];
      k
  }

  /** An argument of `substring` clamped into `[0, n]`. */
  function Clamp(k: int, n: nat): (r: nat)
    ensures r <= n
    ensures 0 <= k <= n ==> r == k
  {
    if k < 0 then 0 else if k > n then n else k
  }

  /**
   * `s.substring(start, end)`: both arguments are clamped to `[0, |s|]`, and
   * when the start lies after the end the two are swapped.
   */
  function Substring(s: string, start: int, end: int): (r: string)
    ensures |r| <= |s|
    ensures 0 <= start <= end <= |s| ==> r == s[start..end]
    ensures 0 <= end <= start <= |s| ==> r == s[end..start]
    ensures end <= 0 ==> r == s[..Clamp(start, |s|)]
  {
    var a, b := Clamp(start, |s|), Clamp(end, |s|);
    if a <= b then s[a..b] else s[b..a]
  }

  /** The number of `\s` characters at the start of `s`. */
  function LeadingSpaces(s: string): (n: nat)
    ensures n <= |s|
    ensures forall k :: 0 <= k < n ==> IsSpace(s[k])
    ensures n < |s| ==> !IsSpace(s[n])
  {
    if s == [] || !IsSpace(s[0]) then 0 else 1 + LeadingSpaces(s[1..])
  }

  /** The number of `\s` characters at the end of `s`. */
  function TrailingSpaces(s: string): (n: nat)
    ensures n <= |s|
    ensures forall k :: |s| - n <= k < |s| ==> IsSpace(s[k])
    ensures n < |s| ==> !IsSpace(s[|s| - n - 1])
  {
    if s == [] || !IsSpace(s[|s| - 1]) then 0 else 1 + TrailingSpaces(s[..|s| - 1])
  }

  /**
   * `s.trim()`: the piece of `s` left once its leading and trailing white
   * space is removed; it is empty exactly when `s` is all white space.
   */
  function Trim(s: string): (r: string)
    ensures r == [] <==> forall k :: 0 <= k < |s| ==> IsSpace(s[k])
  {
    var t := s[LeadingSpaces(s)..];
    t[..|t| - TrailingSpaces(t)]
  }

  /**
   * What `trim` keeps: the piece of `s` after its leading white space, with
   * only white space after it, and neither end of it white space.
   */
  lemma TrimKeepsMiddle(s: string)
    ensures var n, r := LeadingSpaces(s), Trim(s);
            && n + |r| <= |s|
            && r == s[n..n + |r|]
            && (forall k :: n + |r| <= k < |s| ==> IsSpace(s[k]))
            && (r != [] ==> !IsSpace(r[0]) && !IsSpace(r[|r| - 1]))
  {
  }

  /** `s` ends with `suffix`, compared character by character. */
  predicate EndsWith(s: string, suffix: string)
  {
    |suffix| <= |s| && s[|s| - |suffix|..] == suffix
  }

  /** ASCII lower-casing; the only case folding a non-unicode `i` regex does for ASCII patterns. */
  function Lower(c: char): char
  {
    if 'A' <= c <= 'Z' then (c as int + 32) as char else c
  }

  /** Character equality under the regular expression's flags. */
  predicate SameChar(c: char, d: char, ignoreCase: bool)
  {
    if ignoreCase then Lower(c) == Lower(d) else c == d
  }

  /** `t` and `pattern` have the same length and agree character by character. */
  predicate SameText(t: string, pattern: string, ignoreCase: bool)
  {
    |t| == |pattern| && forall k :: 0 <= k < |t| ==> SameChar(t[k], pattern[k], ignoreCase)
  }

  /** `s` ends with `suffix`, compared with the regular expression's flags. */
  predicate EndsWithText(s: string, suffix: string, ignoreCase: bool)
  {
    |suffix| <= |s| && SameText(s[|s| - |suffix|..], suffix, ignoreCase)
  }

  /** Some alternative of `alts` matches the whole of `t`. */
  predicate AnyAlternative(t: string, alts: seq<string>, ignoreCase: bool)
  {
    alts != [] && (SameText(t, alts[0], ignoreCase) || AnyAlternative(t, alts[1..], ignoreCase))
  }

  /** Some alternative of `alts` is a suffix of `s`. */
  predicate AnySuffix(s: string, alts: seq<string>, ignoreCase: bool)
  {
    alts != [] && (EndsWithText(s, alts[0], ignoreCase) || AnySuffix(s, alts[1..], ignoreCase))
  }

  /**
   * `s.search(/(alt0|alt1|...)$/)` started at position `q`: the first
   * position from which some alternative matches the rest of the string up
   * to its end, or -1.
   */
  function SearchFrom(s: string, alts: seq<string>, ignoreCase: bool, q: nat): (r: int)
    requires q <= |s|
    decreases |s| - q
    ensures r == -1 || q <= r <= |s|
    ensures r >= 0 ==> AnyAlternative(s[r..], alts, ignoreCase)
    ensures r >= 0 ==> forall p :: q <= p < r ==> !AnyAlternative(s[p..], alts, ignoreCase)
    ensures r == -1 ==> forall p :: q <= p <= |s| ==> !AnyAlternative(s[p..], alts, ignoreCase)
  {
    if AnyAlternative(s[q..], alts, ignoreCase) then q
    else if q == |s| then -1
    else SearchFrom(s, alts, ignoreCase, q + 1)
  }

  /** `s.search(/(alts)$/) > -1`, which is also `/(alts)$/.test(s)`. */
  predicate MatchesSuffixPattern(s: string, alts: seq<string>, ignoreCase: bool)
  {
    SearchFrom(s, alts, ignoreCase, 0) > -1
  }

  lemma {:induction false} AlternativeIsSuffix(s: string, p: nat, alts: seq<string>, ignoreCase: bool)
    requires p <= |s|
    ensures AnyAlternative(s[p..], alts, ignoreCase) ==> AnySuffix(s, alts, ignoreCase)
    decreases |alts|
  {
    if alts != [] {
      if SameText(s[p..], alts[0], ignoreCase) {
        assert s[|s| - |alts[0]|..] == s[p..];
      } else {
        AlternativeIsSuffix(s, p, alts[1..], ignoreCase);
      }
    }
  }

  lemma {:induction false} SuffixIsAlternative(s: string, alts: seq<string>, ignoreCase: bool) returns (p: nat)
    requires AnySuffix(s, alts, ignoreCase)
    ensures p <= |s| && AnyAlternative(s[p..], alts, ignoreCase)
    decreases |alts|
  {
    if EndsWithText(s, alts[0], ignoreCase) {
      p := |s| - |alts[0]|;
    } else {
      var p' := SuffixIsAlternative(s, alts[1..], ignoreCase);
      p := p';
    }
  }

  /** The end-anchored pattern finds a match exactly when one of its alternatives is a suffix. */
  lemma SuffixPatternMeaning(s: string, alts: seq<string>, ignoreCase: bool)
    ensures MatchesSuffixPattern(s, alts, ignoreCase) <==> AnySuffix(s, alts, ignoreCase)
  {
    var r := SearchFrom(s, alts, ignoreCase, 0);
    if r >= 0 {
      AlternativeIsSuffix(s, r, alts, ignoreCase);
    }
    if AnySuffix(s, alts, ignoreCase) {
      var p := SuffixIsAlternative(s, alts, ignoreCase);
      assert r != -1;
    }
  }

  /** With one alternative the pattern is a plain suffix test. */
  lemma SingleSuffixPattern(s: string, suffix: string, ignoreCase: bool)
    ensures MatchesSuffixPattern(s, [suffix], ignoreCase) <==> EndsWithText(s, suffix, ignoreCase)
  {
    SuffixPatternMeaning(s, [suffix], ignoreCase);
    assert [suffix][1..] == [];
  }

  /** Without the `i` flag, matching a suffix is `EndsWith`. */
  lemma EndsWithTextExact(s: string, suffix: string)
    ensures EndsWithText(s, suffix, false) <==> EndsWith(s, suffix)
  {
    if EndsWithText(s, suffix, false) {
      assert s[|s| - |suffix|..] == suffix;
    }
  }

  /** Appending to the front keeps a suffix. */
  lemma EndsWithAfterPrefix(prefix: string, s: string, suffix: string, ignoreCase: bool)
    requires EndsWithText(s, suffix, ignoreCase)
    ensures EndsWithText(prefix + s, suffix, ignoreCase)
  {
    var t := prefix + s;
    assert t[|t| - |suffix|..] == s[|s| - |suffix|..];
  }

  /** An exact suffix is also a suffix when case is ignored. */
  lemma ExactSuffixIgnoringCase(s: string, suffix: string)
    requires EndsWithText(s, suffix, false)
    ensures EndsWithText(s, suffix, true)
  {
  }

  /**
   * The directory part of a URL, `src.substring(0, src.lastIndexOf('/') + 1)`:
   * everything up to and including the last `/`, or the empty string when
   * there is no `/`.
   */
  function BaseUrl(src: string): (r: string)
    ensures |r| <= |src| && r == src[..|r|]
    ensures r == [] <==> '/' !in src
    ensures r != [] ==> r[|r| - 1] == '/'
    ensures '/' !in src[|r|..]
  {
    Substring(src, 0, LastIndexOf(src, '/') + 1)
  }
}
