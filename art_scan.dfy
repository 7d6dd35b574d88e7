/**
 * The text scraping behind `AnimateArt.parseSymbols`: the generated script
 * is split into initializer segments at every `(function(` / `!function(`
 * (the pattern `[\(!]function\s*\(`), the minified name of each segment's
 * library parameter is recovered positionally, and the segment is scanned
 * with the global pattern `\(<lib>.(\w+)\s*=` for the names it assigns.
 * Both patterns are scanned by hand, with JavaScript's matching rules.
 * The registry updates that consume these names are in module Art.
 */
module ArtScan {
  import opened JsValues
  import opened JsStrings

  /** The number of consecutive `\s` characters of `s` from position `k`. */
  function SpacesFrom(s: string, k: nat): (n: nat)
    requires k <= |s|
    decreases |s| - k
    ensures k + n <= |s|
    ensures forall j :: k <= j < k + n ==> IsSpace(s[j])
    ensures k + n < |s| ==> !IsSpace(s[k + n])
  {
    if k == |s| || !IsSpace(s[k]) then 0 else 1 + SpacesFrom(s, k + 1)
  }

  /** The number of consecutive `\w` characters of `s` from position `k`. */
  function WordsFrom(s: string, k: nat): (n: nat)
    requires k <= |s|
    decreases |s| - k
    ensures k + n <= |s|
    ensures forall j :: k <= j < k + n ==> IsWordChar(s[j])
    ensures k + n < |s| ==> !IsWordChar(s[k + n])
  {
    if k == |s| || !IsWordChar(s[k]) then 0 else 1 + WordsFrom(s, k + 1)
  }

  // ---------------------------------------------------------------------
  // Splitting the script: text.split(/[\(!]function\s*\(/)
  // ---------------------------------------------------------------------

  /**
   * The end of a match of `[\(!]function\s*\(` starting at `q`, if any.
   * `\s*` is greedy and `(` is not white space, so the only candidate is
   * the one that skips all white space after the keyword.
   */
  function SeparatorAt(s: string, q: nat): (e: Option<nat>)
    requires q <= |s|
    ensures e.Some? ==> q + 10 <= e.value <= |s|
  {
    if q + 9 < |s| && (s[q] == '(' || s[q] == '!') && s[q + 1..q + 9] == "function" then
      var open := q + 9 + SpacesFrom(s, q + 9);
      if open < |s| && s[open] == '(' then Some(open + 1) else None
    else None
  }

  /**
   * `s[q..e]` is a match of `[\(!]function\s*\(`, read off the pattern: an
   * opening `(` or `!`, the keyword, any run of white space, and `(`.
   */
  predicate IsSeparator(s: string, q: nat, e: nat)
  {
    && q + 10 <= e <= |s|
    && (s[q] == '(' || s[q] == '!') && s[q + 1..q + 9] == "function"
    && (forall j :: q + 9 <= j < e - 1 ==> IsSpace(s[j]))
    && s[e - 1] == '('
  }

  /**
   * The scan finds exactly the matches of the pattern: it returns `end`
   * when `s[q..end]` is a match, and no other end is possible.
   */
  lemma SeparatorAtMeaning(s: string, q: nat, end: nat)
    requires q <= |s|
    ensures SeparatorAt(s, q) == Some(end) <==> IsSeparator(s, q, end)
  {
    if IsSeparator(s, q, end) {
      var n := SpacesFrom(s, q + 9);
      assert !IsSpace(s[end - 1]);
      assert q + 9 + n == end - 1;
    }
  }

  /** No separator match starts anywhere in `t`. */
  ghost predicate SeparatorFree(t: string)
  {
    forall i :: 0 <= i <= |t| ==> SeparatorAt(t, i).None?
  }

  /**
   * The splitting loop of `String.prototype.split` with a regular
   * expression: `p` is where the current piece began and `q` the position
   * being tried; a match ending at `e` closes the piece `s[p..q]`.
   */
  function SplitFrom(s: string, p: nat, q: nat): (r: seq<string>)
    requires p <= q <= |s|
    decreases |s| - q
    ensures |r| >= 1
  {
    if q == |s| then [s[p..]]
    else
      match SeparatorAt(s, q)
      case Some(e) => [s[p..q]] + SplitFrom(s, e, e)
      case None => SplitFrom(s, p, q + 1)
  }

  /** `text.split(/[\(!]function\s*\(/)`. */
  function Split(s: string): (r: seq<string>)
  {
    SplitFrom(s, 0, 0)
  }

  /** The start of the leftmost separator match at or after `q`. */
  function NextSeparator(s: string, q: nat): (a: Option<nat>)
    requires q <= |s|
    decreases |s| - q
    ensures a.Some? ==> q <= a.value <= |s| && SeparatorAt(s, a.value).Some?
    ensures a.Some? ==> forall j :: q <= j < a.value ==> SeparatorAt(s, j).None?
    ensures a.None? ==> forall j :: q <= j <= |s| ==> SeparatorAt(s, j).None?
  {
    if SeparatorAt(s, q).Some? then Some(q)
    else if q == |s| then None
    else NextSeparator(s, q + 1)
  }

  /**
   * The split from `p` described by its cuts: the text up to the leftmost
   * separator match, then the split of what follows that match.
   */
  function SplitAfter(s: string, p: nat): seq<string>
    requires p <= |s|
    decreases |s| - p
  {
    match NextSeparator(s, p)
    case None => [s[p..]]
    case Some(a) => [s[p..a]] + SplitAfter(s, SeparatorAt(s, a).value)
  }

  /** The texts of those successive leftmost separator matches. */
  function SeparatorsAfter(s: string, p: nat): seq<string>
    requires p <= |s|
    decreases |s| - p
  {
    match NextSeparator(s, p)
    case None => []
    case Some(a) => var e := SeparatorAt(s, a).value; [s[a..e]] + SeparatorsAfter(s, e)
  }

  /** Segments put back together with the separator texts between them. */
  function Rejoin(segments: seq<string>, separators: seq<string>): string
    requires |segments| == |separators| + 1
    decreases |separators|
  {
    if separators == [] then segments[0]
    else segments[0] + separators[0] + Rejoin(segments[1..], separators[1..])
  }

  lemma {:induction false} SplitFromIsSplitAfter(s: string, p: nat, q: nat)
    requires p <= q <= |s|
    requires forall j :: p <= j < q ==> SeparatorAt(s, j).None?
    ensures SplitFrom(s, p, q) == SplitAfter(s, p)
    decreases |s| - q
  {
    if q == |s| {
      assert NextSeparator(s, p).None?;
    } else {
      match SeparatorAt(s, q)
      case Some(e) =>
        assert NextSeparator(s, p) == Some(q);
        SplitFromIsSplitAfter(s, e, e);
      case None =>
        SplitFromIsSplitAfter(s, p, q + 1);
    }
  }

  lemma RejoinCons(segment: string, separator: string, segments: seq<string>, separators: seq<string>)
    requires |segments| == |separators| + 1
    ensures Rejoin([segment] + segments, [separator] + separators) == segment + separator + Rejoin(segments, separators)
  {
    assert ([segment] + segments)[1..] == segments;
    assert ([separator] + separators)[1..] == separators;
  }

  lemma SliceJoin(s: string, p: nat, a: nat, e: nat)
    requires p <= a <= e <= |s|
    ensures s[p..] == s[p..a] + s[a..e] + s[e..]
  {
  }

  lemma {:induction false} SplitAfterRejoins(s: string, p: nat)
    requires p <= |s|
    ensures |SplitAfter(s, p)| == |SeparatorsAfter(s, p)| + 1
    ensures Rejoin(SplitAfter(s, p), SeparatorsAfter(s, p)) == s[p..]
    decreases |s| - p
  {
    var next := NextSeparator(s, p);
    if next.None? {
      assert SplitAfter(s, p) == [s[p..]];
      assert SeparatorsAfter(s, p) == [];
    } else {
      var a := next.value;
      var e := SeparatorAt(s, a).value;
      SplitAfterRejoins(s, e);
      assert SplitAfter(s, p) == [s[p..a]] + SplitAfter(s, e);
      assert SeparatorsAfter(s, p) == [s[a..e]] + SeparatorsAfter(s, e);
      RejoinCons(s[p..a], s[a..e], SplitAfter(s, e), SeparatorsAfter(s, e));
      SliceJoin(s, p, a, e);
    }
  }

  /**
   * The split cuts the script at the successive leftmost separator
   * matches, each one searched from the end of the previous one: every
   * segment is the text between two consecutive matches, and rejoining the
   * segments with the matched texts gives back the script.
   */
  lemma SplitRoundTrip(s: string)
    ensures Split(s) == SplitAfter(s, 0)
    ensures |Split(s)| == |SeparatorsAfter(s, 0)| + 1
    ensures Rejoin(Split(s), SeparatorsAfter(s, 0)) == s
  {
    SplitFromIsSplitAfter(s, 0, 0);
    SplitAfterRejoins(s, 0);
    assert s[0..] == s;
  }

  lemma {:induction false} SpacesInPiece(s: string, p: nat, q: nat, k: nat)
    requires p <= q <= |s| && k <= q - p
    requires k + SpacesFrom(s[p..q], k) < q - p
    ensures SpacesFrom(s, p + k) == SpacesFrom(s[p..q], k)
    decreases q - p - k
  {
    if IsSpace(s[p..q][k]) {
      SpacesInPiece(s, p, q, k + 1);
    }
  }

  /** A separator inside a piece of `s` is a separator of `s` itself. */
  lemma SeparatorInPiece(s: string, p: nat, q: nat, i: nat)
    requires p <= q <= |s| && i <= q - p
    requires SeparatorAt(s[p..q], i).Some?
    ensures SeparatorAt(s, p + i).Some?
  {
    var t := s[p..q];
    assert i + 9 < |t|;
    assert t[i] == s[p + i];
    assert t[i + 1..i + 9] == "function";
    assert forall k :: i + 1 <= k < i + 9 ==> t[k] == s[p + k];
    assert s[p + i + 1..p + i + 9] == t[i + 1..i + 9];
    SpacesInPiece(s, p, q, i + 9);
    var open := i + 9 + SpacesFrom(t, i + 9);
    assert t[open] == s[p + open];
  }

  lemma {:induction false} SplitFromPiecesFree(s: string, p: nat, q: nat)
    requires p <= q <= |s|
    requires forall j :: p <= j < q ==> SeparatorAt(s, j).None?
    ensures forall k :: 0 <= k < |SplitFrom(s, p, q)| ==> SeparatorFree(SplitFrom(s, p, q)[k])
    decreases |s| - q
  {
    var r := SplitFrom(s, p, q);
    if q == |s| {
      assert r == [s[p..]];
      forall i | 0 <= i <= |s[p..]| ensures SeparatorAt(s[p..], i).None? {
        assert s[p..] == s[p..|s|];
        if SeparatorAt(s[p..|s|], i).Some? {
          SeparatorInPiece(s, p, |s|, i);
        }
      }
    } else {
      match SeparatorAt(s, q)
      case Some(e) =>
        SplitFromPiecesFree(s, e, e);
        forall i | 0 <= i <= |s[p..q]| ensures SeparatorAt(s[p..q], i).None? {
          if SeparatorAt(s[p..q], i).Some? {
            SeparatorInPiece(s, p, q, i);
          }
        }
        assert r == [s[p..q]] + SplitFrom(s, e, e);
      case None =>
        SplitFromPiecesFree(s, p, q + 1);
    }
  }

  /** No segment produced by the split contains the separator pattern. */
  lemma SplitSegmentsAreSeparatorFree(s: string)
    ensures forall k :: 0 <= k < |Split(s)| ==> SeparatorFree(Split(s)[k])
  {
    SplitFromPiecesFree(s, 0, 0);
  }

  lemma {:induction false} SplitFromWithoutSeparator(s: string, q: nat)
    requires q <= |s|
    requires forall j :: q <= j <= |s| ==> SeparatorAt(s, j).None?
    ensures SplitFrom(s, 0, q) == [s]
    decreases |s| - q
  {
    if q < |s| {
      SplitFromWithoutSeparator(s, q + 1);
    }
  }

  /** A script without any separator is one single segment. */
  lemma SplitWithoutSeparator(s: string)
    requires SeparatorFree(s)
    ensures Split(s) == [s]
  {
    SplitFromWithoutSeparator(s, 0);
  }

  // ---------------------------------------------------------------------
  // The library parameter of a segment
  // ---------------------------------------------------------------------

  /**
   * `text.substring(text.indexOf(",") + 1, text.indexOf(")")).trim()`.
   */
  function LibParamName(segment: string): string
  {
    Trim(LibParamText(segment))
  }

  /** The untrimmed text `substring` cuts out between the first `,` and the first `)`. */
  function LibParamText(segment: string): string
  {
    Substring(segment, IndexOf(segment, ',') + 1, IndexOf(segment, ')'))
  }

  /**
   * The library name, untrimmed, is the text between the first `,` and the
   * first `)`.  `substring` clamps a missing `)` (index -1) to 0 and swaps
   * its arguments when the `)` comes first, which the last two cases spell
   * out; without a `,` the text runs from the start of the segment.
   */
  lemma LibParamTextBetween(segment: string)
    ensures var c, p := IndexOf(segment, ','), IndexOf(segment, ')');
            && (c < p ==> LibParamText(segment) == segment[c + 1..p])
            && (p == -1 ==> LibParamText(segment) == segment[..c + 1])
            && (0 <= p <= c ==> LibParamText(segment) == segment[p..c + 1])
  {
    var c, p := IndexOf(segment, ','), IndexOf(segment, ')');
    SubstringAfterComma(segment, c, p);
    if c < p {
      assert LibParamText(segment) == segment[c + 1..p];
    } else if p == -1 {
      assert LibParamText(segment) == segment[..c + 1];
    } else {
      assert LibParamText(segment) == segment[p..c + 1];
    }
  }

  /** `substring(c + 1, p)` for positions `c` and `p` that are -1 or inside the text. */
  lemma SubstringAfterComma(s: string, c: int, p: int)
    requires -1 <= c < |s| && -1 <= p < |s|
    ensures c < p ==> Substring(s, c + 1, p) == s[c + 1..p]
    ensures p == -1 ==> Substring(s, c + 1, p) == s[..c + 1]
    ensures 0 <= p <= c ==> Substring(s, c + 1, p) == s[p..c + 1]
  {
  }

  // ---------------------------------------------------------------------
  // The assignment finder: new RegExp("\\(" + lib + ".(\\w+)\\s*=", "g")
  // ---------------------------------------------------------------------

  /** One match of the assignment finder: where it starts and ends, and the captured word. */
  datatype Match = Match(start: nat, end: nat, name: string)

  /**
   * The match of `\(<lib>.(\w+)\s*=` starting at `q`, if any, for a library
   * name without syntax characters (see `LiteralPattern`), which matches
   * itself; `.` is any character but a line terminator,
   * and since `\w+` and `\s*` are greedy and neither class contains `=`,
   * the only candidate takes the longest word and the longest white space.
   */
  function MatchAt(s: string, lib: string, q: nat): (m: Option<Match>)
    requires q <= |s|
    ensures m.Some? ==> m.value.start == q && q + 4 + |lib| <= m.value.end <= |s|
    ensures m.Some? ==> m.value.name != [] && forall k :: 0 <= k < |m.value.name| ==> IsWordChar(m.value.name[k])
  {
    var dot := q + 1 + |lib|;
    if dot < |s| && s[q] == '(' && s[q + 1..dot] == lib && !IsLineTerminator(s[dot]) then
      var w := WordsFrom(s, dot + 1);
      var eq := dot + 1 + w + SpacesFrom(s, dot + 1 + w);
      if w > 0 && eq < |s| && s[eq] == '=' then Some(Match(q, eq + 1, s[dot + 1..dot + 1 + w])) else None
    else None
  }

  /**
   * `s[q..end]` is a match of `\(<lib>.(\w+)\s*=` capturing `name`, read off
   * the pattern: `(`, the library name, one character that is not a line
   * terminator, a non-empty run of word characters, white space, `=`.
   */
  predicate IsAssignment(s: string, lib: string, q: nat, end: nat, name: string)
  {
    var dot := q + 1 + |lib|;
    && dot + 2 + |name| <= end <= |s|
    && s[q] == '(' && s[q + 1..dot] == lib && !IsLineTerminator(s[dot])
    && name != [] && s[dot + 1..dot + 1 + |name|] == name
    && (forall k :: 0 <= k < |name| ==> IsWordChar(name[k]))
    && (forall j :: dot + 1 + |name| <= j < end - 1 ==> IsSpace(s[j]))
    && s[end - 1] == '='
  }

  /**
   * The scan finds exactly the matches of the pattern at `q`: a match is
   * found, with its end and its capture, whenever the text there has the
   * pattern's shape, and nothing else is found.  The capture is the whole
   * word run, since neither white space nor `=` is a word character.
   */
  lemma MatchAtMeaning(s: string, lib: string, q: nat, end: nat, name: string)
    requires q <= |s|
    ensures MatchAt(s, lib, q) == Some(Match(q, end, name)) <==> IsAssignment(s, lib, q, end, name)
  {
    if MatchAt(s, lib, q) == Some(Match(q, end, name)) {
      MatchAtSound(s, lib, q);
    }
    if IsAssignment(s, lib, q, end, name) {
      MatchAtComplete(s, lib, q, end, name);
    }
  }

  lemma MatchAtSound(s: string, lib: string, q: nat)
    requires q <= |s| && MatchAt(s, lib, q).Some?
    ensures var m := MatchAt(s, lib, q).value; IsAssignment(s, lib, q, m.end, m.name)
  {
  }

  lemma MatchAtComplete(s: string, lib: string, q: nat, end: nat, name: string)
    requires q <= |s| && IsAssignment(s, lib, q, end, name)
    ensures MatchAt(s, lib, q) == Some(Match(q, end, name))
  {
    var dot := q + 1 + |lib|;
    AssignmentRuns(s, lib, q, end, name);
    var w := WordsFrom(s, dot + 1);
    assert s[dot + 1..dot + 1 + w] == name;
  }

  lemma AssignmentRuns(s: string, lib: string, q: nat, end: nat, name: string)
    requires q <= |s| && IsAssignment(s, lib, q, end, name)
    ensures var dot := q + 1 + |lib|;
            && WordsFrom(s, dot + 1) == |name|
            && dot + 1 + |name| + SpacesFrom(s, dot + 1 + |name|) == end - 1
  {
    var dot := q + 1 + |lib|;
    var after := dot + 1 + |name|;
    assert !IsWordChar(s[after]) by {
      assert after < end - 1 ==> IsSpace(s[after]);
    }
    WordRun(s, dot + 1, name);
    SpaceRun(s, after, end - 1);
  }

  /** A whole run of word characters is what `\w+` consumes. */
  lemma WordRun(s: string, k: nat, name: string)
    requires k + |name| < |s| && s[k..k + |name|] == name && !IsWordChar(s[k + |name|])
    requires forall i :: 0 <= i < |name| ==> IsWordChar(name[i])
    ensures WordsFrom(s, k) == |name|
  {
    forall j | k <= j < k + |name| ensures IsWordChar(s[j]) {
      assert s[j] == name[j - k];
    }
  }

  /** A whole run of white space before a `=` is what `\s*` consumes. */
  lemma SpaceRun(s: string, k: nat, stop: nat)
    requires k <= stop < |s| && s[stop] == '='
    requires forall j :: k <= j < stop ==> IsSpace(s[j])
    ensures SpacesFrom(s, k) == stop - k
  {
    assert !IsSpace(s[stop]);
  }

  /** No match of the finder starts in `[a, b)`. */
  ghost predicate NoMatchIn(s: string, lib: string, a: nat, b: nat)
  {
    forall q :: a <= q < b && q <= |s| ==> MatchAt(s, lib, q).None?
  }

  /** `finder.exec(s)` with `finder.lastIndex == from`: the leftmost match starting at or after `from`. */
  function Exec(s: string, lib: string, from: nat): (m: Option<Match>)
    requires from <= |s|
    decreases |s| - from
    ensures m.Some? ==> from <= m.value.start <= |s| && MatchAt(s, lib, m.value.start) == m
    ensures m.Some? ==> NoMatchIn(s, lib, from, m.value.start)
    ensures m.None? ==> NoMatchIn(s, lib, from, |s| + 1)
  {
    var here := MatchAt(s, lib, from);
    if here.Some? then here
    else if from == |s| then None
    else
      var later := Exec(s, lib, from + 1);
      assert NoMatchIn(s, lib, from, from + 1);
      later
  }

  /**
   * Repeated `exec` of the global finder from `lastIndex == from`: each
   * match moves `lastIndex` to its end, and the first failure ends the loop.
   */
  function Matches(s: string, lib: string, from: nat): (ms: seq<Match>)
    requires from <= |s|
    decreases |s| - from
  {
    match Exec(s, lib, from)
    case None => []
    case Some(m) => [m] + Matches(s, lib, m.end)
  }

  /**
   * The matches are the successive results of `exec`: the first is the
   * leftmost match from `from`, each next one the leftmost match from the
   * end of the previous one, and after the last one `exec` fails.  With the
   * contract of `Exec`, they are the leftmost matches in order of
   * occurrence, without overlap and with no match skipped.
   */
  lemma {:induction false} MatchesAreSuccessiveExecs(s: string, lib: string, from: nat)
    requires from <= |s|
    ensures var ms := Matches(s, lib, from);
            && (ms == [] <==> Exec(s, lib, from).None?)
            && (ms != [] ==> Exec(s, lib, from) == Some(ms[0]))
            && (forall k :: 0 <= k < |ms| ==> from <= ms[k].start < ms[k].end <= |s|)
            && (forall k :: 0 <= k < |ms| - 1 ==> Exec(s, lib, ms[k].end) == Some(ms[k + 1]))
            && (ms != [] ==> Exec(s, lib, ms[|ms| - 1].end).None?)
    decreases |s| - from
  {
    var ms := Matches(s, lib, from);
    match Exec(s, lib, from)
    case None =>
      assert ms == [];
    case Some(m) =>
      var rest := Matches(s, lib, m.end);
      MatchesAreSuccessiveExecs(s, lib, m.end);
      assert ms == [m] + rest;
      if rest == [] {
        assert ms[|ms| - 1] == m;
      } else {
        assert ms[|ms| - 1] == rest[|rest| - 1];
      }
      forall k | 0 <= k < |ms| - 1
        ensures Exec(s, lib, ms[k].end) == Some(ms[k + 1])
      {
        if k > 0 {
          assert ms[k] == rest[k - 1] && ms[k + 1] == rest[k];
        }
      }
  }

  /** One step of the `exec` loop. */
  lemma MatchesUnfold(s: string, lib: string, from: nat)
    requires from <= |s|
    ensures Exec(s, lib, from).None? ==> Matches(s, lib, from) == []
    ensures Exec(s, lib, from).Some? ==>
              var m := Exec(s, lib, from).value;
              Matches(s, lib, from) == [m] + Matches(s, lib, m.end)
  {
  }

  /** The captured words of a run of matches, in order. */
  function NamesOf(ms: seq<Match>): (names: seq<string>)
    ensures |names| == |ms|
    ensures forall k :: 0 <= k < |ms| ==> names[k] == ms[k].name
  {
    if ms == [] then [] else [ms[0].name] + NamesOf(ms[1..])
  }

  lemma NamesOfCons(m: Match, rest: seq<Match>)
    ensures NamesOf([m] + rest) == [m.name] + NamesOf(rest)
  {
    assert ([m] + rest)[1..] == rest;
  }

  /** One successful `exec` moves its name from the pending names to the assigned ones. */
  lemma NamesStep(s: string, lib: string, from: nat, done: seq<string>)
    requires from <= |s| && Exec(s, lib, from).Some?
    ensures var m := Exec(s, lib, from).value;
            done + NamesOf(Matches(s, lib, from)) == (done + [m.name]) + NamesOf(Matches(s, lib, m.end))
  {
    var m := Exec(s, lib, from).value;
    MatchesUnfold(s, lib, from);
    NamesOfCons(m, Matches(s, lib, m.end));
    AppendAssociates(done, [m.name], NamesOf(Matches(s, lib, m.end)));
  }

  /** The names one initializer segment assigns on its library parameter. */
  function SegmentNames(segment: string): seq<string>
  {
    NamesOf(Matches(segment, LibParamName(segment), 0))
  }

  /** The syntax characters of a regular expression pattern: `^ $ \ . * + ? ( ) [ ] { } |`. */
  predicate IsSyntaxChar(c: char)
  {
    c in "^$\\.*+?()[]{}|"
  }

  /**
   * A library name without syntax characters: spliced into the finder's
   * pattern, each of its characters matches itself.
   */
  predicate LiteralPattern(lib: string)
  {
    forall k :: 0 <= k < |lib| ==> !IsSyntaxChar(lib[k])
  }

  /**
   * An identifier of word characters and `$` holding a `$`.  In the pattern
   * `$` asserts the end of the input, and the pattern goes on to demand at
   * least one more character, so the finder matches nothing.
   */
  predicate AnchoredIdentifier(lib: string)
  {
    && (forall k :: 0 <= k < |lib| ==> IsWordChar(lib[k]) || lib[k] == '$')
    && '$' in lib
  }

  /**
   * A name that opens a group and never closes it: a `(` outside any
   * escape or character class, and no `)`.  The rest of the finder's
   * pattern balances its own group, so `new RegExp` rejects the pattern as
   * an unterminated group.
   */
  predicate UnclosedGroup(lib: string)
  {
    '(' in lib && ')' !in lib && '\\' !in lib && '[' !in lib
  }

  /**
   * The library names for which `new RegExp` rejects the finder's pattern
   * in this model: a name starting with `)`, which closes a group that was
   * never opened, and a name with an unclosed group.
   */
  predicate RejectedPattern(lib: string)
  {
    lib != "" && (lib[0] == ')' || UnclosedGroup(lib))
  }

  /** What one segment contributes to the parse. */
  datatype SegmentStep =
    | Skip                           // an empty segment: `continue`
    | Stop                           // an empty library name: `return`
    | Throws                         // `new RegExp` rejects the pattern with a SyntaxError
    | NotModelled                    // a pattern whose semantics the model does not give
    | Assigns(names: seq<string>)    // the names the segment assigns

  /** The steps after which no later segment is scanned. */
  predicate EndsParse(step: SegmentStep)
  {
    step.Stop? || step.Throws? || step.NotModelled?
  }

  /**
   * One segment.  A `RejectedPattern` name makes `new RegExp` throw; a name
   * without syntax characters is scanned literally; an `AnchoredIdentifier`
   * finds nothing; any other name is not modelled.
   */
  function StepOf(segment: string): SegmentStep
  {
    if segment == "" then Skip
    else
      var lib := LibParamName(segment);
      if lib == "" then Stop
      else if RejectedPattern(lib) then Throws
      else if LiteralPattern(lib) then Assigns(SegmentNames(segment))
      else if AnchoredIdentifier(lib) then Assigns([])
      else NotModelled
  }

  /**
   * A segment whose first `)` comes before its first `,` (as in an inner
   * `function (mode) { ... call(this, ...`) throws: `substring` swaps its
   * arguments, so the library name starts with that `)`.
   */
  lemma ParenBeforeCommaThrows(segment: string)
    requires 0 <= IndexOf(segment, ')') < IndexOf(segment, ',')
    ensures StepOf(segment) == Throws
  {
    ParenFirstName(segment);
    ThrowsExactlyWhenRejected(segment);
  }

  /**
   * The segment the split cuts at an inner one-parameter function whose
   * body opens with a call taking `this` first (the shape every nested
   * clip of a generated library has) throws, whatever follows.
   */
  lemma InnerFunctionSegmentThrows(segment: string)
    requires |segment| >= 36 && segment[..36] == "mode) {\n        MovieClip.call(this,"
    ensures StepOf(segment) == Throws
  {
    var head := segment[..36];
    assert segment[4] == head[4] == ')';
    assert segment[..4] == head[..4] && ')' !in head[..4];
    assert segment[35] == head[35] == ',';
    assert segment[..35] == head[..35] && ',' !in head[..35];
    ParenBeforeCommaThrows(segment);
  }

  lemma ParenFirstName(segment: string)
    requires 0 <= IndexOf(segment, ')') < IndexOf(segment, ',')
    ensures LibParamName(segment) != "" && LibParamName(segment)[0] == ')'
  {
    var c, p := IndexOf(segment, ','), IndexOf(segment, ')');
    LibParamTextBetween(segment);
    var t := segment[p..c + 1];
    assert t[0] == ')' && !IsSpace(t[0]);
    assert LeadingSpaces(t) == 0;
    TrimKeepsMiddle(t);
  }

  /**
   * The library name the scan evidently means: the trimmed text between
   * the first `,` and the first `)`, when the parameter list (the text up
   * to the first `)`) holds a `,`; a segment whose parameter list has no
   * `,` has no library parameter.
   */
  function IntendedLibParamName(segment: string): Option<string>
  {
    var c, p := IndexOf(segment, ','), IndexOf(segment, ')');
    if 0 <= c < p then Some(Trim(segment[c + 1..p])) else None
  }

  /**
   * The intended name lies inside the parameter list, so it holds no `)`
   * and the swap's throw cannot happen: the segment throws only when the
   * parameter text itself opens a group it never closes.  The name agrees
   * with the name as written whenever the parameter list holds a `,`, and
   * only segments without a second parameter are set aside.
   */
  lemma IntendedLibNameInParameters(segment: string)
    ensures var c, p := IndexOf(segment, ','), IndexOf(segment, ')');
            IntendedLibParamName(segment).Some? <==> 0 <= c < p
    ensures IntendedLibParamName(segment).Some? ==>
              && IntendedLibParamName(segment).value == LibParamName(segment)
              && ')' !in IntendedLibParamName(segment).value
              && (StepOf(segment) == Throws ==> UnclosedGroup(IntendedLibParamName(segment).value))
  {
    var c, p := IndexOf(segment, ','), IndexOf(segment, ')');
    if 0 <= c < p {
      ParameterListName(segment);
      var r := LibParamName(segment);
      assert IntendedLibParamName(segment) == Some(r);
      assert r == [] || r[0] != ')';
      ThrowsExactlyWhenRejected(segment);
    } else {
      assert IntendedLibParamName(segment) == None;
    }
  }

  /** With a `,` inside the parameter list, the name is the trimmed text between them, free of `)`. */
  lemma ParameterListName(segment: string)
    requires 0 <= IndexOf(segment, ',') < IndexOf(segment, ')')
    ensures var c, p := IndexOf(segment, ','), IndexOf(segment, ')');
            && LibParamName(segment) == Trim(segment[c + 1..p])
            && ')' !in LibParamName(segment)
  {
    var c, p := IndexOf(segment, ','), IndexOf(segment, ')');
    LibParamTextBetween(segment);
    var t := segment[c + 1..p];
    assert LibParamText(segment) == t;
    AbsentFromSlice(segment, ')', c + 1, p);
    AbsentAfterTrim(t, ')');
  }

  /** A character absent from a prefix is absent from every slice of it. */
  lemma AbsentFromSlice(s: string, ch: char, i: nat, j: nat)
    requires i <= j <= |s| && ch !in s[..j]
    ensures ch !in s[i..j]
  {
    forall k | i <= k < j ensures s[k] != ch {
      assert s[k] == s[..j][k];
    }
  }

  /** A segment throws exactly when its library name is a rejected pattern. */
  lemma ThrowsExactlyWhenRejected(segment: string)
    ensures StepOf(segment) == Throws <==> segment != "" && RejectedPattern(LibParamName(segment))
  {
    if segment == "" {
      assert StepOf(segment) == Skip;
    } else {
      var lib := LibParamName(segment);
      if lib == "" {
        assert StepOf(segment) == Stop;
      } else if RejectedPattern(lib) {
        assert StepOf(segment) == Throws;
      } else if LiteralPattern(lib) || AnchoredIdentifier(lib) {
        assert StepOf(segment).Assigns?;
      } else {
        assert StepOf(segment) == NotModelled;
      }
    }
  }

  /**
   * A library name that does not start with `)` holds no `)` at all: it is
   * cut before the first `)` of the segment, or from a segment without one.
   * So every `(` it holds opens a group the name never closes.
   */
  lemma NameWithoutLeadingParenHasNone(segment: string)
    requires LibParamName(segment) != "" && LibParamName(segment)[0] != ')'
    ensures ')' !in LibParamName(segment)
  {
    var c, p := IndexOf(segment, ','), IndexOf(segment, ')');
    if 0 <= p < c {
      ParenFirstName(segment);
      assert false;
    } else if p == -1 {
      NoParenName(segment);
    } else {
      InOrderName(segment);
    }
  }

  /** Without a `)`, the segment's name holds none. */
  lemma NoParenName(segment: string)
    requires IndexOf(segment, ')') == -1
    ensures ')' !in LibParamName(segment)
  {
    var c := IndexOf(segment, ',');
    LibParamTextBetween(segment);
    var t := segment[..c + 1];
    assert LibParamText(segment) == t;
    AbsentFromSlice(segment, ')', 0, c + 1);
    AbsentAfterTrim(t, ')');
  }

  /** A name cut out before the first `)` holds none. */
  lemma InOrderName(segment: string)
    requires IndexOf(segment, ',') < IndexOf(segment, ')')
    ensures ')' !in LibParamName(segment)
  {
    var c, p := IndexOf(segment, ','), IndexOf(segment, ')');
    LibParamTextBetween(segment);
    var t := segment[c + 1..p];
    assert LibParamText(segment) == t;
    AbsentFromSlice(segment, ')', c + 1, p);
    AbsentAfterTrim(t, ')');
  }

  /**
   * A parameter text holding a bare `(` throws, as the text between `,`
   * and `)` of `x, f(y) {` does: the name `f(y` leaves its group open.
   */
  lemma OpenGroupInParametersThrows(segment: string)
    requires 0 <= IndexOf(segment, ',') < IndexOf(segment, ')')
    requires var lib := LibParamName(segment); '(' in lib && '\\' !in lib && '[' !in lib
    ensures StepOf(segment) == Throws
  {
    ParameterListName(segment);
    ThrowsExactlyWhenRejected(segment);
  }

  /** A character absent from a text is absent from its trimmed text. */
  lemma AbsentAfterTrim(t: string, ch: char)
    requires ch !in t
    ensures ch !in Trim(t)
  {
    TrimKeepsMiddle(t);
    var n, r := LeadingSpaces(t), Trim(t);
    forall k | 0 <= k < |r| ensures r[k] != ch {
      assert r[k] == t[n + k];
    }
  }

  /** The step of every segment, in order. */
  function StepsOf(segments: seq<string>): seq<SegmentStep>
  {
    seq(|segments|, k requires 0 <= k < |segments| => StepOf(segments[k]))
  }

  /** The names collected from the segments' steps, in order, up to the first step that ends the parse. */
  function Collect(steps: seq<SegmentStep>): seq<string>
  {
    if steps == [] then []
    else
      match steps[0]
      case Skip => Collect(steps[1..])
      case Assigns(names) => names + Collect(steps[1..])
      case _ => []
  }

  /**
   * How a parse ends: it runs to completion (through all segments, or by
   * the `return`), it throws the SyntaxError of `new RegExp`, or it reaches
   * a library name whose pattern the model does not give.
   */
  datatype ParseOutcome = Completed | SyntaxError | Unmodelled

  /** The outcome of a step that ends the parse. */
  function EndOf(step: SegmentStep): ParseOutcome
    requires EndsParse(step)
  {
    match step
    case Stop => Completed
    case Throws => SyntaxError
    case NotModelled => Unmodelled
  }

  /** The outcome of the parse: decided by its first step that ends it. */
  function OutcomeOf(steps: seq<SegmentStep>): ParseOutcome
  {
    if steps == [] then Completed
    else if EndsParse(steps[0]) then EndOf(steps[0])
    else OutcomeOf(steps[1..])
  }

  /** The names `parseSymbols` records from a whole script before it ends, however it ends. */
  function ScriptNames(text: string): seq<string>
  {
    Collect(StepsOf(Split(text)))
  }

  /** How `parseSymbols` ends on a whole script. */
  function ScriptOutcome(text: string): ParseOutcome
  {
    OutcomeOf(StepsOf(Split(text)))
  }

  /** An empty segment contributes nothing and does not stop the parse. */
  lemma {:induction false} EmptySegmentIsSkipped(before: seq<SegmentStep>, after: seq<SegmentStep>)
    ensures StepOf("") == Skip
    ensures Collect(before + [Skip] + after) == Collect(before + after)
  {
    if before == [] {
      assert before + [Skip] + after == [Skip] + after;
      assert before + after == after;
      assert ([Skip] + after)[1..] == after;
    } else {
      EmptySegmentIsSkipped(before[1..], after);
      assert (before + [Skip] + after)[1..] == before[1..] + [Skip] + after;
      assert (before + after)[1..] == before[1..] + after;
    }
  }

  /**
   * A step that ends the parse (an empty library name, a throwing or an
   * unmodelled pattern) keeps every later segment from adding a name, and
   * when it is the first such step it decides the outcome.
   */
  lemma {:induction false} ParseEndsAt(steps: seq<SegmentStep>, i: nat)
    requires i < |steps| && EndsParse(steps[i])
    ensures Collect(steps) == Collect(steps[..i])
    ensures (forall j :: 0 <= j < i ==> !EndsParse(steps[j])) ==> OutcomeOf(steps) == EndOf(steps[i])
  {
    if i == 0 {
      assert steps[..0] == [];
    } else if !EndsParse(steps[0]) {
      ParseEndsAt(steps[1..], i - 1);
      assert steps[..i][0] == steps[0];
      assert steps[..i][1..] == steps[1..][..i - 1];
      assert forall j :: 0 <= j < i - 1 ==> steps[1..][j] == steps[j + 1];
    } else {
      assert steps[..i][0] == steps[0];
    }
  }

  /** Concatenating runs of names associates, and appending no names changes nothing. */
  lemma AppendAssociates(a: seq<string>, b: seq<string>, c: seq<string>)
    ensures (a + b) + c == a + (b + c)
    ensures a + [] == a
  {
  }

  /** The names a step contributes when the parse goes on past it. */
  function StepNames(step: SegmentStep): seq<string>
  {
    if step.Assigns? then step.names else []
  }

  lemma CollectUnfold(steps: seq<SegmentStep>, i: nat)
    requires i < |steps|
    ensures EndsParse(steps[i]) ==> Collect(steps[i..]) == [] && OutcomeOf(steps[i..]) == EndOf(steps[i])
    ensures !EndsParse(steps[i]) ==>
              && Collect(steps[i..]) == StepNames(steps[i]) + Collect(steps[i + 1..])
              && OutcomeOf(steps[i..]) == OutcomeOf(steps[i + 1..])
  {
    assert steps[i..][0] == steps[i];
    assert steps[i..][1..] == steps[i + 1..];
    assert [] + Collect(steps[i + 1..]) == Collect(steps[i + 1..]);
  }
}
