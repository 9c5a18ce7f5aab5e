/**
 * The JavaScript string primitives the workflow relies on: `trim`,
 * `toLowerCase`, `includes`, `indexOf`, `split`, `join` and the first-match
 * `replace` with a string pattern.
 */
module Text {
  import opened Wrappers

  // ---------------------------------------------------------------------------
  // trim
  // ---------------------------------------------------------------------------

  /** The ECMAScript WhiteSpace and LineTerminator code points, which `trim` strips. */
  predicate IsWhitespace(c: char) {
    || c == '\t' || c == '\n' || c == '\U{000B}' || c == '\U{000C}' || c == '\r'
    || c == ' ' || c == '\U{00A0}' || c == '\U{1680}'
    || ('\U{2000}' <= c <= '\U{200A}')
    || c == '\U{2028}' || c == '\U{2029}' || c == '\U{202F}' || c == '\U{205F}'
    || c == '\U{3000}' || c == '\U{FEFF}'
  }

  predicate AllWhitespace(s: string) {
    forall i | 0 <= i < |s| :: IsWhitespace(s[i])
  }

  /** Neither end of `s` is whitespace. */
  predicate IsTrimmed(s: string) {
    |s| == 0 || (!IsWhitespace(s[0]) && !IsWhitespace(s[|s| - 1]))
  }

  /** The first index at or after `k` that does not hold whitespace, or `|s|`. */
  function SkipLeading(s: string, k: nat): (n: nat)
    requires k <= |s|
    ensures k <= n <= |s|
    ensures forall i | k <= i < n :: IsWhitespace(s[i])
    ensures n == |s| || !IsWhitespace(s[n])
    decreases |s| - k
  {
    if k < |s| && IsWhitespace(s[k]) then SkipLeading(s, k + 1) else k
  }

  /** The end of `s[lo..e]` once its trailing whitespace is dropped. */
  function SkipTrailing(s: string, lo: nat, e: nat): (n: nat)
    requires lo <= e <= |s|
    ensures lo <= n <= e
    ensures forall i | n <= i < e :: IsWhitespace(s[i])
    ensures n == lo || !IsWhitespace(s[n - 1])
    decreases e
  {
    if lo < e && IsWhitespace(s[e - 1]) then SkipTrailing(s, lo, e - 1) else e
  }

  /** `r` is `s` with some whitespace removed from either end. */
  ghost predicate StripsTo(s: string, r: string) {
    exists a | 0 <= a <= |s| - |r| ::
      s[a..a + |r|] == r && AllWhitespace(s[..a]) && AllWhitespace(s[a + |r|..])
  }

  /** `s.trim()`: `s` with every leading and trailing whitespace code point removed. */
  function Trim(s: string): (r: string)
    ensures IsTrimmed(r) && |r| <= |s|
  {
    var a := SkipLeading(s, 0);
    s[a..SkipTrailing(s, a, |s|)]
  }

  /** What `trim` removes is whitespace at the two ends, and only that. */
  lemma TrimStrips(s: string)
    ensures StripsTo(s, Trim(s))
  {
    var a := SkipLeading(s, 0);
    var b := SkipTrailing(s, a, |s|);
    assert s[a..a + |Trim(s)|] == Trim(s);
    assert AllWhitespace(s[..a]) by {
      forall i | 0 <= i < a ensures IsWhitespace(s[..a][i]) { assert s[..a][i] == s[i]; }
    }
    assert AllWhitespace(s[b..]) by {
      forall i | 0 <= i < |s| - b ensures IsWhitespace(s[b..][i]) { assert s[b..][i] == s[b + i]; }
    }
  }

  lemma TrimOfTrimmed(s: string)
    requires IsTrimmed(s)
    ensures Trim(s) == s
  {
    assert SkipLeading(s, 0) == 0;
    assert SkipTrailing(s, 0, |s|) == |s|;
  }

  /** Trimming twice is trimming once. */
  lemma TrimIdempotent(s: string)
    ensures Trim(Trim(s)) == Trim(s)
  {
    TrimOfTrimmed(Trim(s));
  }

  /** `s.trim()` is falsy exactly when `s` is all whitespace. */
  lemma TrimEmptyIff(s: string)
    ensures Trim(s) == "" <==> AllWhitespace(s)
  {
    var a := SkipLeading(s, 0);
    var b := SkipTrailing(s, a, |s|);
    if Trim(s) == "" {
      assert a == b;
    } else {
      assert !IsWhitespace(s[a]);
    }
  }

  // ---------------------------------------------------------------------------
  // toLowerCase
  // ---------------------------------------------------------------------------

  /**
   * The one-to-one case mappings of `toLowerCase` for `A`-`Z`, the Latin-1
   * capitals (U+00C0-U+00DE without U+00D7), the basic Cyrillic capitals
   * (U+0400-U+042F) and U+212A KELVIN SIGN, which lowercases to `k`; every
   * other character is kept. The only other mapping onto an ASCII letter is
   * U+0130, which lowercases to two characters; the remaining capitals
   * (Latin Extended, Greek with its final-sigma rule, and beyond) are not
   * modelled.
   */
  function LowerChar(c: char): char {
    if 'A' <= c <= 'Z' then (c as int + 32) as char
    else if '\U{00C0}' <= c <= '\U{00DE}' && c != '\U{00D7}' then (c as int + 32) as char
    else if '\U{0400}' <= c <= '\U{040F}' then (c as int + 80) as char
    else if '\U{0410}' <= c <= '\U{042F}' then (c as int + 32) as char
    else if c == '\U{212A}' then 'k'
    else c
  }

  /** Only ASCII letters and U+212A lowercase to an ASCII letter, so lowercasing never turns other text into an ASCII word. */
  lemma LowerCharOntoAscii(c: char)
    requires 'a' <= LowerChar(c) <= 'z'
    ensures 'A' <= c <= 'Z' || 'a' <= c <= 'z' || c == '\U{212A}'
  {
  }

  /** "É" lowercases to "é", as `toLowerCase` does. */
  lemma LowerExampleLatin1()
    ensures ToLower("\U{00C9}") == "\U{00E9}"
  {
  }

  function ToLower(s: string): (r: string)
    ensures |r| == |s|
    ensures forall i | 0 <= i < |s| :: r[i] == LowerChar(s[i])
  {
    seq(|s|, i requires 0 <= i < |s| => LowerChar(s[i]))
  }

  // ---------------------------------------------------------------------------
  // indexOf / includes
  // ---------------------------------------------------------------------------

  /** `pat` occurs in `s` starting at index `i`. */
  predicate OccursAt(s: string, pat: string, i: int) {
    0 <= i && i + |pat| <= |s| && s[i..i + |pat|] == pat
  }

  /** `s.includes(pat)`. */
  predicate Contains(s: string, pat: string) {
    exists i | 0 <= i <= |s| :: OccursAt(s, pat, i)
  }

  /** `s.indexOf(pat, k)`, with `None` for `-1`. */
  function IndexOfFrom(s: string, pat: string, k: nat): (r: Option<nat>)
    ensures r.Some? ==> k <= r.value && OccursAt(s, pat, r.value)
    ensures r.Some? ==> forall j | k <= j < r.value :: !OccursAt(s, pat, j)
    ensures r.None? ==> forall j | k <= j :: !OccursAt(s, pat, j)
    decreases |s| - k
  {
    if k + |pat| > |s| then None
    else if s[k..k + |pat|] == pat then Some(k)
    else IndexOfFrom(s, pat, k + 1)
  }

  /** `s.indexOf(pat)`: the first occurrence, or `None` when there is none. */
  function IndexOf(s: string, pat: string): (r: Option<nat>)
    ensures r.Some? <==> Contains(s, pat)
    ensures r.Some? ==> OccursAt(s, pat, r.value)
    ensures r.Some? ==> forall j | 0 <= j < r.value :: !OccursAt(s, pat, j)
  {
    IndexOfFrom(s, pat, 0)
  }

  /** An occurrence inside a prefix is an occurrence in the whole string. */
  lemma OccursInPrefix(s: string, pat: string, n: nat, j: int)
    requires n <= |s| && OccursAt(s[..n], pat, j)
    ensures OccursAt(s, pat, j)
  {
    assert s[..n][j..j + |pat|] == s[j..j + |pat|];
  }

  // ---------------------------------------------------------------------------
  // split / join
  // ---------------------------------------------------------------------------

  /** `parts.join(sep)`. */
  function Join(parts: seq<string>, sep: string): string {
    if |parts| == 0 then ""
    else if |parts| == 1 then parts[0]
    else parts[0] + sep + Join(parts[1..], sep)
  }

  /**
   * `s.split(sep)` for a non-empty separator: the pieces between
   * non-overlapping occurrences, scanned left to right. Joining the pieces
   * back with `sep` gives `s`, and no piece contains `sep`. Every cut is at
   * the first occurrence: no occurrence starts inside a piece that a
   * separator follows, which fixes the pieces when `sep` overlaps itself.
   */
  function Split(s: string, sep: string): (parts: seq<string>)
    requires |sep| > 0
    ensures |parts| >= 1
    ensures Join(parts, sep) == s
    ensures forall k | 0 <= k < |parts| :: !Contains(parts[k], sep)
    ensures forall k | 0 <= k < |parts| - 1 :: !Contains(parts[k] + sep[..|sep| - 1], sep)
    decreases |s|
  {
    match IndexOf(s, sep)
    case None => [s]
    case Some(i) =>
      var head := s[..i];
      var rest := Split(s[i + |sep|..], sep);
      assert !Contains(head, sep) by {
        forall j | OccursAt(head, sep, j) ensures false {
          OccursInPrefix(s, sep, i, j);
        }
      }
      assert !Contains(head + sep[..|sep| - 1], sep) by {
        var n := i + |sep| - 1;
        var prefix := s[..n];
        assert head + sep[..|sep| - 1] == prefix;
        forall j | OccursAt(prefix, sep, j) ensures false {
          OccursInPrefix(s, sep, n, j);
        }
      }
      assert s == head + sep + s[i + |sep|..] by {
        assert s[i..i + |sep|] == sep;
        assert s == s[..i] + s[i..i + |sep|] + s[i + |sep|..];
      }
      [head] + rest
  }

  /** With an overlapping separator the cut is at the first occurrence: "\n\n\n" splits on "\n\n" into "" and "\n". */
  lemma SplitOverlapping()
    ensures Split("\n\n\n", "\n\n") == ["", "\n"]
  {
    var parts := Split("\n\n\n", "\n\n");
    assert OccursAt("\n\n\n", "\n\n", 0);
    assert !Contains("\n", "\n\n");
    assert parts == [""] + Split("\n", "\n\n");
  }

  /** Splitting a join of separator-free parts on a one-character separator gives the parts back. */
  lemma {:induction false} SplitJoin(parts: seq<string>, sep: string)
    requires |sep| == 1 && |parts| >= 1
    requires forall k | 0 <= k < |parts| :: sep[0] !in parts[k]
    ensures Split(Join(parts, sep), sep) == parts
    decreases |parts|
  {
    var s := Join(parts, sep);
    if |parts| == 1 {
      assert s == parts[0];
    } else {
      var p := parts[0];
      var tail := Join(parts[1..], sep);
      assert s == p + sep + tail;
      assert OccursAt(s, sep, |p|) by {
        assert s[|p|..|p| + 1] == sep;
      }
      forall j | 0 <= j < |p| ensures !OccursAt(s, sep, j) {
        assert s[j] == p[j];
      }
      assert IndexOf(s, sep) == Some(|p|);
      assert s[..|p|] == p;
      assert s[|p| + 1..] == tail;
      SplitJoin(parts[1..], sep);
    }
  }

  // ---------------------------------------------------------------------------
  // split-trim-filter
  // ---------------------------------------------------------------------------

  /**
   * The trimmed pieces that are not blank, in their original order: both
   * `pieces.filter(p => p.trim()).map(p => p.trim())` and
   * `pieces.map(p => p.trim()).filter(Boolean)` compute this.
   */
  function TrimmedNonBlank(pieces: seq<string>): (r: seq<string>)
    ensures |r| <= |pieces|
    ensures forall k | 0 <= k < |r| :: r[k] != "" && IsTrimmed(r[k])
  {
    if |pieces| == 0 then []
    else
      var t := Trim(pieces[0]);
      (if t == "" then [] else [t]) + TrimmedNonBlank(pieces[1..])
  }

  /** Filtering distributes over concatenation, so the pieces keep their order. */
  lemma {:induction false} TrimmedNonBlankAppend(a: seq<string>, b: seq<string>)
    ensures TrimmedNonBlank(a + b) == TrimmedNonBlank(a) + TrimmedNonBlank(b)
    decreases |a|
  {
    if |a| == 0 {
      assert a + b == b;
    } else {
      assert (a + b)[1..] == a[1..] + b;
      TrimmedNonBlankAppend(a[1..], b);
    }
  }

  /** No piece is lost: every non-blank piece's trimmed form is kept, and nothing else is. */
  lemma {:induction false} TrimmedNonBlankMembers(pieces: seq<string>, t: string)
    ensures t in TrimmedNonBlank(pieces) <==> t != "" && exists p | p in pieces :: Trim(p) == t
    decreases |pieces|
  {
    if |pieces| > 0 {
      TrimmedNonBlankMembers(pieces[1..], t);
      assert pieces == [pieces[0]] + pieces[1..];
      if exists p | p in pieces :: Trim(p) == t {
        var p :| p in pieces && Trim(p) == t;
        if p != pieces[0] { assert p in pieces[1..]; }
      }
    }
  }

  /** Trimmed, non-blank pieces pass through unchanged. */
  lemma {:induction false} TrimmedNonBlankOfClean(pieces: seq<string>)
    requires forall k | 0 <= k < |pieces| :: pieces[k] != "" && IsTrimmed(pieces[k])
    ensures TrimmedNonBlank(pieces) == pieces
    decreases |pieces|
  {
    if |pieces| > 0 {
      var p, rest := pieces[0], pieces[1..];
      assert pieces == [p] + rest;
      CleanHeadKept(p, rest);
      TrimmedNonBlankOfClean(rest);
    }
  }

  lemma CleanHeadKept(p: string, rest: seq<string>)
    requires p != "" && IsTrimmed(p)
    ensures TrimmedNonBlank([p] + rest) == [p] + TrimmedNonBlank(rest)
  {
    TrimOfTrimmed(p);
    assert ([p] + rest)[1..] == rest;
  }

  // ---------------------------------------------------------------------------
  // replace (first occurrence, string pattern)
  // ---------------------------------------------------------------------------

  /** The first occurrence of `pat` replaced by `rep`, inserted verbatim. */
  function ReplaceFirst(s: string, pat: string, rep: string): (r: string)
  {
    match IndexOf(s, pat)
    case None => s
    case Some(i) => s[..i] + rep + s[i + |pat|..]
  }

  /**
   * Only the first occurrence is replaced: what precedes it is kept, `rep`
   * follows, and every later occurrence of `pat` survives, shifted by the
   * change in length.
   */
  lemma ReplaceFirstOnlyFirst(s: string, pat: string, rep: string, j: int)
    requires |pat| > 0 && IndexOf(s, pat).Some?
    requires j >= IndexOf(s, pat).value + |pat| && OccursAt(s, pat, j)
    ensures OccursAt(ReplaceFirst(s, pat, rep), pat, j - |pat| + |rep|)
  {
    var i := IndexOf(s, pat).value;
    var r := ReplaceFirst(s, pat, rep);
    var k := j - |pat| + |rep|;
    assert r == s[..i] + rep + s[i + |pat|..];
    assert r[k..k + |pat|] == s[i + |pat|..][j - i - |pat|..j - i];
  }

  /** Without an occurrence nothing changes. */
  lemma ReplaceFirstAbsent(s: string, pat: string, rep: string)
    requires !Contains(s, pat)
    ensures ReplaceFirst(s, pat, rep) == s
  {
  }

  /**
   * ECMAScript GetSubstitution for a string pattern (no capture groups):
   * `$$` is `$`, `$&` the matched text, `` $` `` the text before the match,
   * `$'` the text after it; any other `$` stands for itself.
   */
  function Substitute(rep: string, matched: string, before: string, after: string): (r: string)
    ensures '$' !in rep ==> r == rep
  {
    if |rep| == 0 then ""
    else if rep[0] == '$' && |rep| >= 2 && rep[1] == '$' then "$" + Substitute(rep[2..], matched, before, after)
    else if rep[0] == '$' && |rep| >= 2 && rep[1] == '&' then matched + Substitute(rep[2..], matched, before, after)
    else if rep[0] == '$' && |rep| >= 2 && rep[1] == '`' then before + Substitute(rep[2..], matched, before, after)
    else if rep[0] == '$' && |rep| >= 2 && rep[1] == '\'' then after + Substitute(rep[2..], matched, before, after)
    else [rep[0]] + Substitute(rep[1..], matched, before, after)
  }

  /** `s.replace(pat, rep)` as ECMAScript defines it: the replacement string is expanded by `Substitute`. */
  function JsReplaceFirst(s: string, pat: string, rep: string): (r: string)
  {
    match IndexOf(s, pat)
    case None => s
    case Some(i) =>
      s[..i] + Substitute(rep, pat, s[..i], s[i + |pat|..]) + s[i + |pat|..]
  }

  /** When `pat` cannot start inside `h`, the first occurrence in `h + pat + t` is right after `h`. */
  lemma FirstOccurrenceAfter(h: string, pat: string, t: string)
    requires |pat| > 0 && pat[0] !in h
    ensures IndexOf(h + pat + t, pat) == Some(|h|)
    ensures (h + pat + t)[..|h|] == h && (h + pat + t)[|h| + |pat|..] == t
  {
    var s := h + pat + t;
    assert s[|h|..|h| + |pat|] == pat;
    forall j | 0 <= j < |h| ensures !OccursAt(s, pat, j) {
      assert s[j] == h[j];
    }
    assert OccursAt(s, pat, |h|);
    var k := IndexOf(s, pat).value;
    assert !(k < |h|) && !(|h| < k);
  }

  /** The two replacements agree on every replacement text without a `$`. */
  lemma JsReplaceAgreesWithoutDollar(s: string, pat: string, rep: string)
    requires '$' !in rep
    ensures JsReplaceFirst(s, pat, rep) == ReplaceFirst(s, pat, rep)
  {
  }
}
