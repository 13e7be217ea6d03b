/**
 * The text rules of services/diary-coordinator.ts: the diary title taken from
 * the first Markdown heading (`/^#\s+(.+)$/m`), the Notion tags taken from
 * hashtags (`/(?<!\S)#([a-zA-Z0-9-_]+)/g`), and the summary sent to Telegram
 * (the second `\n\n`-separated block, cut to 200 characters).
 *
 * The two regular expressions are written out as the matching JavaScript
 * performs: leftmost match first, greedy quantifiers that give characters
 * back when the rest of the pattern needs them, `^` and `$` at line
 * boundaries under the `m` flag, `.` stopping at line terminators, and `\s`
 * matching line terminators too.
 */
module DiaryText {
  import opened Common

  // ------------------------------------------------------------------ title

  /** `^` under the `m` flag: the start of the text or just after a line terminator. */
  predicate LineStart(s: string, p: nat)
    requires p <= |s|
  {
    p == 0 || IsLineTerminator(s[p - 1])
  }

  /** The regular expression matches at line start `p` with `\s+` covering
      `s[p + 1..q]`, the capture `(.+)` being `s[q..e]`, and `$` at `e`. */
  ghost predicate HeadingMatch(s: string, p: nat, q: nat, e: nat) {
    && p < |s| && LineStart(s, p) && s[p] == '#'
    && p + 1 < q < e <= |s|
    && (forall i :: p < i < q ==> IsWhitespace(s[i]))
    && (forall i :: q <= i < e ==> !IsLineTerminator(s[i]))
    && (e == |s| || IsLineTerminator(s[e]))
  }

  /** The match the engine reports at `p`: `\s+` as long as the rest of the pattern allows. */
  ghost predicate GreedyMatch(s: string, p: nat, q: nat, e: nat) {
    HeadingMatch(s, p, q, e) && forall q': nat, e': nat :: HeadingMatch(s, p, q', e') ==> q' <= q
  }

  /** How many characters from `i` on are whitespace (what a greedy `\s+` first takes). */
  function WhitespaceRun(s: string, i: nat): (k: nat)
    requires i <= |s|
    ensures i + k <= |s|
    ensures i + k == |s| || !IsWhitespace(s[i + k])
    decreases |s| - i
  {
    if i < |s| && IsWhitespace(s[i]) then 1 + WhitespaceRun(s, i + 1) else 0
  }

  /** Every character of the run is whitespace. */
  lemma {:induction false} WhitespaceRunCovers(s: string, i: nat)
    requires i <= |s|
    ensures forall j :: i <= j < i + WhitespaceRun(s, i) ==> IsWhitespace(s[j])
    decreases |s| - i
  {
    if i < |s| && IsWhitespace(s[i]) {
      WhitespaceRunCovers(s, i + 1);
    }
  }

  /** How many characters from `i` on come before the next line terminator or the end. */
  function LineLength(s: string, i: nat): (k: nat)
    requires i <= |s|
    ensures i + k <= |s|
    ensures i + k == |s| || IsLineTerminator(s[i + k])
    ensures i < |s| && !IsLineTerminator(s[i]) ==> k >= 1
    decreases |s| - i
  {
    if i < |s| && !IsLineTerminator(s[i]) then 1 + LineLength(s, i + 1) else 0
  }

  /** None of those characters is a line terminator. */
  lemma {:induction false} LineLengthCovers(s: string, i: nat)
    requires i <= |s|
    ensures forall j :: i <= j < i + LineLength(s, i) ==> !IsLineTerminator(s[j])
    decreases |s| - i
  {
    if i < |s| && !IsLineTerminator(s[i]) {
      LineLengthCovers(s, i + 1);
    }
  }

  /** What a greedy `.+` followed by `$` takes from `i`: everything up to the next line terminator. */
  function RestOfLine(s: string, i: nat): string
    requires i <= |s|
  {
    s[i..i + LineLength(s, i)]
  }

  /** The number of characters `\s+` keeps after backtracking from `j`: the
      largest `n` in 1..j after which a character other than a line
      terminator follows, so that `.+` can match. */
  function Backtrack(s: string, base: nat, j: nat): (r: Option<nat>)
    requires base + j <= |s|
    ensures r.Some? ==> r.value <= j
    decreases j
  {
    if j == 0 then None
    else if base + j < |s| && !IsLineTerminator(s[base + j]) then Some(j)
    else Backtrack(s, base, j - 1)
  }

  /** A kept prefix is non-empty and followed by a character other than a line terminator. */
  lemma {:induction false} BacktrackKeeps(s: string, base: nat, j: nat)
    requires base + j <= |s|
    ensures var r := Backtrack(s, base, j);
      r.Some? ==> 1 <= r.value && base + r.value < |s| && !IsLineTerminator(s[base + r.value])
    decreases j
  {
    if j > 0 && !(base + j < |s| && !IsLineTerminator(s[base + j])) {
      BacktrackKeeps(s, base, j - 1);
    }
  }

  /** The positions given back (all of them when backtracking fails) hold line terminators. */
  lemma {:induction false} BacktrackSkipsTerminators(s: string, base: nat, j: nat)
    requires base + j <= |s|
    ensures var r := Backtrack(s, base, j);
      && (r.Some? ==> forall i :: base + r.value < i <= base + j && i < |s| ==> IsLineTerminator(s[i]))
      && (r.None? ==> forall i :: base < i <= base + j && i < |s| ==> IsLineTerminator(s[i]))
    decreases j
  {
    if j > 0 && !(base + j < |s| && !IsLineTerminator(s[base + j])) {
      BacktrackSkipsTerminators(s, base, j - 1);
    }
  }

  /** Any match at `p` has its `\s+` within the whitespace run and its capture starting on a non-terminator. */
  lemma MatchWithinRun(s: string, p: nat, q: nat, e: nat)
    requires HeadingMatch(s, p, q, e)
    ensures q <= p + 1 + WhitespaceRun(s, p + 1)
    ensures !IsLineTerminator(s[q])
  {
  }

  /** A match ends where its line ends: the capture is the rest of that line. */
  lemma MatchEndsAtLineEnd(s: string, p: nat, q: nat, e: nat)
    requires HeadingMatch(s, p, q, e)
    ensures e == q + LineLength(s, q)
    ensures s[q..e] == RestOfLine(s, q)
  {
    LineLengthCovers(s, q);
  }

  /** The attempt the engine makes at `p` succeeds with the longest `\s+`. */
  lemma BacktrackIsGreedy(s: string, p: nat, n: nat)
    requires p < |s| && LineStart(s, p) && s[p] == '#'
    requires Backtrack(s, p + 1, WhitespaceRun(s, p + 1)) == Some(n)
    ensures GreedyMatch(s, p, p + 1 + n, p + 1 + n + LineLength(s, p + 1 + n))
  {
    BacktrackKeeps(s, p + 1, WhitespaceRun(s, p + 1));
    HeadingAfterRun(s, p, n);
    BacktrackIsLongest(s, p, n);
  }

  /** A `#` at a line start followed by `n` characters of its whitespace run
      and then a character of the line is a match. */
  lemma HeadingAfterRun(s: string, p: nat, n: nat)
    requires p < |s| && LineStart(s, p) && s[p] == '#'
    requires 1 <= n <= WhitespaceRun(s, p + 1)
    requires p + 1 + n < |s| && !IsLineTerminator(s[p + 1 + n])
    ensures HeadingMatch(s, p, p + 1 + n, p + 1 + n + LineLength(s, p + 1 + n))
  {
    WhitespaceRunCovers(s, p + 1);
    LineLengthCovers(s, p + 1 + n);
  }

  /** No match at `p` keeps more whitespace than the backtracking result. */
  lemma BacktrackIsLongest(s: string, p: nat, n: nat)
    requires p < |s|
    requires Backtrack(s, p + 1, WhitespaceRun(s, p + 1)) == Some(n)
    ensures forall q': nat, e': nat :: HeadingMatch(s, p, q', e') ==> q' <= p + 1 + n
  {
    BacktrackSkipsTerminators(s, p + 1, WhitespaceRun(s, p + 1));
    NoMatchBeyond(s, p, WhitespaceRun(s, p + 1), n);
  }

  /** When the whitespace run from `p + 1` has length `k` and the positions
      after `p + 1 + n` up to its end are line terminators, no match at `p`
      keeps more than `n` characters of whitespace. */
  lemma NoMatchBeyond(s: string, p: nat, k: nat, n: nat)
    requires p + 1 + k <= |s|
    requires p + 1 + k == |s| || !IsWhitespace(s[p + 1 + k])
    requires forall i :: p + 1 + n < i <= p + 1 + k && i < |s| ==> IsLineTerminator(s[i])
    ensures forall q': nat, e': nat :: HeadingMatch(s, p, q', e') ==> q' <= p + 1 + n
  {
    forall q': nat, e': nat | HeadingMatch(s, p, q', e')
      ensures q' <= p + 1 + n
    {
      assert q' <= p + 1 + k;
      assert !IsLineTerminator(s[q']);
    }
  }

  /** The capture of a match attempt at position `p`, if the attempt succeeds. */
  function MatchAt(s: string, p: nat): Option<string>
    requires p < |s|
  {
    if !LineStart(s, p) || s[p] != '#' then None
    else
      match Backtrack(s, p + 1, WhitespaceRun(s, p + 1))
      case None => None
      case Some(n) => Some(RestOfLine(s, p + 1 + n))
  }

  /** A successful attempt reports the capture of the greedy match at its position. */
  lemma MatchAtSound(s: string, p: nat)
    requires p < |s| && MatchAt(s, p).Some?
    ensures exists q: nat, e: nat :: GreedyMatch(s, p, q, e) && MatchAt(s, p).value == s[q..e]
  {
    var n := Backtrack(s, p + 1, WhitespaceRun(s, p + 1)).value;
    BacktrackIsGreedy(s, p, n);
    var q := p + 1 + n;
    var e := q + LineLength(s, q);
    assert MatchAt(s, p).value == s[q..e];
  }

  /** Whenever the expression can match at `p`, the attempt at `p` succeeds. */
  lemma MatchAtComplete(s: string, p: nat, q: nat, e: nat)
    requires HeadingMatch(s, p, q, e)
    ensures MatchAt(s, p).Some?
  {
    MatchWithinRun(s, p, q, e);
    BacktrackSkipsTerminators(s, p + 1, WhitespaceRun(s, p + 1));
  }

  /** The leftmost position from `p` on where the attempt succeeds, or `|s|` when there is none. */
  function FirstMatchIndex(s: string, p: nat): (k: nat)
    requires p <= |s|
    ensures p <= k <= |s|
    ensures k < |s| ==> MatchAt(s, k).Some?
    ensures forall i :: p <= i < k ==> MatchAt(s, i).None?
    decreases |s| - p
  {
    if p == |s| || MatchAt(s, p).Some? then p
    else FirstMatchIndex(s, p + 1)
  }

  /** `enhancedDiary.match(/^#\s+(.+)$/m)?.[1]` */
  function TitleMatch(markdown: string): Option<string> {
    var k := FirstMatchIndex(markdown, 0);
    if k < |markdown| then MatchAt(markdown, k) else None
  }

  function FallbackTitle(date: string): string {
    "Dev Diary - " + date
  }

  /** The diary title: the first heading's text, or the dated fallback. */
  function Title(markdown: string, date: string): (r: string)
    ensures TitleMatch(markdown).None? ==> r == FallbackTitle(date)
    ensures TitleMatch(markdown).Some? ==>
      exists p: nat, q: nat, e: nat :: && GreedyMatch(markdown, p, q, e) && r == markdown[q..e]
                                       && forall p': nat, q': nat, e': nat :: HeadingMatch(markdown, p', q', e') ==> p <= p'
  {
    match TitleMatch(markdown)
    case None => FallbackTitle(date)
    case Some(t) =>
      TitleMatchIsLeftmost(markdown);
      t
  }

  /** The reported match lies on the first line where the expression can match at all. */
  lemma TitleMatchIsLeftmost(markdown: string)
    requires TitleMatch(markdown).Some?
    ensures exists p: nat, q: nat, e: nat :: && GreedyMatch(markdown, p, q, e)
                                             && TitleMatch(markdown).value == markdown[q..e]
                                             && forall p': nat, q': nat, e': nat :: HeadingMatch(markdown, p', q', e') ==> p <= p'
  {
    var p := FirstMatchIndex(markdown, 0);
    MatchAtSound(markdown, p);
    var q: nat, e: nat :| GreedyMatch(markdown, p, q, e) && MatchAt(markdown, p).value == markdown[q..e];
    forall p': nat, q': nat, e': nat | HeadingMatch(markdown, p', q', e')
      ensures p <= p'
    {
      MatchAtComplete(markdown, p', q', e');
    }
  }

  /** The fallback is used exactly when no line of the text is a heading the expression accepts. */
  lemma FallbackIffNoHeading(markdown: string, date: string)
    ensures TitleMatch(markdown).None? <==> forall p: nat, q: nat, e: nat :: !HeadingMatch(markdown, p, q, e)
  {
    if TitleMatch(markdown).None? {
      forall p: nat, q: nat, e: nat | HeadingMatch(markdown, p, q, e)
        ensures false
      {
        MatchAtComplete(markdown, p, q, e);
      }
    } else {
      TitleMatchIsLeftmost(markdown);
    }
  }

  /** A line that starts with `##` never matches: `\s+` needs whitespace right after the first `#`. */
  lemma DoubleHashNeverMatches(s: string, p: nat)
    requires p + 1 < |s| && s[p] == '#' && s[p + 1] == '#'
    ensures MatchAt(s, p).None?
    ensures forall q: nat, e: nat :: !HeadingMatch(s, p, q, e)
  {
  }

  /** A text opening with `# ` and a one-line title is titled by that line. */
  lemma LeadingHeadingIsTitle(t: string, rest: string, date: string)
    requires |t| >= 1 && !IsWhitespace(t[0])
    requires forall i :: 0 <= i < |t| ==> !IsLineTerminator(t[i])
    ensures Title("# " + t + "\n" + rest, date) == t
  {
    var s := "# " + t + "\n" + rest;
    assert s[2..2 + |t|] == t;
    assert HeadingMatch(s, 0, 2, 2 + |t|);
    MatchAtComplete(s, 0, 2, 2 + |t|);
    MatchAtSound(s, 0);
    var q: nat, e: nat :| GreedyMatch(s, 0, q, e) && MatchAt(s, 0).value == s[q..e];
    MatchWithinRun(s, 0, q, e);
    assert WhitespaceRun(s, 1) == 1 by {
      assert !IsWhitespace(s[2]);
    }
    MatchEndsAtLineEnd(s, 0, 2, 2 + |t|);
    MatchEndsAtLineEnd(s, 0, q, e);
  }

  // --------------------------------------------------------------- hashtags

  /** `[a-zA-Z0-9-_]`: letters, digits, `-` and `_`. */
  predicate IsTagChar(c: char) {
    ('a' <= c <= 'z') || ('A' <= c <= 'Z') || ('0' <= c <= '9') || c == '-' || c == '_'
  }

  predicate IsTagWord(w: string) {
    |w| >= 1 && forall i :: 0 <= i < |w| ==> IsTagChar(w[i])
  }

  /** How many tag characters follow from `i` (what the greedy `+` takes). */
  function TagRun(s: string, i: nat): (k: nat)
    requires i <= |s|
    ensures i + k <= |s|
    ensures forall j :: i <= j < i + k ==> IsTagChar(s[j])
    ensures i + k == |s| || !IsTagChar(s[i + k])
    decreases |s| - i
  {
    if i < |s| && IsTagChar(s[i]) then 1 + TagRun(s, i + 1) else 0
  }

  /**
   * The global search over the rest `r` of the text. `boundary` says whether
   * the character before `r` is whitespace or absent, which is what the
   * look-behind `(?<!\S)` asks. After a match the search resumes right after
   * it, where the preceding character is a tag character.
   */
  function Scan(r: string, boundary: bool): (tags: seq<string>)
    ensures forall k :: 0 <= k < |tags| ==> IsTagWord(tags[k])
    decreases |r|
  {
    if r == [] then []
    else if boundary && r[0] == '#' && TagRun(r, 1) > 0 then
      var e := 1 + TagRun(r, 1);
      [r[1..e]] + Scan(r[e..], false)
    else Scan(r[1..], IsWhitespace(r[0]))
  }

  /** The Notion tags: every hashtag with its `#` removed, in order of
      occurrence, duplicates kept; none when there is no match. */
  function Hashtags(markdown: string): seq<string> {
    Scan(markdown, true)
  }

  /** A text without `#` has no tags. */
  lemma {:induction false} NoHashNoTags(r: string, boundary: bool)
    requires '#' !in r
    ensures Scan(r, boundary) == []
  {
    if r != [] {
      assert r[0] != '#';
      assert forall k :: 0 <= k < |r[1..]| ==> r[1..][k] == r[k + 1];
      NoHashNoTags(r[1..], IsWhitespace(r[0]));
    }
  }

  lemma TagRunExact(s: string, n: nat)
    requires 1 + n < |s| && !IsTagChar(s[1 + n])
    requires forall j :: 1 <= j < 1 + n ==> IsTagChar(s[j])
    ensures TagRun(s, 1) == n
  {
    var k := TagRun(s, 1);
    assert k == n;
  }

  /** `#w` followed by a space and more text yields `w` and then the tags of the rest. */
  lemma HashtagsOfWord(w: string, rest: string)
    requires IsTagWord(w)
    ensures Hashtags("#" + w + " " + rest) == [w] + Hashtags(rest)
  {
    var s := "#" + w + " " + rest;
    assert forall j :: 1 <= j < 1 + |w| ==> s[j] == w[j - 1];
    assert s[1 + |w|] == ' ';
    TagRunExact(s, |w|);
    assert s[1..1 + |w|] == w;
    var after := s[1 + |w|..];
    assert after == " " + rest;
    assert after[1..] == rest;
    assert Scan(s, true) == [w] + Scan(after, false);
    assert Scan(after, false) == Scan(rest, true) by {
      assert after[0] == ' ' && IsWhitespace(' ');
    }
  }

  /** Hashtags written one after another, separated by spaces. */
  function TagLine(ws: seq<string>): string {
    if ws == [] then "" else "#" + ws[0] + " " + TagLine(ws[1..])
  }

  /** Reading the tags of such a line gives back every word, in order, duplicates included. */
  lemma {:induction false} TagLineRoundTrip(ws: seq<string>)
    requires forall i :: 0 <= i < |ws| ==> IsTagWord(ws[i])
    ensures Hashtags(TagLine(ws)) == ws
  {
    if ws == [] {
    } else {
      HashtagsOfWord(ws[0], TagLine(ws[1..]));
      TagLineRoundTrip(ws[1..]);
    }
  }

  // ---------------------------------------------------------------- summary

  const SummaryLength := 200
  const SummaryFallback := "Developer diary created"
  const BlockSeparator := "\n\n"

  /** What `undefined + '...'` evaluates to. */
  const UndefinedSummary := "undefined..."

  /** The summary as written: `split('\n\n')[1]?.substring(0, 200) + '...' || fallback`,
      where a missing block turns into the string "undefined". */
  function SummaryAsWritten(markdown: string): string {
    var blocks := Split(markdown, BlockSeparator);
    OrElse((if |blocks| > 1 then Take(blocks[1], SummaryLength) else "undefined") + "...", SummaryFallback)
  }

  /** As written, the concatenation is never empty, so the fallback is never chosen. */
  lemma SummaryFallbackUnreachable(markdown: string)
    ensures SummaryAsWritten(markdown) != SummaryFallback
    ensures |Split(markdown, BlockSeparator)| == 1 ==> SummaryAsWritten(markdown) == UndefinedSummary
  {
    var s := SummaryAsWritten(markdown);
    assert s[|s| - 1] == '.';
    assert SummaryFallback[|SummaryFallback| - 1] == 'd';
  }

  /** A text without line breaks is a single block. */
  lemma NoBlockBreak(a: string)
    requires '\n' !in a
    ensures Split(a, BlockSeparator) == [a]
  {
    forall j: nat | j < |a|
      ensures !OccursAt(a, BlockSeparator, j)
    {
      assert a[j] != '\n';
    }
  }

  /** A text without line breaks followed by a blank line ends its first block there. */
  lemma FirstBlockBreak(a: string, rest: string)
    requires '\n' !in a && StartsWith(rest, BlockSeparator)
    ensures FindFrom(a + rest, BlockSeparator, 0) == Some(|a|)
  {
    var s := a + rest;
    assert s[|a|..|a| + 2] == rest[..2];
    assert OccursAt(s, BlockSeparator, |a|);
    forall j: nat | j < |a|
      ensures !OccursAt(s, BlockSeparator, j)
    {
      assert s[j] == a[j];
    }
  }

  /** A one-line diary is summarised as "undefined..." as written. */
  lemma OneLineSummaryAsWritten(markdown: string)
    requires '\n' !in markdown
    ensures SummaryAsWritten(markdown) == UndefinedSummary
  {
    NoBlockBreak(markdown);
  }

  /** The evidently intended summary: the second block cut to 200 characters
      and marked with "...", or the fallback when there is no second block. */
  function Summary(markdown: string): (r: string)
    ensures |Split(markdown, BlockSeparator)| > 1 ==> r == SummaryAsWritten(markdown)
    ensures |Split(markdown, BlockSeparator)| == 1 ==> r == SummaryFallback
    ensures |r| <= SummaryLength + 3
  {
    var blocks := Split(markdown, BlockSeparator);
    if |blocks| > 1 then Take(blocks[1], SummaryLength) + "..." else SummaryFallback
  }

  /** A line followed by a blank line or by nothing is the first block. */
  lemma FirstBlockOf(b: string, tail: string)
    requires '\n' !in b
    requires tail == [] || StartsWith(tail, BlockSeparator)
    ensures Split(b + tail, BlockSeparator)[0] == b
  {
    if tail == [] {
      assert b + tail == b;
      NoBlockBreak(b);
    } else {
      FirstBlockBreak(b, tail);
      assert (b + tail)[..|b|] == b;
    }
  }

  /** For a text laid out as a first line, a blank line, and a one-line second
      paragraph, the summary is that paragraph. */
  lemma SummaryOfSecondLine(a: string, b: string, tail: string)
    requires '\n' !in a && '\n' !in b
    requires tail == [] || StartsWith(tail, BlockSeparator)
    ensures Summary(a + BlockSeparator + b + tail) == Take(b, SummaryLength) + "..."
  {
    var s := a + BlockSeparator + b + tail;
    var rest := BlockSeparator + b + tail;
    assert s == a + rest;
    FirstBlockBreak(a, rest);
    assert s[|a| + 2..] == b + tail;
    FirstBlockOf(b, tail);
    assert Split(s, BlockSeparator)[1] == b;
  }
}
