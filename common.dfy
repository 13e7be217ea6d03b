/**
 * Values and string operations shared by every component: the optional and
 * failure-carrying wrappers that stand for JavaScript's `undefined` and
 * thrown errors, and the JavaScript string methods the core relies on
 * (`startsWith`, `includes`, `toLowerCase`, `trim`, `split`, `join`,
 * `substring`).
 */
module Common {

  datatype Option<+T> = None | Some(value: T)

  /** The outcome of a call that may throw: its value, or the error message. */
  datatype Result<+T> = Ok(value: T) | Err(message: string)

  /** `s.startsWith(prefix)` */
  predicate StartsWith(s: string, prefix: string) {
    |prefix| <= |s| && s[..|prefix|] == prefix
  }

  /** `s.includes(sub)`: some position of `s` starts with `sub`. */
  predicate Contains(s: string, sub: string)
    decreases |s|
  {
    StartsWith(s, sub) || (|s| > 0 && Contains(s[1..], sub))
  }

  /** `sub` occurs in `s` starting at position `i`. */
  predicate OccursAt(s: string, sub: string, i: nat) {
    i + |sub| <= |s| && s[i..i + |sub|] == sub
  }

  /** `includes` agrees with the textbook definition of a substring. */
  lemma {:induction false} ContainsAt(s: string, sub: string)
    ensures Contains(s, sub) <==> exists i: nat :: OccursAt(s, sub, i)
  {
    if Contains(s, sub) {
      if !StartsWith(s, sub) {
        ContainsAt(s[1..], sub);
        var i: nat :| OccursAt(s[1..], sub, i);
        assert s[i + 1..i + 1 + |sub|] == s[1..][i..i + |sub|];
        assert OccursAt(s, sub, i + 1);
      } else {
        assert OccursAt(s, sub, 0);
      }
    } else {
      forall i: nat | OccursAt(s, sub, i)
        ensures false
      {
        if i > 0 {
          ContainsAt(s[1..], sub);
          assert s[1..][i - 1..i - 1 + |sub|] == s[i..i + |sub|];
          assert OccursAt(s[1..], sub, i - 1);
        }
      }
    }
  }

  /** Unicode `toLowerCase` restricted to the ASCII letters. */
  function LowerChar(c: char): char {
    if 'A' <= c <= 'Z' then (c as int + 32) as char else c
  }

  function Lower(s: string): (r: string)
    ensures |r| == |s|
    ensures forall i :: 0 <= i < |s| ==> r[i] == LowerChar(s[i])
  {
    seq(|s|, i requires 0 <= i < |s| => LowerChar(s[i]))
  }

  /** The characters JavaScript's `trim` removes and the regular-expression class `\s` matches. */
  predicate IsWhitespace(c: char) {
    c == ' ' || c == '\t' || c == '\n' || c == '\r' || c == '\U{000B}' || c == '\U{000C}'
    || c == '\U{00A0}' || c == '\U{1680}' || ('\U{2000}' <= c <= '\U{200A}')
    || c == '\U{2028}' || c == '\U{2029}' || c == '\U{202F}' || c == '\U{205F}'
    || c == '\U{3000}' || c == '\U{FEFF}'
  }

  /** The line terminators of JavaScript regular expressions (`^`, `$` and `.` stop at them). */
  predicate IsLineTerminator(c: char) {
    c == '\n' || c == '\r' || c == '\U{2028}' || c == '\U{2029}'
  }

  lemma LineTerminatorIsWhitespace(c: char)
    ensures IsLineTerminator(c) ==> IsWhitespace(c)
  {
  }

  function TrimStart(s: string): (r: string)
    ensures |r| <= |s| && r == s[|s| - |r|..]
    ensures r == [] || !IsWhitespace(r[0])
    ensures forall i :: 0 <= i < |s| - |r| ==> IsWhitespace(s[i])
  {
    if s != [] && IsWhitespace(s[0]) then TrimStart(s[1..]) else s
  }

  function TrimEnd(s: string): (r: string)
    ensures |r| <= |s| && r == s[..|r|]
    ensures r == [] || !IsWhitespace(r[|r| - 1])
    ensures forall i :: |r| <= i < |s| ==> IsWhitespace(s[i])
  {
    if s != [] && IsWhitespace(s[|s| - 1]) then TrimEnd(s[..|s| - 1]) else s
  }

  /** `s.trim()`: `s` without its leading and trailing whitespace. */
  function Trim(s: string): string {
    TrimEnd(TrimStart(s))
  }

  /** `s.substring(0, n)` for a non-negative `n`. */
  function Take(s: string, n: nat): (r: string)
    ensures |r| <= n && StartsWith(s, r)
    ensures |s| <= n ==> r == s
  {
    if |s| <= n then s else s[..n]
  }

  /** The first index at or after `from` where `sep` occurs in `s`, if any. */
  function FindFrom(s: string, sep: string, from: nat): (r: Option<nat>)
    requires from <= |s|
    ensures r.Some? ==> from <= r.value && OccursAt(s, sep, r.value)
    ensures r.Some? ==> forall j: nat :: from <= j < r.value ==> !OccursAt(s, sep, j)
    ensures r.None? ==> forall j: nat :: from <= j ==> !OccursAt(s, sep, j)
    decreases |s| - from
  {
    if from + |sep| > |s| then None
    else if s[from..from + |sep|] == sep then Some(from)
    else FindFrom(s, sep, from + 1)
  }

  /** `s.split(sep)` for a non-empty separator: the pieces between the
      occurrences of `sep`, found left to right without overlap. */
  function Split(s: string, sep: string): (r: seq<string>)
    requires |sep| > 0
    ensures |r| >= 1
    decreases |s|
  {
    match FindFrom(s, sep, 0)
    case None => [s]
    case Some(i) => [s[..i]] + Split(s[i + |sep|..], sep)
  }

  /** `xs.join(sep)` */
  function Join(xs: seq<string>, sep: string): string {
    if xs == [] then ""
    else if |xs| == 1 then xs[0]
    else xs[0] + sep + Join(xs[1..], sep)
  }

  /** Splitting on a one-character separator undoes joining with it, as long
      as no piece holds that character. */
  lemma {:induction false} SplitJoin(xs: seq<string>, c: char)
    requires |xs| >= 1
    requires forall i :: 0 <= i < |xs| ==> c !in xs[i]
    ensures Split(Join(xs, [c]), [c]) == xs
  {
    var x := xs[0];
    if |xs| == 1 {
      NoSeparator(x, c);
    } else {
      var rest := Join(xs[1..], [c]);
      var s := x + [c] + rest;
      assert Join(xs, [c]) == s;
      FirstSeparator(x, rest, c);
      assert s[..|x|] == x;
      assert s[|x| + 1..] == rest;
      SplitJoin(xs[1..], c);
    }
  }

  lemma NoSeparator(x: string, c: char)
    requires c !in x
    ensures Split(x, [c]) == [x]
  {
    forall j: nat | j < |x|
      ensures !OccursAt(x, [c], j)
    {
      assert x[j] != c;
    }
  }

  lemma FirstSeparator(x: string, rest: string, c: char)
    requires c !in x
    ensures FindFrom(x + [c] + rest, [c], 0) == Some(|x|)
  {
    var s, sep := x + [c] + rest, [c];
    assert OccursAt(s, sep, |x|);
    forall j: nat | j < |x|
      ensures !OccursAt(s, sep, j)
    {
      assert s[j] == x[j];
    }
  }

  /** How many of `subs` occur in `text`: the sum, over the list, of 1 per
      entry contained in `text` (each entry counts once however often it occurs). */
  function KeywordHits(subs: seq<string>, text: string): (n: nat)
    ensures n <= |subs|
  {
    if subs == [] then 0
    else KeywordHits(subs[..|subs| - 1], text) + (if Contains(text, subs[|subs| - 1]) then 1 else 0)
  }

  /** The positions of `subs` whose entry occurs in `text`. */
  ghost function HitPositions(subs: seq<string>, text: string): set<nat> {
    set k: nat | k < |subs| && Contains(text, subs[k])
  }

  lemma {:induction false} KeywordHitsCountsPositions(subs: seq<string>, text: string)
    ensures KeywordHits(subs, text) == |HitPositions(subs, text)|
  {
    if subs != [] {
      var n := |subs| - 1;
      var init := subs[..n];
      KeywordHitsCountsPositions(init, text);
      var before := HitPositions(init, text);
      if Contains(text, subs[n]) {
        assert HitPositions(subs, text) == before + {n};
        assert n !in before;
      } else {
        assert HitPositions(subs, text) == before;
      }
    }
  }

  /** The decimal digits of `n`, as `String(n)` writes them. */
  function NatToString(n: nat): (r: string)
    ensures |r| >= 1
    ensures forall i :: 0 <= i < |r| ==> '0' <= r[i] <= '9'
  {
    if n < 10 then [DigitChar(n)] else NatToString(n / 10) + [DigitChar(n % 10)]
  }

  function DigitChar(d: nat): (c: char)
    requires d < 10
    ensures '0' <= c <= '9'
  {
    ('0' as int + d) as char
  }

  /** Reads the digits back: the inverse of `NatToString`. */
  function DigitsValue(s: string): nat
    requires forall i :: 0 <= i < |s| ==> '0' <= s[i] <= '9'
  {
    if s == [] then 0 else DigitsValue(s[..|s| - 1]) * 10 + (s[|s| - 1] as int - '0' as int)
  }

  lemma {:induction false} NatToStringRoundTrip(n: nat)
    ensures DigitsValue(NatToString(n)) == n
  {
    if n >= 10 {
      NatToStringRoundTrip(n / 10);
      var r := NatToString(n);
      assert r[..|r| - 1] == NatToString(n / 10);
    }
  }

  /** JavaScript's `a || b` on strings: `a` unless it is empty. */
  function OrElse(a: string, b: string): string {
    if a != "" then a else b
  }

  /** `o || b` for a string that may be `undefined`. */
  function OptionOr(o: Option<string>, b: string): string {
    if o.Some? then OrElse(o.value, b) else b
  }

  /** `xs.filter(y => y !== x)` */
  function RemoveAll<T(==)>(xs: seq<T>, x: T): (r: seq<T>)
    ensures |r| <= |xs|
    ensures forall i :: 0 <= i < |r| ==> r[i] in xs && r[i] != x
    ensures forall i :: 0 <= i < |xs| && xs[i] != x ==> xs[i] in r
  {
    if xs == [] then []
    else if xs[0] == x then RemoveAll(xs[1..], x)
    else [xs[0]] + RemoveAll(xs[1..], x)
  }

  /** Removal keeps the other entries in their original order: it distributes over concatenation. */
  lemma {:induction false} RemoveAllAppend<T>(a: seq<T>, b: seq<T>, x: T)
    ensures RemoveAll(a + b, x) == RemoveAll(a, x) + RemoveAll(b, x)
  {
    if a != [] {
      assert (a + b)[1..] == a[1..] + b;
      RemoveAllAppend(a[1..], b, x);
    } else {
      assert a + b == b;
    }
  }

  /** Removing what is absent changes nothing; so removing twice is removing once. */
  lemma {:induction false} RemoveAllAbsent<T>(xs: seq<T>, x: T)
    requires x !in xs
    ensures RemoveAll(xs, x) == xs
  {
    if xs != [] {
      RemoveAllAbsent(xs[1..], x);
    }
  }
}
