/**
 * The snippet side of services/pieces-service.ts: reading the asset snapshot
 * (empty on failure), keeping the assets touched since midnight, mapping
 * assets to activity snippets with their defaults, and the statistics of
 * `analyzeSnippets` (counts per language and per project, the ten most used
 * tags).
 *
 * The HTTP request is its outcome: a failure, or the response's
 * `data.iterable` when it has one. Local midnight, `Date.now()` and
 * `new Date(ms).toISOString()` (which throws for an out-of-range time) are
 * parameters.
 */
module Pieces {
  import opened Common
  import opened Activity

  datatype Tag = Tag(text: Option<string>)

  datatype CustomEntry = CustomEntry(key: string, value: string)

  /** A flattened asset; every part of it may be missing. `syntaxHighlight` is
      `format.syntax_highlight`, `custom` is `metadata.custom`, `created` and
      `updated` are the `milliseconds` of the two time stamps. */
  datatype Asset = Asset(
    original: Option<string>,
    syntaxHighlight: Option<string>,
    tags: Option<seq<Tag>>,
    custom: Option<seq<CustomEntry>>,
    created: Option<int>,
    updated: Option<int>)

  /** The snapshot request: a thrown error, or `response.data?.iterable`. */
  type SnapshotResponse = Result<Option<seq<Asset>>>

  // ---------------------------------------------------------------- fields

  /** `format?.syntax_highlight || 'text'` */
  function LanguageOf(a: Asset): string {
    OptionOr(a.syntaxHighlight, "text")
  }

  /** `find(item => item.key === key)?.value`: the value of the first entry with that key. */
  function FindValue(entries: seq<CustomEntry>, key: string): (r: Option<string>)
    ensures r.Some? ==> exists i :: 0 <= i < |entries| && entries[i].key == key && entries[i].value == r.value
                                   && forall j :: 0 <= j < i ==> entries[j].key != key
    ensures r.None? ==> forall i :: 0 <= i < |entries| ==> entries[i].key != key
  {
    if entries == [] then None
    else if entries[0].key == key then Some(entries[0].value)
    else
      var r := FindValue(entries[1..], key);
      assert r.Some? ==> exists i :: 0 < i < |entries| && entries[i].key == key && entries[i].value == r.value
                                   && forall j :: 0 <= j < i ==> entries[j].key != key by {
        if r.Some? {
          var i :| 0 <= i < |entries[1..]| && entries[1..][i].key == key && entries[1..][i].value == r.value
                   && forall j :: 0 <= j < i ==> entries[1..][j].key != key;
          assert forall j :: 0 <= j < i + 1 ==> entries[j].key != key by {
            forall j | 0 <= j < i + 1 ensures entries[j].key != key {
              if j > 0 { assert entries[j] == entries[1..][j - 1]; }
            }
          }
        }
      }
      r
  }

  /** The project an asset belongs to: its first `project` entry, or "Unknown". */
  function ProjectOf(a: Asset): string {
    OptionOr(if a.custom.Some? then FindValue(a.custom.value, "project") else None, "Unknown")
  }

  /** `snippet.x?.milliseconds || 0` */
  function Millis(stamp: Option<int>): int {
    if stamp.Some? then stamp.value else 0
  }

  /** Created or updated at or after local midnight. */
  predicate IsToday(a: Asset, midnight: int) {
    Millis(a.created) >= midnight || Millis(a.updated) >= midnight
  }

  // ------------------------------------------------------- snapshot readers

  /** The assets touched today, in their original order. */
  function FilterToday(assets: seq<Asset>, midnight: int): (r: seq<Asset>)
    ensures |r| <= |assets|
    ensures forall i :: 0 <= i < |r| ==> r[i] in assets && IsToday(r[i], midnight)
    ensures forall i :: 0 <= i < |assets| && IsToday(assets[i], midnight) ==> assets[i] in r
  {
    if assets == [] then []
    else
      var rest := FilterToday(assets[1..], midnight);
      if IsToday(assets[0], midnight) then [assets[0]] + rest else rest
  }

  /** Filtering keeps relative order: it distributes over concatenation. */
  lemma {:induction false} FilterTodayAppend(a: seq<Asset>, b: seq<Asset>, midnight: int)
    ensures FilterToday(a + b, midnight) == FilterToday(a, midnight) + FilterToday(b, midnight)
  {
    if a == [] {
      assert a + b == b;
    } else {
      assert (a + b)[1..] == a[1..] + b;
      FilterTodayAppend(a[1..], b, midnight);
    }
  }

  /** `getAllSnippets` with the evidently intended result: the asset array of
      the response, and none when the request fails or the response has none. */
  function GetAllSnippets(response: SnapshotResponse): (r: seq<Asset>)
    ensures response.Err? ==> r == []
    ensures response.Ok? && response.value.None? ==> r == []
    ensures response.Ok? && response.value.Some? ==> r == response.value.value
  {
    match response
    case Err(_) => []
    case Ok(None) => []
    case Ok(Some(assets)) => assets
  }

  /** `getTodaySnippets` on the intended snapshot: exactly the assets touched since midnight. */
  function GetTodaySnippets(response: SnapshotResponse, midnight: int): (r: seq<Asset>)
    ensures forall i :: 0 <= i < |r| ==> r[i] in GetAllSnippets(response) && IsToday(r[i], midnight)
    ensures forall a :: a in GetAllSnippets(response) && IsToday(a, midnight) ==> a in r
    ensures response.Err? ==> r == []
  {
    FilterToday(GetAllSnippets(response), midnight)
  }

  /** What `getAllSnippets` returns as written: the response's asset array
      itself, or an object `{ iterable: [] }` when there is none. */
  datatype Fetched = AssetArray(items: seq<Asset>) | Wrapper(iterable: seq<Asset>)

  function GetAllSnippetsAsWritten(response: SnapshotResponse): (r: Fetched)
    ensures response.Ok? && response.value.Some? ==> r == AssetArray(response.value.value)
    ensures !(response.Ok? && response.value.Some?) ==> r == Wrapper([])
  {
    match response
    case Err(_) => Wrapper([])
    case Ok(None) => Wrapper([])
    case Ok(Some(assets)) => AssetArray(assets)
  }

  /** `getTodaySnippets` as written: reading `.iterable` off an array gives
      `undefined`, so `.filter` throws and the handler returns no assets. */
  function GetTodaySnippetsAsWritten(response: SnapshotResponse, midnight: int): seq<Asset> {
    match GetAllSnippetsAsWritten(response)
    case AssetArray(_) => []
    case Wrapper(assets) => FilterToday(assets, midnight)
  }

  /** As written, no snapshot ever yields a snippet for today. */
  lemma TodayAsWrittenIsAlwaysEmpty(response: SnapshotResponse, midnight: int)
    ensures GetTodaySnippetsAsWritten(response, midnight) == []
  {
  }

  /** An asset created after midnight: the intended reader returns it, the written one does not. */
  lemma TodayAsWrittenLosesSnippet()
    ensures var response := Ok(Some([Asset(Some("x"), None, None, None, Some(5), None)]));
      && GetTodaySnippets(response, 1) == response.value.value
      && GetTodaySnippetsAsWritten(response, 1) == []
  {
    var response: SnapshotResponse := Ok(Some([Asset(Some("x"), None, None, None, Some(5), None)]));
    assert GetTodaySnippets(response, 1) == FilterToday(response.value.value, 1);
  }

  // ------------------------------------------------------------ transform

  /** `tag.text || ''` for every tag; no tags gives no texts. */
  function TagTexts(tags: Option<seq<Tag>>): (r: seq<string>)
    ensures tags.None? ==> r == []
    ensures tags.Some? ==>
      && |r| == |tags.value|
      && forall i :: 0 <= i < |r| ==> r[i] == OptionOr(tags.value[i].text, "")
  {
    if tags.None? then []
    else seq(|tags.value|, i requires 0 <= i < |tags.value| => OptionOr(tags.value[i].text, ""))
  }

  /** The time stamp a snippet is given: its creation time, or now when that
      is missing or 0, as an ISO string; `None` where `toISOString` throws. */
  function StampOf(a: Asset, nowMillis: int, toIso: int -> Option<string>): Option<string> {
    toIso(if a.created.Some? && a.created.value != 0 then a.created.value else nowMillis)
  }

  /** The activity snippet of one asset, with every default of the source. */
  function SnippetOf(a: Asset, stamp: string): ActivitySnippet {
    ActivitySnippet(OptionOr(a.original, ""), LanguageOf(a), TagTexts(a.tags), ProjectOf(a), stamp)
  }

  /** The message of the `RangeError` an invalid time value throws. */
  const InvalidTime := "Invalid time value"

  /**
   * `transformSnippetsToActivityData`: one snippet per asset, in order, with
   * the defaults ('' code, 'text' language, 'Unknown' project, '' for an
   * empty tag); it throws when some asset's time cannot be converted.
   */
  function TransformSnippets(assets: seq<Asset>, nowMillis: int, toIso: int -> Option<string>)
    : (r: Result<seq<ActivitySnippet>>)
    ensures r.Ok? <==> forall i :: 0 <= i < |assets| ==> StampOf(assets[i], nowMillis, toIso).Some?
    ensures r.Ok? ==>
      && |r.value| == |assets|
      && forall i :: 0 <= i < |assets| ==>
        r.value[i] == SnippetOf(assets[i], StampOf(assets[i], nowMillis, toIso).value)
    ensures r.Err? ==> r.message == InvalidTime
  {
    if assets == [] then Ok([])
    else
      match StampOf(assets[0], nowMillis, toIso)
      case None => Err(InvalidTime)
      case Some(stamp) =>
        match TransformSnippets(assets[1..], nowMillis, toIso)
        case Err(m) => Err(m)
        case Ok(rest) =>
          assert forall i :: 1 <= i < |assets| ==> assets[i] == assets[1..][i - 1];
          Ok([SnippetOf(assets[0], stamp)] + rest)
  }

  /** The defaults of one mapped asset. */
  lemma SnippetDefaults(a: Asset, stamp: string)
    ensures a.original.None? ==> SnippetOf(a, stamp).code == ""
    ensures a.syntaxHighlight.None? ==> SnippetOf(a, stamp).language == "text"
    ensures (a.custom.None? || FindValue(a.custom.value, "project").None?) ==> SnippetOf(a, stamp).project == "Unknown"
    ensures a.custom.Some? && FindValue(a.custom.value, "project") == Some("") ==> SnippetOf(a, stamp).project == "Unknown"
    ensures SnippetOf(a, stamp).language != "" && SnippetOf(a, stamp).project != ""
  {
  }

  // ------------------------------------------------------------- analysis

  /** The language of every asset, in order. */
  function LanguagesOf(assets: seq<Asset>): (r: seq<string>)
    ensures |r| == |assets| && forall i :: 0 <= i < |assets| ==> r[i] == LanguageOf(assets[i])
  {
    seq(|assets|, i requires 0 <= i < |assets| => LanguageOf(assets[i]))
  }

  function ProjectsOf(assets: seq<Asset>): (r: seq<string>)
    ensures |r| == |assets| && forall i :: 0 <= i < |assets| ==> r[i] == ProjectOf(assets[i])
  {
    seq(|assets|, i requires 0 <= i < |assets| => ProjectOf(assets[i]))
  }

  /** The tag texts `analyzeSnippets` counts for one list of tags: the non-empty ones, in order. */
  function CountedTags(tags: seq<Tag>): (r: seq<string>)
    ensures forall i :: 0 <= i < |r| ==> r[i] != ""
  {
    if tags == [] then []
    else
      var t := tags[|tags| - 1];
      CountedTags(tags[..|tags| - 1]) + (if t.text.Some? && t.text.value != "" then [t.text.value] else [])
  }

  function TagsOf(a: Asset): seq<Tag> {
    if a.tags.Some? then a.tags.value else []
  }

  /** Every counted tag text of every asset, in visiting order. */
  function AllCountedTags(assets: seq<Asset>): (r: seq<string>)
    ensures forall i :: 0 <= i < |r| ==> r[i] != ""
  {
    if assets == [] then []
    else AllCountedTags(assets[..|assets| - 1]) + CountedTags(TagsOf(assets[|assets| - 1]))
  }

  /** How often `k` occurs in `xs`. */
  function Count(xs: seq<string>, k: string): nat {
    if xs == [] then 0 else Count(xs[..|xs| - 1], k) + (if xs[|xs| - 1] == k then 1 else 0)
  }

  /** A value of `xs` occurs at least once. */
  lemma {:induction false} CountPositive(xs: seq<string>, k: string)
    requires k in xs
    ensures Count(xs, k) > 0
  {
    var init := xs[..|xs| - 1];
    if xs[|xs| - 1] != k {
      assert xs == init + [xs[|xs| - 1]];
      CountPositive(init, k);
    }
  }

  /** The counter object after visiting `xs`: each value seen, with its number of occurrences. */
  function Tally(xs: seq<string>): (m: map<string, nat>)
    ensures forall k :: k in m <==> k in xs
    ensures forall k :: k in m ==> m[k] == Count(xs, k) > 0
  {
    forall k | k in xs
      ensures Count(xs, k) > 0
    {
      CountPositive(xs, k);
    }
    map k | k in xs :: Count(xs, k)
  }

  /** The values of `xs` in order of first occurrence: the key order of the counter object. */
  function FirstSeen(xs: seq<string>): (r: seq<string>)
    ensures forall k :: k in r <==> k in xs
    ensures forall i, j :: 0 <= i < j < |r| ==> r[i] != r[j]
  {
    if xs == [] then []
    else
      var init, x := xs[..|xs| - 1], xs[|xs| - 1];
      var r := FirstSeen(init);
      assert forall k :: k in xs <==> k in init || k == x by {
        assert xs == init + [x];
      }
      if x in r then r else r + [x]
  }

  /** The sum of the counters named by `keys`. */
  function SumOver(keys: seq<string>, m: map<string, nat>): nat {
    if keys == [] then 0
    else SumOver(keys[..|keys| - 1], m) + (if keys[|keys| - 1] in m then m[keys[|keys| - 1]] else 0)
  }

  lemma {:induction false} SumOverFrame(keys: seq<string>, m: map<string, nat>, x: string, v: nat)
    requires x !in keys
    ensures SumOver(keys, m[x := v]) == SumOver(keys, m)
  {
    if keys != [] {
      SumOverFrame(keys[..|keys| - 1], m, x, v);
    }
  }

  lemma {:induction false} SumOverBump(keys: seq<string>, m: map<string, nat>, x: string)
    requires x in keys && x in m
    requires forall i, j :: 0 <= i < j < |keys| ==> keys[i] != keys[j]
    ensures SumOver(keys, m[x := m[x] + 1]) == SumOver(keys, m) + 1
  {
    var init := keys[..|keys| - 1];
    if keys[|keys| - 1] == x {
      SumOverFrame(init, m, x, m[x] + 1);
    } else {
      assert x in init by {
        var i :| 0 <= i < |keys| && keys[i] == x;
        assert init[i] == x;
      }
      SumOverBump(init, m, x);
    }
  }

  /** The counters, summed over their keys, add up to the number of values counted. */
  lemma {:induction false} TallySumsToLength(xs: seq<string>)
    ensures SumOver(FirstSeen(xs), Tally(xs)) == |xs|
  {
    if xs != [] {
      var init, x := xs[..|xs| - 1], xs[|xs| - 1];
      assert xs == init + [x];
      TallySumsToLength(init);
      TallyStep(init, x);
      FirstSeenStep(init, x);
      var keys, m := FirstSeen(init), Tally(init);
      if x in keys {
        SumOverBump(keys, m, x);
      } else {
        SumOverFrame(keys, m, x, 1);
        assert (keys + [x])[..|keys|] == keys;
      }
    }
  }

  lemma CountStep(xs: seq<string>, x: string, k: string)
    ensures Count(xs + [x], k) == Count(xs, k) + (if x == k then 1 else 0)
  {
    assert (xs + [x])[..|xs|] == xs;
  }

  lemma {:induction false} CountAbsent(xs: seq<string>, k: string)
    requires k !in xs
    ensures Count(xs, k) == 0
  {
    if xs != [] {
      var init := xs[..|xs| - 1];
      assert forall i :: 0 <= i < |init| ==> init[i] == xs[i];
      CountAbsent(init, k);
    }
  }

  /** One `counts[x] = (counts[x] || 0) + 1` step: the counter of `x` goes up by one, starting from zero. */
  lemma TallyStep(xs: seq<string>, x: string)
    ensures Tally(xs + [x]) == Tally(xs)[x := (if x in Tally(xs) then Tally(xs)[x] else 0) + 1]
  {
    var before, after := Tally(xs), Tally(xs + [x]);
    var stepped := before[x := (if x in before then before[x] else 0) + 1];
    TallyStepKeys(xs, x);
    forall k | k in after
      ensures after[k] == stepped[k]
    {
      TallyStepValue(xs, x, k);
    }
  }

  lemma TallyStepKeys(xs: seq<string>, x: string)
    ensures forall k :: k in Tally(xs + [x]) <==> k in Tally(xs) || k == x
  {
    var ys := xs + [x];
    forall k
      ensures k in ys <==> k in xs || k == x
    {
      if k in ys {
        var i :| 0 <= i < |ys| && ys[i] == k;
        if i < |xs| {
          assert xs[i] == k;
        }
      }
    }
  }

  lemma TallyStepValue(xs: seq<string>, x: string, k: string)
    requires k in xs + [x]
    ensures Tally(xs + [x])[k] == if k in Tally(xs) then Tally(xs)[k] + (if x == k then 1 else 0) else 1
  {
    CountStep(xs, x, k);
    if k !in xs {
      CountAbsent(xs, k);
    }
  }

  /** The same step adds `x` to the key order only when it is new. */
  lemma FirstSeenStep(xs: seq<string>, x: string)
    ensures FirstSeen(xs + [x]) == if x in xs then FirstSeen(xs) else FirstSeen(xs) + [x]
  {
    var ys := xs + [x];
    assert ys[..|ys| - 1] == xs;
  }

  /** A counter entry with the position of its key in the object. */
  datatype Entry = Entry(tag: string, count: nat, seen: nat)

  /** The order `sort` leaves entries in: higher count first, and among equal
      counts the order of `Object.entries`, since the sort is stable. */
  predicate Before(a: Entry, b: Entry) {
    a.count > b.count || (a.count == b.count && a.seen < b.seen)
  }

  predicate SortedEntries(s: seq<Entry>) {
    forall i, j :: 0 <= i < j < |s| ==> Before(s[i], s[j])
  }

  /** `Object.entries(counts)`, each entry numbered by its position. */
  function EntriesOf(keys: seq<string>, m: map<string, nat>): (r: seq<Entry>)
    ensures |r| == |keys|
    ensures forall i :: 0 <= i < |r| ==> r[i] == Entry(keys[i], if keys[i] in m then m[keys[i]] else 0, i)
  {
    seq(|keys|, i requires 0 <= i < |keys| => Entry(keys[i], if keys[i] in m then m[keys[i]] else 0, i))
  }

  /** One step of the stable sort: `e` goes after every entry that counts at least as much. */
  function Insert(e: Entry, s: seq<Entry>): (r: seq<Entry>)
    ensures multiset(r) == multiset(s) + multiset{e}
    ensures |r| == |s| + 1
  {
    if s == [] then [e]
    else
      assert s == [s[0]] + s[1..];
      if s[0].count >= e.count then [s[0]] + Insert(e, s[1..]) else [e] + s
  }

  /** The comparator sort `(a, b) => b.count - a.count`, stable. */
  function SortByCount(es: seq<Entry>): (r: seq<Entry>)
    ensures multiset(r) == multiset(es)
    ensures |r| == |es|
  {
    if es == [] then []
    else
      var init := es[..|es| - 1];
      assert es == init + [es[|es| - 1]];
      Insert(es[|es| - 1], SortByCount(init))
  }

  lemma {:induction false} InsertSorted(e: Entry, s: seq<Entry>)
    requires SortedEntries(s)
    requires forall i :: 0 <= i < |s| ==> s[i].seen < e.seen
    ensures SortedEntries(Insert(e, s))
  {
    if s != [] && s[0].count >= e.count {
      var rest := s[1..];
      InsertSorted(e, rest);
      var r := Insert(e, rest);
      forall x | x in r
        ensures Before(s[0], x)
      {
        assert x in multiset(rest) + multiset{e};
        if x != e {
          var k :| 0 <= k < |rest| && rest[k] == x;
          assert s[k + 1] == x;
        }
      }
      assert Insert(e, s) == [s[0]] + r;
    } else if s != [] {
      assert Insert(e, s) == [e] + s;
    }
  }

  /** Sorting entries numbered in increasing order yields them by count, ties by number. */
  lemma {:induction false} SortByCountSorted(es: seq<Entry>)
    requires forall i, j :: 0 <= i < j < |es| ==> es[i].seen < es[j].seen
    ensures SortedEntries(SortByCount(es))
  {
    if es != [] {
      var init, e := es[..|es| - 1], es[|es| - 1];
      SortByCountSorted(init);
      var s := SortByCount(init);
      forall i | 0 <= i < |s|
        ensures s[i].seen < e.seen
      {
        assert s[i] in multiset(init);
        var k :| 0 <= k < |init| && init[k] == s[i];
      }
      InsertSorted(e, s);
    }
  }

  /** The tags of the first ten entries after sorting. */
  function TopTags(keys: seq<string>, m: map<string, nat>): (r: seq<string>)
    ensures |r| <= 10
  {
    var sorted := SortByCount(EntriesOf(keys, m));
    var top := if |sorted| <= 10 then sorted else sorted[..10];
    seq(|top|, i requires 0 <= i < |top| => top[i].tag)
  }

  /** Every sorted entry is the entry numbered by its `seen` field. */
  lemma SortedAreEntries(keys: seq<string>, m: map<string, nat>)
    ensures var es := EntriesOf(keys, m);
      var sorted := SortByCount(es);
      forall i :: 0 <= i < |sorted| ==> sorted[i].seen < |es| && sorted[i] == es[sorted[i].seen]
  {
    var es := EntriesOf(keys, m);
    var sorted := SortByCount(es);
    forall i | 0 <= i < |sorted|
      ensures sorted[i].seen < |es| && sorted[i] == es[sorted[i].seen]
    {
      assert sorted[i] in multiset(es);
      var k :| 0 <= k < |es| && es[k] == sorted[i];
    }
  }

  /** Every key has its entry somewhere in the sorted list. */
  lemma KeyIsSorted(keys: seq<string>, m: map<string, nat>, p: nat)
    requires p < |keys|
    ensures var sorted := SortByCount(EntriesOf(keys, m));
      exists q :: 0 <= q < |sorted| && sorted[q] == EntriesOf(keys, m)[p]
  {
    var es := EntriesOf(keys, m);
    assert es[p] in multiset(SortByCount(es));
  }

  /** `r` holds the tags of a prefix of `sorted`. */
  predicate TagsOfPrefix(r: seq<string>, sorted: seq<Entry>) {
    |r| <= |sorted| && forall i :: 0 <= i < |r| ==> r[i] == sorted[i].tag
  }

  /** Every entry of `sorted` is the entry of the key it names. */
  predicate EntriesOfKeys(sorted: seq<Entry>, keys: seq<string>, m: map<string, nat>)
    requires forall k :: k in keys ==> k in m
  {
    forall i :: 0 <= i < |sorted| ==>
      && sorted[i].seen < |keys| && sorted[i].tag == keys[sorted[i].seen] && sorted[i].count == m[sorted[i].tag]
  }

  lemma TopTagsArePrefix(keys: seq<string>, m: map<string, nat>)
    requires forall k :: k in keys ==> k in m
    ensures var sorted := SortByCount(EntriesOf(keys, m));
      && TagsOfPrefix(TopTags(keys, m), sorted)
      && EntriesOfKeys(sorted, keys, m)
      && |TopTags(keys, m)| == (if |keys| <= 10 then |keys| else 10)
  {
    SortedAreEntries(keys, m);
  }

  /** A prefix of sorted entries of distinct keys names distinct keys by non-increasing count. */
  lemma RankedPrefixOrdered(keys: seq<string>, m: map<string, nat>, sorted: seq<Entry>, r: seq<string>)
    requires forall i, j :: 0 <= i < j < |keys| ==> keys[i] != keys[j]
    requires forall k :: k in keys ==> k in m
    requires SortedEntries(sorted) && TagsOfPrefix(r, sorted) && EntriesOfKeys(sorted, keys, m)
    ensures forall i :: 0 <= i < |r| ==> r[i] in keys
    ensures forall i, j :: 0 <= i < j < |r| ==> r[i] != r[j]
    ensures forall i, j :: 0 <= i < j < |r| ==> m[r[i]] >= m[r[j]]
  {
    forall i | 0 <= i < |r|
      ensures r[i] in keys
    {
      assert r[i] == keys[sorted[i].seen];
    }
    forall i, j | 0 <= i < j < |r|
      ensures r[i] != r[j] && m[r[i]] >= m[r[j]]
    {
      assert Before(sorted[i], sorted[j]);
    }
  }

  /** A key whose entry lies beyond the prefix counts no more than any tag in it. */
  lemma LeftOutRanksLower(keys: seq<string>, m: map<string, nat>, sorted: seq<Entry>, r: seq<string>, q: nat)
    requires forall i, j :: 0 <= i < j < |keys| ==> keys[i] != keys[j]
    requires forall k :: k in keys ==> k in m
    requires SortedEntries(sorted) && TagsOfPrefix(r, sorted) && EntriesOfKeys(sorted, keys, m)
    requires q < |sorted| && sorted[q].tag !in r
    ensures forall i :: 0 <= i < |r| ==> r[i] in m && m[sorted[q].tag] <= m[r[i]]
  {
    forall i | 0 <= i < |r|
      ensures r[i] in m && m[sorted[q].tag] <= m[r[i]]
    {
      if q < |r| {
        assert false;
      }
      assert Before(sorted[i], sorted[q]);
    }
  }

  /**
   * The top tags of a counter object: at most ten distinct keys, by
   * non-increasing count, and no key left out counts more than one that was kept.
   */
  lemma {:induction false} TopTagsRanked(keys: seq<string>, m: map<string, nat>)
    requires forall i, j :: 0 <= i < j < |keys| ==> keys[i] != keys[j]
    requires forall k :: k in keys ==> k in m
    ensures var r := TopTags(keys, m);
      && |r| == (if |keys| <= 10 then |keys| else 10)
      && (forall i :: 0 <= i < |r| ==> r[i] in keys)
      && (forall i, j :: 0 <= i < j < |r| ==> r[i] != r[j])
      && (forall i, j :: 0 <= i < j < |r| ==> m[r[i]] >= m[r[j]])
      && (forall k :: k in keys && k !in r ==> forall i :: 0 <= i < |r| ==> m[k] <= m[r[i]])
  {
    var es := EntriesOf(keys, m);
    var sorted := SortByCount(es);
    var r := TopTags(keys, m);
    SortByCountSorted(es);
    TopTagsArePrefix(keys, m);
    RankedPrefixOrdered(keys, m, sorted, r);
    forall k | k in keys && k !in r
      ensures forall i :: 0 <= i < |r| ==> m[k] <= m[r[i]]
    {
      var p :| 0 <= p < |keys| && keys[p] == k;
      KeyIsSorted(keys, m, p);
      var q :| 0 <= q < |sorted| && sorted[q] == es[p];
      LeftOutRanksLower(keys, m, sorted, r, q);
    }
  }

  /**
   * `analyzeSnippets`: one pass counting languages and projects, one pass
   * counting non-empty tag texts (with the counter's key order), then the top
   * ten tags. Both tallies add up to the number of assets.
   */
  method AnalyzeSnippets(assets: seq<Asset>)
    returns (languages: map<string, nat>, projects: map<string, nat>, topTags: seq<string>)
    ensures languages == Tally(LanguagesOf(assets))
    ensures projects == Tally(ProjectsOf(assets))
    ensures topTags == TopTags(FirstSeen(AllCountedTags(assets)), Tally(AllCountedTags(assets)))
    ensures SumOver(FirstSeen(LanguagesOf(assets)), languages) == |assets|
    ensures SumOver(FirstSeen(ProjectsOf(assets)), projects) == |assets|
  {
    languages, projects := CountLanguagesAndProjects(assets);
    var tagCounts, tagOrder := CountTags(assets);
    topTags := TopTags(tagOrder, tagCounts);
    TallySumsToLength(LanguagesOf(assets));
    TallySumsToLength(ProjectsOf(assets));
  }

  /** The first `forEach`: the language and the project of every asset, counted. */
  method CountLanguagesAndProjects(assets: seq<Asset>) returns (languages: map<string, nat>, projects: map<string, nat>)
    ensures languages == Tally(LanguagesOf(assets))
    ensures projects == Tally(ProjectsOf(assets))
  {
    languages, projects := map[], map[];
    for i := 0 to |assets|
      invariant languages == Tally(LanguagesOf(assets[..i]))
      invariant projects == Tally(ProjectsOf(assets[..i]))
    {
      var language := LanguageOf(assets[i]);
      assert LanguagesOf(assets[..i + 1]) == LanguagesOf(assets[..i]) + [language];
      TallyStep(LanguagesOf(assets[..i]), language);
      languages := languages[language := (if language in languages then languages[language] else 0) + 1];
      var project := ProjectOf(assets[i]);
      assert ProjectsOf(assets[..i + 1]) == ProjectsOf(assets[..i]) + [project];
      TallyStep(ProjectsOf(assets[..i]), project);
      projects := projects[project := (if project in projects then projects[project] else 0) + 1];
    }
    assert assets[..|assets|] == assets;
  }

  /** The second `forEach`: every non-empty tag text counted, with the counter's key order. */
  method CountTags(assets: seq<Asset>) returns (tagCounts: map<string, nat>, tagOrder: seq<string>)
    ensures tagCounts == Tally(AllCountedTags(assets))
    ensures tagOrder == FirstSeen(AllCountedTags(assets))
  {
    tagCounts, tagOrder := map[], [];
    for i := 0 to |assets|
      invariant tagCounts == Tally(AllCountedTags(assets[..i]))
      invariant tagOrder == FirstSeen(AllCountedTags(assets[..i]))
    {
      assert assets[..i + 1][..i] == assets[..i];
      tagCounts, tagOrder := CountAssetTags(TagsOf(assets[i]), tagCounts, tagOrder, AllCountedTags(assets[..i]));
    }
    assert assets[..|assets|] == assets;
  }

  /** The inner `forEach` over one asset's tags, continuing the counts of `counted`. */
  method CountAssetTags(tags: seq<Tag>, counts: map<string, nat>, order: seq<string>, ghost counted: seq<string>)
    returns (tagCounts: map<string, nat>, tagOrder: seq<string>)
    requires counts == Tally(counted) && order == FirstSeen(counted)
    ensures tagCounts == Tally(counted + CountedTags(tags))
    ensures tagOrder == FirstSeen(counted + CountedTags(tags))
  {
    tagCounts, tagOrder := counts, order;
    ghost var seen := counted;
    for j := 0 to |tags|
      invariant seen == counted + CountedTags(tags[..j])
      invariant tagCounts == Tally(seen) && tagOrder == FirstSeen(seen)
    {
      assert tags[..j + 1][..j] == tags[..j];
      var text := tags[j].text;
      if text.Some? && text.value != "" {
        assert counted + CountedTags(tags[..j + 1]) == seen + [text.value];
        TallyStep(seen, text.value);
        FirstSeenStep(seen, text.value);
        if text.value !in tagCounts {
          tagOrder := tagOrder + [text.value];
        }
        tagCounts := tagCounts[text.value := (if text.value in tagCounts then tagCounts[text.value] else 0) + 1];
        seen := seen + [text.value];
      } else {
        assert counted + CountedTags(tags[..j + 1]) == seen;
      }
    }
    assert tags[..|tags|] == tags;
  }

  /** The top tags of an analysis are ranked as `TopTagsRanked` states, over the tags counted. */
  lemma AnalysisTopTagsRanked(assets: seq<Asset>)
    ensures var xs := AllCountedTags(assets);
      var r := TopTags(FirstSeen(xs), Tally(xs));
      && |r| <= 10
      && (forall i :: 0 <= i < |r| ==> r[i] in xs && r[i] != "")
      && (forall i, j :: 0 <= i < j < |r| ==> r[i] != r[j])
      && (forall i, j :: 0 <= i < j < |r| ==> Count(xs, r[i]) >= Count(xs, r[j]))
      && (forall k :: k in xs && k !in r ==> forall i :: 0 <= i < |r| ==> Count(xs, k) <= Count(xs, r[i]))
  {
    var xs := AllCountedTags(assets);
    TopTagsRanked(FirstSeen(xs), Tally(xs));
  }
}
