/**
 * components/dev-diary-dashboard.tsx: the state updaters of the "recent
 * activity" list and the snippet filter. The React state itself, the toasts
 * and the clipboard write are not modelled; each updater is a function from
 * the previous list to the next one, and the clock reading is an input.
 */
module Dashboard {
  import Clipboard

  type Snippet = Clipboard.ClipboardSnippet

  /** How many entries a copy from the dashboard or from the clipboard service keeps. */
  const CopiedLimit: nat := 5
  /** How many entries an externally captured snippet keeps. */
  const ExternalLimit: nat := 10
  /** The filter value that lets every language or project through. */
  const AllFilter := "all"

  /** `prev.filter(s => s.id !== id)` */
  function WithoutId(xs: seq<Snippet>, id: string): (r: seq<Snippet>)
    ensures |r| <= |xs|
    ensures forall s :: s in r <==> s in xs && s.id != id
  {
    if xs == [] then []
    else (if xs[0].id == id then [] else [xs[0]]) + WithoutId(xs[1..], id)
  }

  /** `xs.slice(0, n)` */
  function Newest(xs: seq<Snippet>, n: nat): (r: seq<Snippet>)
    ensures |r| == if |xs| <= n then |xs| else n
    ensures forall i :: 0 <= i < |r| ==> r[i] == xs[i]
  {
    if |xs| <= n then xs else xs[..n]
  }

  /** `{ ...snippet, timestamp: now }` */
  function Stamped(s: Snippet, now: string): (r: Snippet)
    ensures r.id == s.id && r.code == s.code && r.language == s.language && r.project == s.project
    ensures r.timestamp == now
  {
    s.(timestamp := now)
  }

  /** Every id occurs at most once in the list. */
  predicate DistinctIds(xs: seq<Snippet>) {
    forall i, j :: 0 <= i < j < |xs| ==> xs[i].id != xs[j].id
  }

  /** The list after a snippet is copied: the copy with a fresh timestamp
      first, then the older entries with another id, newest five in all.
      `handleCopySnippet` and the `onSnippetCopied` callback both use it. */
  function RecordCopy(prev: seq<Snippet>, snippet: Snippet, now: string): (r: seq<Snippet>)
    ensures 1 <= |r| <= CopiedLimit
    ensures r[0] == Stamped(snippet, now)
    ensures forall i :: 1 <= i < |r| ==> r[i] in prev && r[i].id != snippet.id
  {
    Newest([Stamped(snippet, now)] + WithoutId(prev, snippet.id), CopiedLimit)
  }

  /** The list after an externally captured snippet: prepended with a fresh
      timestamp, no removal of an entry with the same id, newest ten in all. */
  function RecordExternal(prev: seq<Snippet>, snippet: Snippet, now: string): (r: seq<Snippet>)
    ensures |r| == if |prev| < ExternalLimit then |prev| + 1 else ExternalLimit
    ensures r[0] == Stamped(snippet, now)
    ensures forall i :: 1 <= i < |r| ==> r[i] == prev[i - 1]
  {
    Newest([Stamped(snippet, now)] + prev, ExternalLimit)
  }

  /** `filteredSnippets`: "all" or an exact match, for language and for project. */
  predicate PassesFilter(s: Snippet, language: string, project: string) {
    (language == AllFilter || s.language == language) && (project == AllFilter || s.project == project)
  }

  function FilterSnippets(xs: seq<Snippet>, language: string, project: string): (r: seq<Snippet>)
    ensures |r| <= |xs|
    ensures forall s :: s in r <==> s in xs && PassesFilter(s, language, project)
  {
    if xs == [] then []
    else (if PassesFilter(xs[0], language, project) then [xs[0]] else []) + FilterSnippets(xs[1..], language, project)
  }

  // ------------------------------------------------------------ remove by id

  /** Removing by id keeps the order: it works piece by piece. */
  lemma {:induction false} WithoutIdAppend(a: seq<Snippet>, b: seq<Snippet>, id: string)
    ensures WithoutId(a + b, id) == WithoutId(a, id) + WithoutId(b, id)
  {
    if a == [] {
      assert a + b == b;
    } else {
      assert (a + b)[1..] == a[1..] + b;
      WithoutIdAppend(a[1..], b, id);
    }
  }

  /** A list without the id is left as it is. */
  lemma {:induction false} WithoutIdAbsent(xs: seq<Snippet>, id: string)
    requires forall i :: 0 <= i < |xs| ==> xs[i].id != id
    ensures WithoutId(xs, id) == xs
  {
    if xs != [] {
      WithoutIdAbsent(xs[1..], id);
    }
  }

  /** Removing by id keeps distinct ids distinct. */
  lemma {:induction false} WithoutIdDistinct(xs: seq<Snippet>, id: string)
    requires DistinctIds(xs)
    ensures DistinctIds(WithoutId(xs, id))
  {
    if xs != [] {
      var tail := WithoutId(xs[1..], id);
      WithoutIdDistinct(xs[1..], id);
      forall k | 0 <= k < |tail|
        ensures tail[k].id != xs[0].id
      {
        assert tail[k] in xs[1..];
      }
    }
  }

  // ------------------------------------------------------------ copied snippets

  /** The entries after the copy are the first older entries with another id, in their old order. */
  lemma RecordCopyKeepsOrder(prev: seq<Snippet>, snippet: Snippet, now: string)
    ensures RecordCopy(prev, snippet, now)[1..] == Newest(WithoutId(prev, snippet.id), CopiedLimit - 1)
  {
  }

  /** From a list with distinct ids the copy gives a list with distinct ids in
      which the copied snippet's id occurs exactly once, at the front. */
  lemma RecordCopyDistinct(prev: seq<Snippet>, snippet: Snippet, now: string)
    requires DistinctIds(prev)
    ensures var r := RecordCopy(prev, snippet, now);
      && DistinctIds(r)
      && r[0].id == snippet.id
      && (forall i :: 0 <= i < |r| && r[i].id == snippet.id ==> i == 0)
  {
    var rest := WithoutId(prev, snippet.id);
    WithoutIdDistinct(prev, snippet.id);
    var r := RecordCopy(prev, snippet, now);
    forall i, j | 0 <= i < j < |r|
      ensures r[i].id != r[j].id
    {
      assert r[j] == rest[j - 1];
      if i > 0 {
        assert r[i] == rest[i - 1];
      }
    }
  }

  /** Nothing is lost while the list is short: a new id below the limit grows the list by one. */
  lemma RecordCopyOfNewSnippet(prev: seq<Snippet>, snippet: Snippet, now: string)
    requires |prev| < CopiedLimit
    requires forall i :: 0 <= i < |prev| ==> prev[i].id != snippet.id
    ensures RecordCopy(prev, snippet, now) == [Stamped(snippet, now)] + prev
  {
    WithoutIdAbsent(prev, snippet.id);
  }

  /** Copying the same snippet again, from the dashboard or through the
      clipboard service, only refreshes its timestamp: the list is the one a
      single copy at the later time gives. */
  lemma RecordCopyTwice(prev: seq<Snippet>, snippet: Snippet, first: string, second: string)
    ensures RecordCopy(RecordCopy(prev, snippet, first), snippet, second) == RecordCopy(prev, snippet, second)
  {
    var once := RecordCopy(prev, snippet, first);
    var rest := once[1..];
    WithoutIdOfCopy(prev, snippet, first);
    RecordCopyKeepsOrder(prev, snippet, second);
    RecordCopyKeepsOrder(once, snippet, second);
    assert |rest| <= CopiedLimit - 1;
  }

  /** Removing the copied id again leaves the older entries kept by the copy. */
  lemma WithoutIdOfCopy(prev: seq<Snippet>, snippet: Snippet, now: string)
    ensures var once := RecordCopy(prev, snippet, now);
      WithoutId(once, snippet.id) == once[1..]
  {
    var once := RecordCopy(prev, snippet, now);
    var rest := once[1..];
    assert once == [once[0]] + rest;
    WithoutIdAppend([once[0]], rest, snippet.id);
    assert WithoutId([once[0]], snippet.id) == [];
    WithoutIdAbsent(rest, snippet.id);
  }

  // ------------------------------------------------------------ external snippets

  /** An externally captured snippet is prepended even when its id is already listed. */
  lemma RecordExternalKeepsDuplicates(prev: seq<Snippet>, snippet: Snippet, now: string, k: nat)
    requires k < |prev| && k + 1 < ExternalLimit && prev[k].id == snippet.id
    ensures var r := RecordExternal(prev, snippet, now);
      r[0].id == r[k + 1].id && !DistinctIds(r)
  {
  }

  /** A full list loses exactly its oldest entry. */
  lemma RecordExternalDropsOldest(prev: seq<Snippet>, snippet: Snippet, now: string)
    requires |prev| == ExternalLimit
    ensures RecordExternal(prev, snippet, now) == [Stamped(snippet, now)] + prev[..|prev| - 1]
  {
  }

  // ------------------------------------------------------------ filter

  /** The filter keeps the order: it works piece by piece. */
  lemma {:induction false} FilterAppend(a: seq<Snippet>, b: seq<Snippet>, language: string, project: string)
    ensures FilterSnippets(a + b, language, project) == FilterSnippets(a, language, project) + FilterSnippets(b, language, project)
  {
    if a == [] {
      assert a + b == b;
    } else {
      assert (a + b)[1..] == a[1..] + b;
      FilterAppend(a[1..], b, language, project);
    }
  }

  /** With both filters at "all" every snippet is shown. */
  lemma {:induction false} FilterAllShowsEverything(xs: seq<Snippet>)
    ensures FilterSnippets(xs, AllFilter, AllFilter) == xs
  {
    if xs != [] {
      FilterAllShowsEverything(xs[1..]);
    }
  }

  /** Filtering by language and then by project is filtering by both at once. */
  lemma {:induction false} FilterComposes(xs: seq<Snippet>, language: string, project: string)
    ensures FilterSnippets(FilterSnippets(xs, language, AllFilter), AllFilter, project)
         == FilterSnippets(xs, language, project)
  {
    if xs != [] {
      var head := if PassesFilter(xs[0], language, AllFilter) then [xs[0]] else [];
      FilterAppend(head, FilterSnippets(xs[1..], language, AllFilter), AllFilter, project);
      FilterComposes(xs[1..], language, project);
    }
  }
}
