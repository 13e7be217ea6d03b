/**
 * The activity record the diary is written from (the `ActivityData` shape
 * shared by services/gemini-service.ts and services/openai-service.ts) and
 * `truncateActivityData`, which both services define identically: it shrinks
 * the record before it is sent to a language model.
 *
 * Optional fields are `Option`s. The source's truncation works on a shallow
 * copy, so its update of the commit list also reaches the caller's record
 * through the shared `gitActivity` object; the method below returns that
 * caller-side view as a second result.
 */
module Activity {
  import opened Common

  datatype ActivitySnippet = ActivitySnippet(
    code: string, language: string, tags: seq<string>, project: string, timestamp: string)

  datatype Task = Task(title: string, completed: bool)

  datatype Commit = Commit(message: string, timestamp: string)

  datatype PullRequest = PullRequest(title: string, status: string)

  datatype GitActivity = GitActivity(commits: seq<Commit>, branches: seq<string>, pullRequests: seq<PullRequest>)

  datatype ActivityData = ActivityData(
    snippets: seq<ActivitySnippet>,
    notes: Option<seq<string>>,
    decisions: Option<seq<string>>,
    tasks: Option<seq<Task>>,
    gitActivity: Option<GitActivity>)

  const MaxSnippets := 5
  const MaxCodeLength := 1000
  const MaxNotes := 10
  const MaxCommits := 10
  const Ellipsis := "..."

  /** A code block cut to its first 1000 characters plus "..." when longer. */
  function CapCode(code: string): (r: string)
    ensures |code| <= MaxCodeLength ==> r == code
    ensures |code| > MaxCodeLength ==>
      |r| == MaxCodeLength + |Ellipsis| && r[..MaxCodeLength] == code[..MaxCodeLength] && r[MaxCodeLength..] == Ellipsis
  {
    if |code| > MaxCodeLength then code[..MaxCodeLength] + Ellipsis else code
  }

  /** A capped code block is at most 1003 characters. */
  lemma CapCodeBounded(code: string)
    ensures |CapCode(code)| <= MaxCodeLength + |Ellipsis|
  {
  }

  function CapSnippet(s: ActivitySnippet): ActivitySnippet {
    s.(code := CapCode(s.code))
  }

  /**
   * The record `truncateActivityData` returns: more than five snippets become
   * the first five with their code capped; the notes and the commits are cut
   * to ten only when there are more; everything else is kept.
   */
  function Truncated(data: ActivityData): (t: ActivityData)
    ensures |data.snippets| <= MaxSnippets ==> t.snippets == data.snippets
    ensures |data.snippets| > MaxSnippets ==>
      && |t.snippets| == MaxSnippets
      && forall i :: 0 <= i < MaxSnippets ==> t.snippets[i] == data.snippets[i].(code := CapCode(data.snippets[i].code))
    ensures t.notes.Some? <==> data.notes.Some?
    ensures data.notes.Some? ==>
      t.notes.value == (if |data.notes.value| > MaxNotes then data.notes.value[..MaxNotes] else data.notes.value)
    ensures t.gitActivity.Some? <==> data.gitActivity.Some?
    ensures data.gitActivity.Some? ==>
      var g, h := data.gitActivity.value, t.gitActivity.value;
      && h.commits == (if |g.commits| > MaxCommits then g.commits[..MaxCommits] else g.commits)
      && h.branches == g.branches && h.pullRequests == g.pullRequests
    ensures t.decisions == data.decisions && t.tasks == data.tasks
  {
    var snippets :=
      if |data.snippets| > MaxSnippets
      then seq(MaxSnippets, i requires 0 <= i < MaxSnippets => CapSnippet(data.snippets[i]))
      else data.snippets;
    var notes :=
      if data.notes.Some? && |data.notes.value| > MaxNotes
      then Some(data.notes.value[..MaxNotes]) else data.notes;
    var git :=
      if data.gitActivity.Some? && |data.gitActivity.value.commits| > MaxCommits
      then Some(data.gitActivity.value.(commits := data.gitActivity.value.commits[..MaxCommits]))
      else data.gitActivity;
    data.(snippets := snippets, notes := notes, gitActivity := git)
  }

  /** After truncation nothing exceeds the caps: at most five snippets, ten
      notes and ten commits, and each code block stays within 1003 characters
      whenever the snippet list was cut. */
  lemma TruncatedWithinCaps(data: ActivityData)
    ensures |Truncated(data).snippets| <= MaxSnippets
    ensures Truncated(data).notes.Some? ==> |Truncated(data).notes.value| <= MaxNotes
    ensures Truncated(data).gitActivity.Some? ==> |Truncated(data).gitActivity.value.commits| <= MaxCommits
    ensures |data.snippets| > MaxSnippets ==>
      forall i :: 0 <= i < |Truncated(data).snippets| ==>
        |Truncated(data).snippets[i].code| <= MaxCodeLength + |Ellipsis|
  {
    var t := Truncated(data);
    if |data.snippets| > MaxSnippets {
      forall i | 0 <= i < |t.snippets|
        ensures |t.snippets[i].code| <= MaxCodeLength + |Ellipsis|
      {
        CapCodeBounded(data.snippets[i].code);
      }
    }
  }

  /** Truncating a truncated record changes nothing. */
  lemma TruncatedIdempotent(data: ActivityData)
    ensures Truncated(Truncated(data)) == Truncated(data)
  {
    var t := Truncated(data);
    var tt := Truncated(t);
    assert tt.snippets == t.snippets;
    assert tt.gitActivity == t.gitActivity;
  }

  /** A record already within the snippet, note and commit caps is returned as it is. */
  lemma TruncatedKeepsSmallRecords(data: ActivityData)
    requires |data.snippets| <= MaxSnippets
    requires data.notes.Some? ==> |data.notes.value| <= MaxNotes
    requires data.gitActivity.Some? ==> |data.gitActivity.value.commits| <= MaxCommits
    ensures Truncated(data) == data
  {
  }

  /**
   * `truncateActivityData(data)`, field by field on a copy. `truncated` is the
   * returned record; `callerData` is the caller's record afterwards, which
   * shares the copy's `gitActivity` object and so sees the cut commit list.
   */
  method TruncateActivityData(data: ActivityData) returns (truncated: ActivityData, callerData: ActivityData)
    ensures truncated == Truncated(data)
    ensures callerData == data.(gitActivity := truncated.gitActivity)
  {
    truncated := data;
    if |truncated.snippets| > MaxSnippets {
      var kept := truncated.snippets[..MaxSnippets];
      var capped: seq<ActivitySnippet> := [];
      for i := 0 to |kept|
        invariant |capped| == i
        invariant forall j :: 0 <= j < i ==> capped[j] == CapSnippet(kept[j])
      {
        capped := capped + [kept[i].(code := if |kept[i].code| > MaxCodeLength
                                                then kept[i].code[..MaxCodeLength] + Ellipsis
                                                else kept[i].code)];
      }
      truncated := truncated.(snippets := capped);
    }
    if truncated.notes.Some? && |truncated.notes.value| > MaxNotes {
      truncated := truncated.(notes := Some(truncated.notes.value[..MaxNotes]));
    }
    if truncated.gitActivity.Some? && |truncated.gitActivity.value.commits| > MaxCommits {
      var git := truncated.gitActivity.value;
      truncated := truncated.(gitActivity := Some(git.(commits := git.commits[..MaxCommits])));
    }
    callerData := data.(gitActivity := truncated.gitActivity);
  }

  /** The record `collectActivities` starts from. */
  const EmptyActivity: ActivityData :=
    ActivityData([], Some([]), Some([]), Some([]), Some(GitActivity([], [], [])))
}
