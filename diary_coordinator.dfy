/**
 * services/diary-coordinator.ts: the pipeline that collects the day's
 * activity, has the diary written, and publishes it.
 *
 * Every service the coordinator talks to is an outcome or a function given
 * as a parameter: the Pieces snapshot, `git log` and `git branch`, the
 * conversion of dates to ISO strings, the Gemini passes, the Markdown
 * renderer, the Notion and Gist clients and the Telegram bot. A thrown error
 * is an `Err` (or a `None` from a conversion). The current date, formatted as
 * `yyyy-MM-dd`, is the parameter `today`.
 */
module Coordinator {
  import opened Common
  import opened Activity
  import Pieces
  import Gemini
  import Telegram
  import DiaryText

  // ---------------------------------------------------------- construction

  datatype CoordinatorConfig = CoordinatorConfig(
    notionConfigured: bool,
    githubConfigured: bool,
    telegramConfig: Option<Telegram.TelegramConfig>,
    piecesConfigured: bool,
    repositoryPath: Option<string>)

  /** The services the constructor created; a missing one is `false` or `None`. */
  datatype DiaryCoordinator = DiaryCoordinator(
    hasNotion: bool,
    hasGithub: bool,
    telegram: Option<Telegram.TelegramService>,
    hasPieces: bool,
    hasGit: bool)

  /** The constructor: a service exists exactly when its configuration is
      given; git needs a non-empty repository path. */
  function NewDiaryCoordinator(config: CoordinatorConfig, isServer: bool, botLibraryLoaded: bool): (c: DiaryCoordinator)
    ensures c.hasNotion == config.notionConfigured && c.hasGithub == config.githubConfigured
    ensures c.hasPieces == config.piecesConfigured
    ensures c.telegram.Some? <==> config.telegramConfig.Some?
    ensures c.telegram.Some? ==> c.telegram.value == Telegram.NewTelegramService(config.telegramConfig.value, isServer, botLibraryLoaded)
    ensures c.hasGit <==> config.repositoryPath.Some? && config.repositoryPath.value != ""
  {
    DiaryCoordinator(
      config.notionConfigured,
      config.githubConfigured,
      if config.telegramConfig.Some?
      then Some(Telegram.NewTelegramService(config.telegramConfig.value, isServer, botLibraryLoaded))
      else None,
      config.piecesConfigured,
      config.repositoryPath.Some? && config.repositoryPath.value != "")
  }

  // --------------------------------------------------------------- readings

  /**
   * Two expressions the coordinator relies on do not do what they evidently
   * mean: `getTodaySnippets` reads `.iterable` off the array `getAllSnippets`
   * returns, and the Telegram summary's fallback is unreachable. `AsWritten`
   * runs the pipeline with the code as it stands, `Intended` with both
   * corrected.
   */
  datatype Reading = AsWritten | Intended

  /** Today's assets as the chosen reading of `getTodaySnippets` gives them. */
  function TodayAssets(reading: Reading, snapshot: Pieces.SnapshotResponse, midnight: int): seq<Pieces.Asset> {
    match reading
    case AsWritten => Pieces.GetTodaySnippetsAsWritten(snapshot, midnight)
    case Intended => Pieces.GetTodaySnippets(snapshot, midnight)
  }

  /** The notification summary of the chosen reading. */
  function SummaryOf(reading: Reading, markdown: string): string {
    match reading
    case AsWritten => DiaryText.SummaryAsWritten(markdown)
    case Intended => DiaryText.Summary(markdown)
  }

  /** The two readings differ on a diary without a blank line: as written it
      is summarised as "undefined...", as intended by the fallback text. */
  lemma OneBlockSummaries(markdown: string)
    requires |Split(markdown, DiaryText.BlockSeparator)| == 1
    ensures SummaryOf(AsWritten, markdown) == DiaryText.UndefinedSummary
    ensures SummaryOf(Intended, markdown) == DiaryText.SummaryFallback
  {
    DiaryText.SummaryFallbackUnreachable(markdown);
  }

  // ------------------------------------------------------------ collection

  /** One entry of `git log`. */
  datatype LogEntry = LogEntry(message: string, date: string)

  /** What the collection step reads from the outside world. */
  datatype CollectEnv = CollectEnv(
    snapshot: Pieces.SnapshotResponse,
    midnight: int,
    nowMillis: int,
    millisToIso: int -> Option<string>,
    today: string,
    gitLog: string -> Result<seq<LogEntry>>,
    dateToIso: string -> Option<string>,
    gitBranches: Result<seq<string>>)

  /** `gitLogs.all.map(...)`: each entry's message with its date as an ISO
      string; throws when some date is not a valid time. */
  function ConvertCommits(entries: seq<LogEntry>, dateToIso: string -> Option<string>): (r: Result<seq<Commit>>)
    ensures r.Ok? <==> forall i :: 0 <= i < |entries| ==> dateToIso(entries[i].date).Some?
    ensures r.Ok? ==>
      && |r.value| == |entries|
      && forall i :: 0 <= i < |entries| ==> r.value[i] == Commit(entries[i].message, dateToIso(entries[i].date).value)
    ensures r.Err? ==> r.message == Pieces.InvalidTime
  {
    if entries == [] then Ok([])
    else
      match dateToIso(entries[0].date)
      case None => Err(Pieces.InvalidTime)
      case Some(stamp) =>
        match ConvertCommits(entries[1..], dateToIso)
        case Err(m) => Err(m)
        case Ok(rest) =>
          assert forall i :: 1 <= i < |entries| ==> entries[i] == entries[1..][i - 1];
          Ok([Commit(entries[0].message, stamp)] + rest)
  }

  /** The snippet step: today's Pieces assets mapped to activity snippets. */
  function PiecesSnippets(env: CollectEnv, reading: Reading): Result<seq<ActivitySnippet>> {
    Pieces.TransformSnippets(TodayAssets(reading, env.snapshot, env.midnight), env.nowMillis, env.millisToIso)
  }

  /** The record `collectActivities` resolves to: the defaults, then the
      Pieces snippets, then the git activity, where the first thrown error
      ends the collection with the record as far as it got. */
  function Collected(c: DiaryCoordinator, env: CollectEnv, reading: Reading): ActivityData {
    var afterPieces: Option<ActivityData> :=
      if !c.hasPieces then Some(EmptyActivity)
      else match PiecesSnippets(env, reading)
        case Err(_) => None
        case Ok(snippets) => Some(EmptyActivity.(snippets := snippets));
    if afterPieces.None? then EmptyActivity
    else
      var a := afterPieces.value;
      if !c.hasGit then a
      else match env.gitLog(env.today)
        case Err(_) => a
        case Ok(entries) =>
          match ConvertCommits(entries, env.dateToIso)
          case Err(_) => a
          case Ok(commits) =>
            var git := GitActivity(commits, if env.gitBranches.Ok? then env.gitBranches.value else [], []);
            a.(gitActivity := Some(git))
  }

  /** `collectActivities`, which builds the record field by field and returns
      it from its `catch` as well. */
  method CollectActivities(c: DiaryCoordinator, env: CollectEnv, reading: Reading) returns (activities: ActivityData)
    ensures activities == Collected(c, env, reading)
  {
    activities := EmptyActivity;
    if c.hasPieces {
      var todaySnippets := TodayAssets(reading, env.snapshot, env.midnight);
      var transformed := Pieces.TransformSnippets(todaySnippets, env.nowMillis, env.millisToIso);
      if transformed.Err? {
        return;
      }
      activities := activities.(snippets := transformed.value);
    }
    if c.hasGit {
      var gitLogs := env.gitLog(env.today);
      if gitLogs.Err? {
        return;
      }
      var commits := ConvertCommits(gitLogs.value, env.dateToIso);
      if commits.Err? {
        return;
      }
      activities := activities.(gitActivity := Some(GitActivity(commits.value, [], [])));
      if env.gitBranches.Err? {
        return;
      }
      activities := activities.(gitActivity := Some(activities.gitActivity.value.(branches := env.gitBranches.value)));
    }
  }

  /** With neither Pieces nor git configured, the collected record is the all-empty default. */
  lemma CollectNothingConfigured(c: DiaryCoordinator, env: CollectEnv, reading: Reading)
    requires !c.hasPieces && !c.hasGit
    ensures Collected(c, env, reading) == EmptyActivity
  {
  }

  /** Notes, decisions, tasks and pull requests are never filled in by the collection. */
  lemma CollectLeavesOtherFieldsEmpty(c: DiaryCoordinator, env: CollectEnv, reading: Reading)
    ensures var a := Collected(c, env, reading);
      && a.notes == Some([]) && a.decisions == Some([]) && a.tasks == Some([])
      && a.gitActivity.Some? && a.gitActivity.value.pullRequests == []
  {
  }

  /** The snippets are today's Pieces assets in order, or none when Pieces is
      missing or the mapping throws. */
  lemma CollectSnippets(c: DiaryCoordinator, env: CollectEnv, reading: Reading)
    ensures c.hasPieces && PiecesSnippets(env, reading).Ok? ==>
      Collected(c, env, reading).snippets == PiecesSnippets(env, reading).value
    ensures !c.hasPieces || PiecesSnippets(env, reading).Err? ==> Collected(c, env, reading).snippets == []
  {
  }

  /** As written, the Pieces step contributes nothing and never throws: the
      record is the one collected without Pieces configured. */
  lemma CollectAsWrittenIgnoresPieces(c: DiaryCoordinator, env: CollectEnv)
    ensures PiecesSnippets(env, AsWritten) == Ok([])
    ensures Collected(c, env, AsWritten) == Collected(c.(hasPieces := false), env, Intended)
    ensures Collected(c, env, AsWritten).snippets == []
  {
    Pieces.TodayAsWrittenIsAlwaysEmpty(env.snapshot, env.midnight);
  }

  /** With Pieces configured and some asset of today in the snapshot, the
      intended collection records snippets that the written one loses. */
  lemma CollectAsWrittenLosesSnippets(c: DiaryCoordinator, env: CollectEnv)
    requires c.hasPieces && PiecesSnippets(env, Intended).Ok?
    requires Pieces.GetTodaySnippets(env.snapshot, env.midnight) != []
    ensures Collected(c, env, Intended).snippets != []
    ensures Collected(c, env, AsWritten).snippets == []
  {
    CollectAsWrittenIgnoresPieces(c, env);
  }

  /** A failure in the Pieces step ends the collection before git: the git
      activity keeps its defaults however git would have answered. */
  lemma CollectFailureBeforeGit(c: DiaryCoordinator, env: CollectEnv, reading: Reading)
    requires c.hasPieces && PiecesSnippets(env, reading).Err?
    ensures Collected(c, env, reading) == EmptyActivity
  {
  }

  /** The commits are recorded exactly when git is configured, nothing threw
      before, the log was read and every date converted; a failed branch
      listing then still keeps them, with no branches. */
  lemma CollectCommits(c: DiaryCoordinator, env: CollectEnv, reading: Reading)
    ensures var a := Collected(c, env, reading);
      var reached := c.hasGit && (!c.hasPieces || PiecesSnippets(env, reading).Ok?) && env.gitLog(env.today).Ok?;
      var commits := if reached then ConvertCommits(env.gitLog(env.today).value, env.dateToIso) else Err("");
      && (reached && commits.Ok? ==>
           && a.gitActivity.value.commits == commits.value
           && a.gitActivity.value.branches == (if env.gitBranches.Ok? then env.gitBranches.value else []))
      && (!(reached && commits.Ok?) ==> a.gitActivity == EmptyActivity.gitActivity)
  {
  }

  // ------------------------------------------------------------ generation

  datatype Diary = Diary(title: string, markdown: string, html: string)

  /** What the generation step hands to its collaborators. */
  datatype GenerateEnv = GenerateEnv(
    generate: ActivityData -> Result<string>,
    enhance: string -> Result<string>,
    render: string -> string,
    today: string)

  /** The message `generateDiary` throws: its prefix and the text `${error}` gives an `Error`. */
  function GenerateError(message: string): string {
    "Failed to generate diary: Error: " + message
  }

  /** The diary written from an activity record: the Gemini first pass (whose
      failure becomes the thrown error), the enhance pass, the HTML rendering
      of the enhanced text and its title. */
  function DiaryFrom(activities: ActivityData, env: GenerateEnv): (r: Result<Diary>)
    ensures env.generate(activities).Err? ==> r == Err(GenerateError(Gemini.GenerateFailure))
    ensures env.generate(activities).Ok? ==>
      var enhanced := Gemini.EnhanceDiaryContent(env.generate(activities).value, env.enhance);
      r == Ok(Diary(DiaryText.Title(enhanced, env.today), enhanced, env.render(enhanced)))
  {
    match Gemini.GenerateDiaryContent(activities, env.generate)
    case Err(m) => Err(GenerateError(m))
    case Ok(markdown) =>
      var enhanced := Gemini.EnhanceDiaryContent(markdown, env.enhance);
      Ok(Diary(DiaryText.Title(enhanced, env.today), enhanced, env.render(enhanced)))
  }

  /** The stored text, the HTML and the title all describe the same document. */
  lemma DiaryIsConsistent(activities: ActivityData, env: GenerateEnv)
    requires DiaryFrom(activities, env).Ok?
    ensures var d := DiaryFrom(activities, env).value;
      && d.html == env.render(d.markdown)
      && d.title == DiaryText.Title(d.markdown, env.today)
      && (env.enhance(env.generate(activities).value).Err? ==> d.markdown == env.generate(activities).value)
  {
  }

  /** `generateDiary(customActivities)`: the given record when there is one,
      otherwise a fresh collection. */
  method GenerateDiary(c: DiaryCoordinator, customActivities: Option<ActivityData>,
                       collectEnv: CollectEnv, env: GenerateEnv, reading: Reading)
    returns (r: Result<Diary>)
    ensures customActivities.Some? ==> r == DiaryFrom(customActivities.value, env)
    ensures customActivities.None? ==> r == DiaryFrom(Collected(c, collectEnv, reading), env)
  {
    var activities;
    if customActivities.Some? {
      activities := customActivities.value;
    } else {
      activities := CollectActivities(c, collectEnv, reading);
    }
    var diaryMarkdown := Gemini.GenerateDiaryContent(activities, env.generate);
    if diaryMarkdown.Err? {
      return Err(GenerateError(diaryMarkdown.message));
    }
    var enhancedDiary := Gemini.EnhanceDiaryContent(diaryMarkdown.value, env.enhance);
    var diaryHtml := env.render(enhancedDiary);
    var title := DiaryText.Title(enhancedDiary, env.today);
    r := Ok(Diary(title, enhancedDiary, diaryHtml));
  }

  // ------------------------------------------------------------ publishing

  datatype Gist = Gist(url: string, id: string)

  /** The fields of the results record that were set. */
  datatype PublishResults = PublishResults(notion: Option<string>, github: Option<Gist>, telegram: Option<bool>)

  datatype Destination = NotionPage | GithubGist | TelegramChat

  /** The calls made while publishing: the results and which destinations were called, in order. */
  datatype PublishRun = PublishRun(results: PublishResults, calls: seq<Destination>)

  datatype PublishEnv = PublishEnv(
    createEntry: (string, string, seq<string>) -> Result<string>,
    createGist: (string, string) -> Result<Gist>,
    deliver: Telegram.Outgoing -> bool)

  const NotionLinkTitle := "View in Notion"
  const GistLinkTitle := "View GitHub Gist"

  /** The links of the notification: one per destination that already succeeded, Notion first. */
  function LinksFor(results: PublishResults): (links: seq<Telegram.Link>)
    ensures |links| == (if results.notion.Some? then 1 else 0) + (if results.github.Some? then 1 else 0)
    ensures results.notion.Some? ==> links[0] == Telegram.Link(NotionLinkTitle, results.notion.value)
    ensures results.github.Some? ==> links[|links| - 1] == Telegram.Link(GistLinkTitle, results.github.value.url)
  {
    (if results.notion.Some? then [Telegram.Link(NotionLinkTitle, results.notion.value)] else [])
    + (if results.github.Some? then [Telegram.Link(GistLinkTitle, results.github.value.url)] else [])
  }

  /** The Telegram step on the results so far; the service catches its own errors. */
  function TelegramStep(svc: Telegram.TelegramService, diary: Diary, results: PublishResults, env: PublishEnv,
                        reading: Reading): bool {
    Telegram.SendDiarySummary(svc, diary.title, SummaryOf(reading, diary.markdown), LinksFor(results), env.deliver).returned
  }

  /** `publishDiary` as one expression: Notion, then the Gist, then Telegram,
      each only when configured; the first thrown error returns what was set. */
  function Published(c: DiaryCoordinator, diary: Diary, env: PublishEnv, reading: Reading): PublishRun {
    var tags := DiaryText.Hashtags(diary.markdown);
    var notion := if c.hasNotion then Some(env.createEntry(diary.title, diary.markdown, tags)) else None;
    if notion.Some? && notion.value.Err? then PublishRun(PublishResults(None, None, None), [NotionPage])
    else
      var r1 := PublishResults(if notion.Some? then Some(notion.value.value) else None, None, None);
      var calls1 := if c.hasNotion then [NotionPage] else [];
      var gist := if c.hasGithub then Some(env.createGist(diary.title, diary.markdown)) else None;
      if gist.Some? && gist.value.Err? then PublishRun(r1, calls1 + [GithubGist])
      else
        var r2 := r1.(github := if gist.Some? then Some(gist.value.value) else None);
        var calls2 := calls1 + (if c.hasGithub then [GithubGist] else []);
        if c.telegram.None? then PublishRun(r2, calls2)
        else PublishRun(r2.(telegram := Some(TelegramStep(c.telegram.value, diary, r2, env, reading))), calls2 + [TelegramChat])
  }

  /** `publishDiary`, filling the results record one destination at a time. */
  method PublishDiary(c: DiaryCoordinator, diary: Diary, env: PublishEnv, reading: Reading)
    returns (results: PublishResults, calls: seq<Destination>)
    ensures PublishRun(results, calls) == Published(c, diary, env, reading)
  {
    results := PublishResults(None, None, None);
    calls := [];
    if c.hasNotion {
      calls := calls + [NotionPage];
      var url := env.createEntry(diary.title, diary.markdown, DiaryText.Hashtags(diary.markdown));
      if url.Err? {
        return;
      }
      results := results.(notion := Some(url.value));
    }
    if c.hasGithub {
      calls := calls + [GithubGist];
      var gist := env.createGist(diary.title, diary.markdown);
      if gist.Err? {
        return;
      }
      results := results.(github := Some(gist.value));
    }
    if c.telegram.Some? {
      var summary := SummaryOf(reading, diary.markdown);
      var links: seq<Telegram.Link> := [];
      if results.notion.Some? {
        links := links + [Telegram.Link(NotionLinkTitle, results.notion.value)];
      }
      if results.github.Some? {
        links := links + [Telegram.Link(GistLinkTitle, results.github.value.url)];
      }
      assert links == LinksFor(results);
      calls := calls + [TelegramChat];
      var success := Telegram.SendDiarySummary(c.telegram.value, diary.title, summary, links, env.deliver);
      results := results.(telegram := Some(success.returned));
    }
  }

  function Rank(d: Destination): nat {
    match d
    case NotionPage => 0
    case GithubGist => 1
    case TelegramChat => 2
  }

  predicate Configured(c: DiaryCoordinator, d: Destination) {
    match d
    case NotionPage => c.hasNotion
    case GithubGist => c.hasGithub
    case TelegramChat => c.telegram.Some?
  }

  /** Only configured destinations are called, each at most once, in the
      order Notion, Gist, Telegram; a result is set only for a destination
      that was called. */
  lemma PublishOrder(c: DiaryCoordinator, diary: Diary, env: PublishEnv, reading: Reading)
    ensures var run := Published(c, diary, env, reading);
      && (forall i :: 0 <= i < |run.calls| ==> Configured(c, run.calls[i]))
      && (forall i, j :: 0 <= i < j < |run.calls| ==> Rank(run.calls[i]) < Rank(run.calls[j]))
      && (run.results.notion.Some? ==> NotionPage in run.calls)
      && (run.results.github.Some? ==> GithubGist in run.calls)
      && (run.results.telegram.Some? ==> TelegramChat in run.calls)
  {
    var run := Published(c, diary, env, reading);
    var n := c.hasNotion;
    var notionOk := !n || env.createEntry(diary.title, diary.markdown, DiaryText.Hashtags(diary.markdown)).Ok?;
    var g := notionOk && c.hasGithub;
    var gistOk := !c.hasGithub || env.createGist(diary.title, diary.markdown).Ok?;
    var t := notionOk && gistOk && c.telegram.Some?;
    assert run.calls == CallSequence(n, g, t);
    CallSequenceRanked(n, g, t);
  }

  /** The destinations called, when each flag says whether it was reached. */
  function CallSequence(notion: bool, gist: bool, telegram: bool): seq<Destination> {
    (if notion then [NotionPage] else []) + (if gist then [GithubGist] else []) + (if telegram then [TelegramChat] else [])
  }

  lemma CallSequenceRanked(notion: bool, gist: bool, telegram: bool)
    ensures var cs := CallSequence(notion, gist, telegram);
      && (forall i, j :: 0 <= i < j < |cs| ==> Rank(cs[i]) < Rank(cs[j]))
      && (forall d :: d in cs <==> (d == NotionPage && notion) || (d == GithubGist && gist) || (d == TelegramChat && telegram))
  {
  }

  /** Each result is set exactly when its destination is configured, every
      configured destination before it returned, and its own call returned. */
  lemma PublishResultsSet(c: DiaryCoordinator, diary: Diary, env: PublishEnv, reading: Reading)
    ensures var r := Published(c, diary, env, reading).results;
      var notionOk := !c.hasNotion || env.createEntry(diary.title, diary.markdown, DiaryText.Hashtags(diary.markdown)).Ok?;
      var gistOk := !c.hasGithub || env.createGist(diary.title, diary.markdown).Ok?;
      && (r.notion.Some? <==> c.hasNotion && notionOk)
      && (r.github.Some? <==> c.hasGithub && notionOk && gistOk)
      && (r.telegram.Some? <==> c.telegram.Some? && notionOk && gistOk)
      && (r.notion.Some? ==> r.notion.value == env.createEntry(diary.title, diary.markdown, DiaryText.Hashtags(diary.markdown)).value)
      && (r.github.Some? ==> r.github.value == env.createGist(diary.title, diary.markdown).value)
  {
  }

  /** A failing Notion call stops everything after it. */
  lemma NotionFailureStopsPublishing(c: DiaryCoordinator, diary: Diary, env: PublishEnv, reading: Reading)
    requires c.hasNotion && env.createEntry(diary.title, diary.markdown, DiaryText.Hashtags(diary.markdown)).Err?
    ensures Published(c, diary, env, reading) == PublishRun(PublishResults(None, None, None), [NotionPage])
  {
  }

  /** The notification carries the diary title, its summary, and links to
      exactly the earlier destinations that succeeded. */
  lemma TelegramGetsEarlierLinks(c: DiaryCoordinator, diary: Diary, env: PublishEnv, reading: Reading)
    requires Published(c, diary, env, reading).results.telegram.Some?
    ensures var r := Published(c, diary, env, reading).results;
      var links := LinksFor(r.(telegram := None));
      && r.telegram.value == Telegram.SendDiarySummary(c.telegram.value, diary.title, SummaryOf(reading, diary.markdown), links, env.deliver).returned
      && (r.notion.Some? ==> Telegram.Link(NotionLinkTitle, r.notion.value) in links)
      && (|links| > 0 ==> r.notion.Some? || r.github.Some?)
  {
  }

  /** The two readings make the same calls and get the same Notion and Gist
      results; only the Telegram message can differ. */
  lemma ReadingsPublishAlike(c: DiaryCoordinator, diary: Diary, env: PublishEnv)
    ensures var w, i := Published(c, diary, env, AsWritten), Published(c, diary, env, Intended);
      && w.calls == i.calls
      && w.results.notion == i.results.notion && w.results.github == i.results.github
      && w.results.telegram.Some? == i.results.telegram.Some?
  {
  }

  /** As written, a diary without a blank line is announced with the summary
      "undefined...": the bot is handed exactly that message. */
  lemma AsWrittenAnnouncesUndefined(c: DiaryCoordinator, diary: Diary, env: PublishEnv)
    requires Published(c, diary, env, AsWritten).results.telegram.Some?
    requires |Split(diary.markdown, DiaryText.BlockSeparator)| == 1
    ensures var r := Published(c, diary, env, AsWritten).results;
      var svc := c.telegram.value;
      var text := Telegram.DiaryMessage(diary.title, DiaryText.UndefinedSummary, LinksFor(r.(telegram := None)));
      r.telegram.value <==> Telegram.Available(svc) && env.deliver(Telegram.Outgoing(svc.chatId, text))
  {
    OneBlockSummaries(diary.markdown);
    TelegramGetsEarlierLinks(c, diary, env, AsWritten);
  }

  // -------------------------------------------------------------- workflow

  datatype Created = Created(diary: Diary, publishResults: PublishResults)

  /** `createAndPublishDiary`: collect once, write the diary from that record,
      publish it; a generation failure is thrown to the caller. */
  method CreateAndPublishDiary(c: DiaryCoordinator, collectEnv: CollectEnv, genEnv: GenerateEnv, pubEnv: PublishEnv,
                               reading: Reading)
    returns (r: Result<Created>)
    ensures var a := Collected(c, collectEnv, reading);
      DiaryFrom(a, genEnv).Err? ==> r == Err(DiaryFrom(a, genEnv).message)
    ensures var a := Collected(c, collectEnv, reading);
      DiaryFrom(a, genEnv).Ok? ==>
      var d := DiaryFrom(a, genEnv).value;
      r == Ok(Created(d, Published(c, d, pubEnv, reading).results))
  {
    var activities := CollectActivities(c, collectEnv, reading);
    var diary := GenerateDiary(c, Some(activities), collectEnv, genEnv, reading);
    if diary.Err? {
      return Err(diary.message);
    }
    var publishResults, calls := PublishDiary(c, diary.value, pubEnv, reading);
    r := Ok(Created(diary.value, publishResults));
  }
}
