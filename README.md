# dev-diary in Dafny

A model of the core of dev-diary, a tool that writes a developer's daily
diary. It collects the day's code snippets (from Pieces) and git commits,
has an AI backend (Gemini or OpenAI) write and polish a Markdown diary, and
publishes the result to Notion, a GitHub Gist and a Telegram chat. The model
covers:

- the language detector `detectLanguage` (`language_detection.dfy`, module
  `LanguageDetection`): the literal-prefix fast path, the keyword and pattern
  scores over the 14-language table, the TypeScript bonus, the JSON
  confirm-or-zero step, the first-maximum choice and the `> 2` threshold;
- the clipboard watcher (`clipboard_service.dfy`, module `Clipboard`): a
  class with the fields `isListening`, `lastCopiedText` and the ordered
  listener list, the "looks like code" gate, snippet synthesis and the
  dispatch to listeners, and the shared instance of `getInstance`;
- the activity record and its truncation, shared by both AI backends
  (`activity.dfy`, module `Activity`), the Gemini failure contracts
  (`gemini_service.dfy`) and the OpenAI token threshold and fallbacks
  (`openai_service.dfy`);
- the Pieces transforms (`pieces_service.dfy`): the "today" filter, the map
  into activity snippets with their defaults, and the statistics of
  `analyzeSnippets` with the top-10 tags;
- the Telegram notification (`telegram_service.dfy`): availability, the
  error contract, link rendering and the message template;
- the diary text rules of the coordinator (`diary_text.dfy`): the title
  from the first `# ` heading, the `#hashtag` list and the notification
  summary;
- the coordinator (`diary_coordinator.dfy`): construction, collection,
  generation, publishing and the complete workflow;
- the recent-activity list updaters and the snippet filter of the dashboard
  (`dashboard.dfy`).

Every service the code talks to is a parameter. These services are the AI
backends, the Notion and Gist clients, the Telegram bot, `git`, the Pieces
HTTP snapshot, the Markdown renderer and the clock. A call that can throw
returns a `Result`, and a thrown error becomes an `Err`. The regular
expressions of the detector and the clipboard gate, and `JSON.parse`, are
abstract predicates of an `Engine` value. The literal string operations
(`includes`, `startsWith`, `trim`, `toLowerCase`, `split`, `join`,
`substring`, `||` on strings) are written out in module `Common`. Two
departures from JavaScript are listed under "## Left out": a string is a
sequence of characters (code points), so `length` and `substring` count
characters, not UTF-16 code units; and `toLowerCase` maps only the ASCII
letters.

Two expressions of the coordinator do not do what they evidently mean (see
"## Findings"). The coordinator is therefore modelled under both readings,
`Coordinator.Reading`: `AsWritten` runs the code as it stands, and
`Intended` runs it with both expressions corrected. Lemmas state how the two
differ.

Where the code builds its result step by step, the model has a method with
loops or early returns. Each such method is proved equal to a function, and
the properties are lemmas about that function. This covers:

- the scoring loops of `detectLanguage`;
- the listener registry;
- the counters of `analyzeSnippets`;
- the record built by `collectActivities`;
- the results record of `publishDiary`.

## Model

| member | source | states |
|---|---|---|
| LanguageDetection.SignatureNamesPlaced | lib/utils.ts:17-244 | the table has 14 entries, and JavaScript, TypeScript and JSON are at the indexes the later steps use |
| LanguageDetection.SignatureNamesProper | lib/utils.ts:17-244 | no table entry is named "Unknown" or the empty string, so a detected name cannot be mistaken for the threshold result |
| LanguageDetection.SignatureJsonOnce | lib/utils.ts:17-244 | only one entry is named JSON |
| LanguageDetection.SignaturesWellFormed | lib/utils.ts:17-244 | the table meets the well-formedness the generic detector assumes |
| LanguageDetection.BaseScores | lib/utils.ts:252-274 | one score per table entry, in table order, each the score of that entry's own signals |
| LanguageDetection.BaseScoreCountsSignals | lib/utils.ts:260-274 | a score is the number of distinct keywords contained in the lowered text plus twice the number of patterns that match; a keyword counts once however often it occurs |
| LanguageDetection.PatternHitsCountsPositions | lib/utils.ts:269-273 | the pattern count is the number of patterns that match |
| LanguageDetection.WithTypeScriptBonus | lib/utils.ts:279-283 | TypeScript gains exactly 2 when the JavaScript and TypeScript scores are both positive and the annotation pattern matches the lowered text; no other score changes |
| LanguageDetection.WithJsonCheck | lib/utils.ts:286-293 | a positive JSON score gains 5 when the raw text parses and otherwise becomes 0; a zero score stays 0; no other score changes; a positive final JSON score implies the text parses |
| LanguageDetection.MaxScore | lib/utils.ts:296-304 | an upper bound of the scores that one of them reaches when it is positive |
| LanguageDetection.FirstIndex | lib/utils.ts:299-304 | the first index holding a value, and no earlier index holds it |
| LanguageDetection.FirstIndexIsLeast | lib/utils.ts:299-304 | the first index found is the least one with that value |
| LanguageDetection.Detect | lib/utils.ts:17-307 | the result is never empty and is XML, HTML, PHP, "Unknown" or a table name |
| LanguageDetection.DetectIn | lib/utils.ts:247-307 | the same for any well-formed table |
| LanguageDetection.FastPathIgnoresScoring | lib/utils.ts:247-249 | a text whose trimmed, lowered form starts with `<?xml`, `<!doctype html` or `<?php` is XML, HTML or PHP in that priority, whatever the patterns and the JSON parser say |
| LanguageDetection.JsonWinsOnlyWhenValid | lib/utils.ts:286-307 | a JSON result means the raw text parses and its final score is over 2 |
| LanguageDetection.JsonLabelNeedsValidJson | lib/utils.ts:286-307 | the same for any well-formed table |
| LanguageDetection.DetectIsFirstMaximum | lib/utils.ts:296-307 | the result is "Unknown" exactly when every final score is at most 2; otherwise it names an entry whose score is the maximum and which is strictly above every earlier entry |
| LanguageDetection.FirstMaximumIn | lib/utils.ts:296-307 | the same for any well-formed table |
| LanguageDetection.DetectLanguage | lib/utils.ts:12-308 | the imperative detector returns the label of the specification above |
| LanguageDetection.DetectLanguageIn | lib/utils.ts:12-308 | the same, over any well-formed table |
| LanguageDetection.ScoreSignatures | lib/utils.ts:252-274 | the nested counting loops produce the base scores |
| LanguageDetection.HighestScoring | lib/utils.ts:296-304 | the arg-max loop ends with the maximum score and, when that is positive, the first language reaching it |
| LanguageDetection.AdjustScores | lib/utils.ts:279-293 | the two in-place adjustments are the TypeScript bonus followed by the JSON check |
| Clipboard.Presence | services/clipboard-service.ts:137-155 | one flag per substring indicator, set exactly when the text contains it |
| Clipboard.CountTrue | services/clipboard-service.ts:150-155 | the count of true flags is at most the number of indicators |
| Clipboard.CountTrueAppend | services/clipboard-service.ts:150-155 | counting distributes over concatenated indicator lists |
| Clipboard.KeywordHitsIsCountTrue | services/clipboard-service.ts:150-155 | counting the true presence flags equals counting the contained keywords |
| Clipboard.LooksLikeCode | services/clipboard-service.ts:133-159 | true exactly when the length is within 10..10000 and at least 2 of the 24 indicators hold (22 substrings, the indentation pattern, more than 2 lines) |
| Clipboard.ExternalId | services/clipboard-service.ts:118 | the id is `external-` followed by the decimal digits of the clock reading, which read back to that reading |
| Clipboard.ExternalSnippet | services/clipboard-service.ts:116-126 | the snippet carries the text as code, the detected language (which is never empty), the tags [lower-cased language, "external"], the project "External Source" and the source "External Clipboard", an id from the clock and the ISO timestamp, and is not enriched |
| Clipboard.Broadcast | services/clipboard-service.ts:129 | each listener is called once, in list order, with the same snippet |
| Clipboard.Notify | services/clipboard-service.ts:129 | the notification loop dispatches the snippet to every listener, in list order |
| Clipboard.ClipboardService.constructor | services/clipboard-service.ts:27-38 | not listening, no last text, and the `onSnippetCopied` callback as the only listener when it is given |
| Clipboard.ClipboardService.Start | services/clipboard-service.ts:49-62 | starting when already listening, or without a window, leaves the state unchanged; otherwise it sets `isListening` |
| Clipboard.ClipboardService.Stop | services/clipboard-service.ts:65-74 | stopping when not listening, or without a window, leaves the state unchanged; otherwise it clears `isListening` |
| Clipboard.ClipboardService.AddListener | services/clipboard-service.ts:77-79 | the listener is appended and nothing else changes |
| Clipboard.ClipboardService.RemoveListener | services/clipboard-service.ts:82-84 | every entry equal to the listener is removed, the others keep their order, and nothing else changes |
| Clipboard.ClipboardService.ProcessClipboardContent | services/clipboard-service.ts:109-130 | a repeated or non-code text changes nothing and calls no listener; an accepted text becomes `lastCopiedText` and is sent to every listener in order; afterwards the same text is never accepted again |
| Clipboard.ClipboardService.HandlePaste | services/clipboard-service.ts:101-106 | a paste without text or with the empty text is ignored; otherwise it is processed as above |
| Clipboard.ClipboardService.CheckClipboardOnFocus | services/clipboard-service.ts:87-98 | the clipboard is read only while the page is visible and the API exists; a failed read is ignored; otherwise the text is processed as above |
| Clipboard.ClipboardRegistry.constructor | services/clipboard-service.ts:26 | no shared instance yet |
| Clipboard.ClipboardRegistry.GetInstance | services/clipboard-service.ts:41-46 | the first call creates a fresh service without options; every later call returns that same object |
| Clipboard.GetInstanceTwice | services/clipboard-service.ts:41-46 | two calls return the same object |
| Activity.CapCode | services/gemini-service.ts:101 | code of at most 1000 characters is kept; longer code becomes its first 1000 characters followed by `...` |
| Activity.CapCodeBounded | services/gemini-service.ts:101 | capped code has at most 1003 characters |
| Activity.Truncated | services/gemini-service.ts:94-115 | more than 5 snippets become the first 5 with capped code and all other snippet fields unchanged, and 5 or fewer are untouched; notes and commits are cut to 10 only when longer; decisions, tasks, branches and pull requests are unchanged |
| Activity.TruncatedWithinCaps | services/gemini-service.ts:98-112 | after truncation there are at most 5 snippets, 10 notes and 10 commits; when truncation happened, every code has at most 1003 characters |
| Activity.TruncatedIdempotent | services/gemini-service.ts:94-115 | truncating twice gives the same record as truncating once |
| Activity.TruncatedKeepsSmallRecords | services/gemini-service.ts:98-112 | a record already within the caps is returned unchanged |
| Activity.TruncateActivityData | services/gemini-service.ts:94-115 | the imperative copy-and-reassign returns the truncated record, and the caller's record now shares the truncated git activity (the shallow copy) |
| Gemini.GenerateDiaryContent | services/gemini-service.ts:32-89 | the backend's text on success; on failure the fixed error "Failed to generate diary content" |
| Gemini.EnhanceDiaryContent | services/gemini-service.ts:120-172 | the enhanced text on success; the input unchanged on failure |
| OpenAI.ThresholdMatchesSeventyPercent | services/openai-service.ts:24-38 | for every token count, exceeding the integer threshold 11200 is the same as exceeding 0.7 × 16000 |
| OpenAI.ContentOr | services/openai-service.ts:70-134 | the response content when it is present and non-empty, the fallback otherwise |
| OpenAI.GenerateDiaryContent | services/openai-service.ts:33-100 | the record sent is truncated exactly when the token count exceeds 11200, and is then within the caps; the caller's record then shares the cut `gitActivity` (the shallow copy), and is unchanged otherwise; the result is the content, the fixed message for empty or missing content, or the fixed error when the call fails; it is never empty |
| OpenAI.EnhanceDiaryContent | services/openai-service.ts:106-135 | the new content when it is present and non-empty; the original diary when the content is empty or missing and when the call fails |
| Pieces.FindValue | services/pieces-service.ts:139 | the value of the first custom entry with the key, or none when no entry has that key |
| Pieces.FilterToday | services/pieces-service.ts:118-124 | exactly the assets created or updated at or after midnight (a missing time counts as 0) |
| Pieces.FilterTodayAppend | services/pieces-service.ts:119 | the filter keeps the order: it works piece by piece |
| Pieces.GetAllSnippets | services/pieces-service.ts:93-104 | the snapshot's assets, and the empty list when the request fails or the snapshot has none (corrected; see Findings) |
| Pieces.GetTodaySnippets | services/pieces-service.ts:109-131 | exactly today's assets of the snapshot, and nothing when the request fails (corrected; see Findings) |
| Pieces.GetAllSnippetsAsWritten | services/pieces-service.ts:92-105 | as written, a successful snapshot with assets yields the bare asset array rather than a wrapper object; a failure or a response without assets yields the wrapper `{ iterable: [] }` |
| Pieces.TodayAsWrittenIsAlwaysEmpty | services/pieces-service.ts:99-130 | as written, `getTodaySnippets` always resolves to the empty list |
| Pieces.TodayAsWrittenLosesSnippet | services/pieces-service.ts:99-130 | a snapshot with one asset created today yields that asset when corrected and nothing as written |
| Pieces.TagTexts | services/pieces-service.ts:144 | one text per tag, with `''` for a tag without one, and no texts without tags |
| Pieces.TransformSnippets | services/pieces-service.ts:136-149 | one snippet per asset in order, or the error thrown when some asset's time cannot be converted |
| Pieces.SnippetDefaults | services/pieces-service.ts:138-146 | the defaults: code `''`, language `text`, project `Unknown` for a missing or empty project; language and project are never empty |
| Pieces.LanguagesOf | services/pieces-service.ts:167 | the language of every asset, in order |
| Pieces.ProjectsOf | services/pieces-service.ts:171 | the project of every asset, in order |
| Pieces.CountedTags | services/pieces-service.ts:178-181 | the counted tags of one asset are never empty |
| Pieces.AllCountedTags | services/pieces-service.ts:177-183 | the counted tags of all assets are never empty |
| Pieces.CountPositive | services/pieces-service.ts:168-180 | a value that occurs is counted at least once |
| Pieces.Tally | services/pieces-service.ts:166-183 | the dictionary has exactly the values that occur, each mapped to its number of occurrences |
| Pieces.FirstSeen | services/pieces-service.ts:186 | the distinct values, in order of first occurrence (the insertion order of the dictionary) |
| Pieces.TallySumsToLength | services/pieces-service.ts:166-173 | the counts add up to the number of values counted, so language counts and project counts each add up to the number of snippets |
| Pieces.TallyStep | services/pieces-service.ts:166-183 | counting one more value bumps its entry (or creates it at 1) and leaves the others |
| Pieces.FirstSeenStep | services/pieces-service.ts:166-183 | one more value appends a new key and leaves the order unchanged otherwise |
| Pieces.Insert | services/pieces-service.ts:187 | the insertion keeps every entry and adds the new one |
| Pieces.SortByCount | services/pieces-service.ts:187 | the sort is a permutation of the entries |
| Pieces.InsertSorted | services/pieces-service.ts:187 | inserting a later entry into a sorted list keeps it sorted by count, ties in first-seen order |
| Pieces.SortByCountSorted | services/pieces-service.ts:187 | the sort orders by non-increasing count, ties in first-seen order (a stable sort) |
| Pieces.TopTags | services/pieces-service.ts:186-189 | at most 10 tags |
| Pieces.TopTagsRanked | services/pieces-service.ts:186-189 | the top tags are min(10, number of tags) distinct tags in non-increasing count order, and every tag left out counts no more than any tag kept |
| Pieces.AnalyzeSnippets | services/pieces-service.ts:154-192 | the counting loops produce the language, project and tag tallies and the top tags; language and project counts each sum to the number of snippets |
| Pieces.CountLanguagesAndProjects | services/pieces-service.ts:166-173 | the first loop yields the language and project tallies |
| Pieces.CountTags | services/pieces-service.ts:176-183 | the tag loops yield the tally of the non-empty tag texts and their first-seen order |
| Pieces.CountAssetTags | services/pieces-service.ts:178-182 | the inner loop extends the tally and the order by one asset's counted tags |
| Pieces.AnalysisTopTagsRanked | services/pieces-service.ts:176-189 | the top tags of an analysis are distinct, non-empty, occurring tags ranked by their number of occurrences, and no tag left out occurs more often than one kept |
| Telegram.NewTelegramService | services/telegram-service.ts:20-28 | the service keeps the chat id, and it has a bot exactly when it runs on the server and the library was loaded |
| Telegram.SendMessage | services/telegram-service.ts:33-49 | without the server or a bot it returns false and sends nothing; otherwise it sends the message to the chat and returns whether the send completed |
| Telegram.FormatLink | services/telegram-service.ts:61 | `[title](url)`: the brackets, the title and the url at their places |
| Telegram.FormatLinks | services/telegram-service.ts:61 | one rendered link per link, in order |
| Telegram.SendDiarySummary | services/telegram-service.ts:54-82 | the same availability and error contract, sending the diary message built from the title, the summary and the links |
| Telegram.FormatLinkSingleLine | services/telegram-service.ts:61 | a link whose title and url have no line break renders on one line |
| Telegram.LinksTextLines | services/telegram-service.ts:61 | splitting the links text on line breaks gives back the rendered links, in input order |
| Telegram.JoinAppend | services/telegram-service.ts:61 | joining two lists puts the separator between their joined texts |
| Telegram.MessageIsJoinedLines | services/telegram-service.ts:63-70 | the message is the lines blank, `*title*`, blank, summary, blank, `*Links:*`, the links (one empty line when there are none), and a final empty line, joined by line breaks |
| Telegram.MessageReadsBack | services/telegram-service.ts:61-70 | with a one-line title, summary and links, splitting the message on line breaks recovers exactly those lines |
| DiaryText.WhitespaceRun | services/diary-coordinator.ts:138 | the whitespace run a greedy `\s+` first takes stops at the end of the text or at a character that is not whitespace |
| DiaryText.WhitespaceRunCovers | services/diary-coordinator.ts:138 | every character of that run is whitespace |
| DiaryText.LineLength | services/diary-coordinator.ts:138 | the part of the line a greedy `.+` followed by `$` takes stops at a line terminator or the end, and is non-empty when the first character is not a terminator |
| DiaryText.LineLengthCovers | services/diary-coordinator.ts:138 | no character of that part is a line terminator |
| DiaryText.BacktrackKeeps | services/diary-coordinator.ts:138 | when `\s+` gives characters back, it keeps at least one and is followed by a character other than a line terminator |
| DiaryText.BacktrackSkipsTerminators | services/diary-coordinator.ts:138 | every position given back holds a line terminator, and when backtracking fails every position of the run does |
| DiaryText.MatchWithinRun | services/diary-coordinator.ts:138 | the capture of any match starts inside the whitespace run after `#`, on a non-terminator |
| DiaryText.MatchEndsAtLineEnd | services/diary-coordinator.ts:138 | a capture runs to the end of its line |
| DiaryText.HeadingAfterRun | services/diary-coordinator.ts:138 | `#` at a line start, part of its whitespace run, then a character of the line is a match of `^#\s+(.+)$` in multiline mode |
| DiaryText.NoMatchBeyond | services/diary-coordinator.ts:138 | no match keeps whitespace past a point after which the run holds only line terminators |
| DiaryText.BacktrackIsLongest | services/diary-coordinator.ts:138 | no match at that `#` keeps more whitespace than the backtracking result |
| DiaryText.BacktrackIsGreedy | services/diary-coordinator.ts:138 | the backtracking result is the greedy match at that `#` |
| DiaryText.MatchAtSound | services/diary-coordinator.ts:138 | a result at a position is the capture of the greedy match there |
| DiaryText.MatchAtComplete | services/diary-coordinator.ts:138 | every position holding a match yields a result |
| DiaryText.FirstMatchIndex | services/diary-coordinator.ts:138 | the leftmost position from a start where the attempt succeeds, or the end of the text; no earlier position succeeds |
| DiaryText.Title | services/diary-coordinator.ts:138-139 | the fallback `Dev Diary - ` + date when no line matches; otherwise the capture of the greedy match at the leftmost position where any match starts |
| DiaryText.TitleMatchIsLeftmost | services/diary-coordinator.ts:138 | a found title comes from the leftmost matching position |
| DiaryText.FallbackIffNoHeading | services/diary-coordinator.ts:138-139 | the fallback title is used exactly when no heading matches anywhere |
| DiaryText.DoubleHashNeverMatches | services/diary-coordinator.ts:138 | a line starting `##` never matches |
| DiaryText.LeadingHeadingIsTitle | services/diary-coordinator.ts:138-139 | a diary starting `# ` + a one-line title has that title |
| DiaryText.TagRun | services/diary-coordinator.ts:173 | the longest run of letters, digits, `-` and `_` from a position |
| DiaryText.Scan | services/diary-coordinator.ts:173 | every extracted tag is a non-empty word of tag characters |
| DiaryText.NoHashNoTags | services/diary-coordinator.ts:173 | a text without `#` has no tags |
| DiaryText.TagRunExact | services/diary-coordinator.ts:173 | the run stops at the first character that is not a tag character |
| DiaryText.HashtagsOfWord | services/diary-coordinator.ts:173 | a leading `#word` followed by a space yields that word, then the tags of the rest |
| DiaryText.TagLineRoundTrip | services/diary-coordinator.ts:173 | writing tag words as `#w` separated by spaces and extracting the tags returns the same words, in order, duplicates kept |
| DiaryText.SummaryFallbackUnreachable | services/diary-coordinator.ts:191 | as written, the summary is never the fallback "Developer diary created"; without a second block it is "undefined..." |
| DiaryText.NoBlockBreak | services/diary-coordinator.ts:191 | a text without line breaks is a single block |
| DiaryText.FirstBlockBreak | services/diary-coordinator.ts:191 | the first block ends at the first blank-line separator |
| DiaryText.OneLineSummaryAsWritten | services/diary-coordinator.ts:191 | as written, a one-line diary gets the summary "undefined..." |
| DiaryText.Summary | services/diary-coordinator.ts:191 | corrected: the first 200 characters of the second block followed by `...` when there is a second block, the fallback otherwise; at most 203 characters |
| DiaryText.FirstBlockOf | services/diary-coordinator.ts:191 | a line followed by a blank line or by nothing is the first block |
| DiaryText.SummaryOfSecondLine | services/diary-coordinator.ts:191 | for a diary of a line, a blank line and a line, the summary is the first 200 characters of that second line followed by `...` |
| Coordinator.NewDiaryCoordinator | services/diary-coordinator.ts:40-64 | each service exists exactly when its configuration is given, and git exactly when the repository path is non-empty |
| Coordinator.ConvertCommits | services/diary-coordinator.ts:96-99 | one commit per log entry with its message and ISO date, or the thrown error when some date is invalid |
| Coordinator.OneBlockSummaries | services/diary-coordinator.ts:191 | for a diary without a blank line, the as-written summary is "undefined..." and the intended one is the fallback text |
| Coordinator.CollectActivities | services/diary-coordinator.ts:69-114 | under either reading, the record built field by field, returned as far as it got when something throws |
| Coordinator.CollectNothingConfigured | services/diary-coordinator.ts:70-109 | with neither Pieces nor git, the all-empty default record |
| Coordinator.CollectLeavesOtherFieldsEmpty | services/diary-coordinator.ts:70-80 | notes, decisions, tasks and pull requests are always empty |
| Coordinator.CollectSnippets | services/diary-coordinator.ts:84-87 | the snippets are today's Pieces snippets, or none when Pieces is missing or the mapping throws |
| Coordinator.CollectAsWrittenIgnoresPieces | services/diary-coordinator.ts:82-87 | as written, the Pieces step gives no snippets and never throws, so the record is the one collected without Pieces |
| Coordinator.CollectAsWrittenLosesSnippets | services/diary-coordinator.ts:82-87 | with Pieces configured and an asset of today, the intended record has snippets and the as-written one has none |
| Coordinator.CollectFailureBeforeGit | services/diary-coordinator.ts:82-113 | a Pieces failure returns the defaults; git is never consulted |
| Coordinator.CollectCommits | services/diary-coordinator.ts:90-107 | commits are recorded exactly when git is configured, nothing threw before and every date converted; a failed branch listing keeps them with no branches |
| Coordinator.DiaryFrom | services/diary-coordinator.ts:124-149 | a first-pass failure becomes the thrown error; otherwise the markdown is the enhanced text, the html is its rendering and the title is the one extracted from it |
| Coordinator.DiaryIsConsistent | services/diary-coordinator.ts:129-145 | the html renders the stored markdown, the title is that markdown's title, and a failed enhance pass keeps the first draft |
| Coordinator.GenerateDiary | services/diary-coordinator.ts:119-150 | the given activities are used when present; otherwise they are collected |
| Coordinator.LinksFor | services/diary-coordinator.ts:194-196 | a Notion link when Notion succeeded, then a Gist link when the Gist succeeded |
| Coordinator.PublishDiary | services/diary-coordinator.ts:155-212 | the imperative publisher produces the results and the call sequence of the publishing specification |
| Coordinator.PublishOrder | services/diary-coordinator.ts:166-205 | only configured destinations are called, at most once each, in the order Notion, Gist, Telegram, and a result is set only for a destination that was called |
| Coordinator.CallSequenceRanked | services/diary-coordinator.ts:166-205 | the destinations reached are in strictly increasing order and are exactly those reached |
| Coordinator.PublishResultsSet | services/diary-coordinator.ts:166-211 | each result is set exactly when its destination is configured and every earlier configured call returned, and holds what its own call returned |
| Coordinator.NotionFailureStopsPublishing | services/diary-coordinator.ts:166-211 | a failed Notion call returns no results and calls nothing else |
| Coordinator.TelegramGetsEarlierLinks | services/diary-coordinator.ts:189-204 | the notification carries the title, the summary and links to exactly the earlier destinations that succeeded |
| Coordinator.ReadingsPublishAlike | services/diary-coordinator.ts:166-205 | both readings make the same calls and get the same Notion and Gist results |
| Coordinator.AsWrittenAnnouncesUndefined | services/diary-coordinator.ts:189-204 | as written, a diary without a blank line is announced with the summary "undefined...": the bot gets exactly that message |
| Coordinator.CreateAndPublishDiary | services/diary-coordinator.ts:217-238 | collect once, write the diary from that record and publish it; a generation failure reaches the caller |
| Dashboard.WithoutId | components/dev-diary-dashboard.tsx:441 | exactly the entries with another id |
| Dashboard.Newest | components/dev-diary-dashboard.tsx:450 | the first n entries, or all when there are fewer |
| Dashboard.Stamped | components/dev-diary-dashboard.tsx:445-448 | the same snippet with the fresh timestamp |
| Dashboard.RecordCopy | components/dev-diary-dashboard.tsx:439-451 | the copied snippet with a fresh timestamp first, then older entries with another id; at most 5 entries |
| Dashboard.RecordCopyKeepsOrder | components/dev-diary-dashboard.tsx:439-451 | after the copy come the first four older entries with another id, in their old order |
| Dashboard.RecordCopyDistinct | components/dev-diary-dashboard.tsx:441-450 | from a list with distinct ids the copy gives a list with distinct ids in which the copied id occurs exactly once |
| Dashboard.RecordCopyOfNewSnippet | components/dev-diary-dashboard.tsx:439-451 | a new id on a list below the cap is prepended and nothing is lost |
| Dashboard.RecordCopyTwice | components/dev-diary-dashboard.tsx:439-476 | copying the same snippet again, from the dashboard or through the `onSnippetCopied` callback (the same updater), only refreshes its timestamp |
| Dashboard.WithoutIdAppend | components/dev-diary-dashboard.tsx:441 | removal by id keeps the order |
| Dashboard.WithoutIdAbsent | components/dev-diary-dashboard.tsx:441 | a list without the id is unchanged |
| Dashboard.WithoutIdDistinct | components/dev-diary-dashboard.tsx:441 | removal by id keeps distinct ids distinct |
| Dashboard.WithoutIdOfCopy | components/dev-diary-dashboard.tsx:464-476 | removing the copied id from the list after a copy leaves the older entries the copy kept |
| Dashboard.RecordExternal | components/dev-diary-dashboard.tsx:501-509 | the captured snippet with a fresh timestamp first, then the previous entries in order, at most 10 |
| Dashboard.RecordExternalKeepsDuplicates | components/dev-diary-dashboard.tsx:501-509 | an id already listed is prepended again, so the list can hold one id twice |
| Dashboard.RecordExternalDropsOldest | components/dev-diary-dashboard.tsx:501-509 | a full list loses exactly its oldest entry |
| Dashboard.FilterSnippets | components/dev-diary-dashboard.tsx:182-186 | a snippet is kept exactly when the language filter is "all" or its language, and the project filter is "all" or its project |
| Dashboard.FilterAppend | components/dev-diary-dashboard.tsx:182 | the filter keeps the order |
| Dashboard.FilterAllShowsEverything | components/dev-diary-dashboard.tsx:142-186 | with both filters at their initial "all", every snippet is shown |
| Dashboard.FilterComposes | components/dev-diary-dashboard.tsx:182-186 | filtering by language and then by project is filtering by both |

## Left out

- Regular expressions and `JSON.parse`: the detector's signature patterns, the TypeScript annotation pattern, the clipboard indentation pattern and JSON validity are abstract predicates; the heading and hashtag patterns of the coordinator are written out.
- The DOM: document and window listeners, `navigator.clipboard`, `typeof window` and visibility are inputs or events.
- The AI backends (Gemini, OpenAI), the `gpt-tokenizer` count, prompts, safety settings and temperature: collaborators and an abstract token count.
- Network and repository clients (Notion, Octokit, the Telegram bot, axios, simple-git): collaborators that return a value or a failure.
- services/github-service.ts and services/notion-service.ts are not part of this model; the gist file name they build is inside the Gist collaborator.
- `markdown-it`: the renderer is an abstract total function.
- Time: `new Date()`, `Date.now()`, `toISOString` and `date-fns` formatting are inputs; an invalid time is a conversion that returns none.
- `async`/`await`: every operation runs sequentially.
- The float factor `0.7` of the OpenAI threshold: compared as the integer 11200, which equals 16000 × 0.7 exactly.
- `Pieces.saveSnippet` and the service's HTTP configuration: not part of the core modelled here.
- Pieces.Tally, Pieces.FirstSeen: `Object.entries` lists integer-like keys first in numeric order; the model uses insertion order for every key.
- Pieces.Tally: the source counts in plain `{}` objects with `(obj[k] || 0) + 1`, which reads inherited properties. A key that names an `Object.prototype` property therefore behaves differently: "constructor" gets a string count, and "__proto__" is never stored. The model counts every key as an own entry.
- AnalyzeSnippets: the same `Object.prototype` difference for its language, project and tag counters; for such keys the sums of TallySumsToLength and the ranking of TopTagsRanked do not hold in the source.
- CountLanguagesAndProjects: the same `Object.prototype` difference for a language or project named like an `Object.prototype` property.
- CountAssetTags: the same `Object.prototype` difference; a tag text such as "__proto__" is never stored by the source.
- Clipboard.LooksLikeCode: the 10..10000 length bounds count characters (code points); JavaScript's `length` counts UTF-16 code units, so text with characters outside the Basic Multilingual Plane can be accepted by the source and rejected by the model.
- Activity.CapCode: the 1000 cut counts characters (code points); `substring(0, 1000)` counts UTF-16 code units and can split a surrogate pair.
- DiaryText.Summary: the 200 cut counts characters (code points), not UTF-16 code units; the same holds for DiaryText.SummaryAsWritten.
- Dashboard.RecordCopy: the mock snippets of the dashboard have numeric ids and more fields; they are modelled by the clipboard snippet record with string ids.
- The dashboard's React state, toasts, JSX, theme, settings and mocked handlers, `app/error.tsx`, `app/loading.tsx` and `cn`: UI only.
- LanguageDetection.Detect: text is a sequence of characters; `toLowerCase` and `trim` follow the ASCII letters and the JavaScript whitespace set, without Unicode case mapping.
- The TypeScript bonus tests the trimmed, lower-cased text, as the code at lib/utils.ts:280 does, not the raw text.

## Findings

| source | as written | input that shows it | evidently intended | confidence | as-written member | corrected member |
|---|---|---|---|---|---|---|
| services/diary-coordinator.ts:191 | `split('\n\n')[1]?.substring(0, 200) + '...' \|\| 'Developer diary created'`: the `+` binds before `\|\|`, so the left side is never empty | a diary without a blank line gives the summary "undefined..." | the fallback "Developer diary created" when there is no second block | high, not executed | DiaryText.SummaryFallbackUnreachable | DiaryText.Summary |
| services/pieces-service.ts:99-124 | `getAllSnippets` returns `response.data.iterable` (an array), and `getTodaySnippets` reads `.iterable` of it again, which throws and is caught | a snapshot holding one asset created today gives no snippets of today | the array wrapped as `{ iterable: ... }`, so the filter sees the assets | high, not executed | Pieces.TodayAsWrittenLosesSnippet | Pieces.GetTodaySnippets |
