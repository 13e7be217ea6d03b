/**
 * The OpenAI backend of services/openai-service.ts: the activity record is
 * truncated only when its serialized form is over 70% of the 16000-token
 * budget, an empty or missing completion becomes a fixed message, a failed
 * call becomes a fixed error, and the enhance pass falls back to its input.
 *
 * The tokenizer (`encode(JSON.stringify(data)).length`) and the chat
 * completion call are parameters; a completion is `None` when its content
 * is `null`.
 */
module OpenAI {
  import opened Common
  import opened Activity

  const MaxTokens := 16000

  /** `maxTokens * 0.7`, which is exactly 11200 in floating point. */
  const TokenThreshold := 11200

  /** Comparing a token count with the integer threshold decides the same as
      comparing it with 70% of the budget. */
  lemma ThresholdMatchesSeventyPercent(n: nat)
    ensures n > TokenThreshold <==> (n as real) > 0.7 * (MaxTokens as real)
  {
  }

  const GenerateFailure := "Failed to generate diary content"

  /** `content || fallback` for a completion's content. */
  function ContentOr(content: Option<string>, fallback: string): (r: string)
    ensures content.Some? && content.value != "" ==> r == content.value
    ensures content.None? || content.value == "" ==> r == fallback
  {
    if content.Some? && content.value != "" then content.value else fallback
  }

  /**
   * `generateDiaryContent`: `sent` is the record handed to the completion
   * call, truncated exactly when the token count is over the threshold and
   * then within the caps; the result is the completion's content, the fixed
   * message for empty content, or the fixed error. It is never empty.
   * `callerData` is the caller's record afterwards: the truncation replaces
   * the commit list of the `gitActivity` object it shares with the caller.
   */
  method GenerateDiaryContent(activityData: ActivityData, tokenCount: ActivityData -> nat,
                              complete: ActivityData -> Result<Option<string>>)
    returns (sent: ActivityData, callerData: ActivityData, r: Result<string>)
    ensures sent == (if tokenCount(activityData) > TokenThreshold then Truncated(activityData) else activityData)
    ensures callerData == activityData.(gitActivity := sent.gitActivity)
    ensures tokenCount(activityData) <= TokenThreshold ==> callerData == activityData
    ensures tokenCount(activityData) > TokenThreshold ==>
      |sent.snippets| <= MaxSnippets && (sent.notes.Some? ==> |sent.notes.value| <= MaxNotes)
      && (sent.gitActivity.Some? ==> |sent.gitActivity.value.commits| <= MaxCommits)
    ensures complete(sent).Err? ==> r == Err(GenerateFailure)
    ensures complete(sent).Ok? ==> r == Ok(ContentOr(complete(sent).value, GenerateFailure))
    ensures r.Ok? ==> r.value != ""
  {
    sent, callerData := activityData, activityData;
    if tokenCount(activityData) > TokenThreshold {
      sent, callerData := TruncateActivityData(activityData);
      TruncatedWithinCaps(activityData);
    }
    match complete(sent)
    case Err(_) =>
      r := Err(GenerateFailure);
    case Ok(content) =>
      r := Ok(ContentOr(content, GenerateFailure));
  }

  /** `enhanceDiaryContent`: the completion's content when it is non-empty,
      the diary unchanged otherwise, including when the call fails. */
  function EnhanceDiaryContent(diary: string, complete: string -> Result<Option<string>>): (r: string)
    ensures complete(diary).Ok? && complete(diary).value.Some? && complete(diary).value.value != "" ==>
      r == complete(diary).value.value
    ensures complete(diary).Err? || complete(diary).value.None? || complete(diary).value.value == "" ==>
      r == diary
  {
    match complete(diary)
    case Ok(content) => ContentOr(content, diary)
    case Err(_) => diary
  }
}
