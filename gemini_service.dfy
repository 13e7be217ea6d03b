/**
 * The Gemini backend of services/gemini-service.ts as the diary pipeline sees
 * it: the generate pass turns any failure into one fixed error, and the
 * enhance pass falls back to the text it was given. The model call itself
 * (prompt, safety settings, sampling) is a parameter that returns the
 * generated text or fails; this service sends the activity record as it is,
 * without truncating it.
 */
module Gemini {
  import opened Common
  import opened Activity

  /** The message of the error `generateDiaryContent` throws. */
  const GenerateFailure := "Failed to generate diary content"

  /** `generateDiaryContent`: the model's text, or the fixed failure. */
  function GenerateDiaryContent(data: ActivityData, generate: ActivityData -> Result<string>): (r: Result<string>)
    ensures r.Ok? <==> generate(data).Ok?
    ensures r.Ok? ==> r.value == generate(data).value
    ensures r.Err? ==> r.message == GenerateFailure
  {
    match generate(data)
    case Ok(text) => Ok(text)
    case Err(_) => Err(GenerateFailure)
  }

  /** `enhanceDiaryContent`: the model's text, or the diary unchanged when the call fails. */
  function EnhanceDiaryContent(diary: string, enhance: string -> Result<string>): (r: string)
    ensures enhance(diary).Err? ==> r == diary
    ensures enhance(diary).Ok? ==> r == enhance(diary).value
  {
    match enhance(diary)
    case Ok(text) => text
    case Err(_) => diary
  }
}
