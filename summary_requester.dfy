/**
 * The summary step (findSummary in index.js): the prompt is the windowed text followed
 * by the "tl;dr" delimiter, the request parameters are fixed, and the first choice's
 * text decides between a summary and "nothing produced".
 */
module SummaryRequester {
  import opened SkillTypes

  const TLDR := "\n\ntl;dr"

  /** The fixed sampling policy of every completion request. */
  const TEMPERATURE: real := 0.7
  const MAX_TOKENS: int := 275
  const TOP_P: real := 1.0
  const FREQUENCY_PENALTY: real := 0.0
  const PRESENCE_PENALTY: real := 1.0

  /** The prompt keeps the whole text as its prefix and ends with the delimiter. */
  function Prompt(text: string): (p: string)
    ensures |p| == |text| + 7
    ensures p[..|text|] == text
    ensures p[|text|..] == ['\n', '\n', 't', 'l', ';', 'd', 'r']
  {
    text + TLDR
  }

  /** The request sent for a text: only model and prompt vary between requests. */
  function RequestFor(model: string, text: string): (req: CompletionRequest)
    ensures req.model == model
    ensures req.prompt == Prompt(text)
    ensures req.temperature == 0.7 && req.maxTokens == 275 && req.topP == 1.0
    ensures req.frequencyPenalty == 0.0 && req.presencePenalty == 1.0
  {
    CompletionRequest(model, Prompt(text), TEMPERATURE, MAX_TOKENS, TOP_P, FREQUENCY_PENALTY, PRESENCE_PENALTY)
  }

  /** Two requests agree exactly when their models and texts agree. */
  lemma RequestForInjective(m1: string, t1: string, m2: string, t2: string)
    ensures RequestFor(m1, t1) == RequestFor(m2, t2) <==> m1 == m2 && t1 == t2
  {
  }

  /**
   * What the completion call produced: a summary text, nothing usable, or a failure
   * (the call failed, or the response had no first choice to read).
   */
  datatype SummaryResult = Summary(text: string) | NotFound | SummaryFailed

  /**
   * Interpret a completion response. The first choice's text is used when it is present
   * and non-empty (it is truthy); an absent or empty text is NotFound; a failed call or
   * a response without any choice raises.
   */
  function Interpret(c: Completion): (r: SummaryResult)
    ensures r.SummaryFailed? <==> c.CompletionFailed? || c.choices == []
    ensures r.Summary? <==>
      c.Completed? && c.choices != [] && c.choices[0].text.Some? && c.choices[0].text.value != ""
    ensures r.Summary? ==> r.text == c.choices[0].text.value && r.text != ""
  {
    match c
    case CompletionFailed => SummaryFailed
    case Completed(choices) =>
      if choices == [] then SummaryFailed
      else match choices[0].text
        case Some(t) => if t != "" then Summary(t) else NotFound
        case None => NotFound
  }

  /** Ask for a summary of the (windowed) text. */
  function Summarize(model: string, text: string, complete: CompletionRequest -> Completion): SummaryResult
  {
    Interpret(complete(RequestFor(model, text)))
  }
}
