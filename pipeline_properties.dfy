/**
 * What the handler promises, stated over `Run`: the signature gate, the success path,
 * the retry path for every failure inside the try block, the no-result path, and the
 * set of possible answers.
 */
module PipelineProperties {
  import opened SkillTypes
  import opened Pipeline
  import TokenWindow
  import TextAcquirer
  import opened SummaryRequester

  /** The signature check's verdict for this configuration. */
  function Verdict(config: Config, world: World): SignatureCheck
  {
    world.validate(config.primaryKey, config.secondaryKey)
  }

  /** What the catch block answers once its error card write has been attempted. */
  function RetryAnswer(world: World): Response
  {
    if world.saveFails(RETRY_CARD) then NoResponse else Sent(BAD_REQUEST)
  }

  /** 401 is answered exactly when the signature is rejected, and then no card is written. */
  lemma SignatureGate(config: Config, ctx: FileContext, world: World)
    ensures Run(config, ctx, world).response == Sent(UNAUTHORIZED) <==> Verdict(config, world) == Rejected
    ensures Run(config, ctx, world).cards == [] <==> Verdict(config, world) == Rejected
  {
  }

  /**
   * The success path: the processing card, then a transcript card holding exactly the
   * completion text of the windowed document, and 200.
   */
  lemma SuccessPath(config: Config, ctx: FileContext, world: World, data: string, choices: seq<Choice>, summary: string)
    requires Verdict(config, world) == Accepted
    requires !world.saveFails(ProcessingCard)
    requires world.fetch(TextAcquirer.DownloadUrl(config.apiEndpoint, ctx)) == Fetched(data)
    requires world.tokenizer.encode(data) != []
    requires world.complete(RequestFor(config.model,
      TokenWindow.Window(data, world.tokenizer.encode(data), world.tokenizer.decode, config.maxDocumentTokens)))
      == Completed(choices)
    requires choices != [] && choices[0].text == Some(summary) && summary != ""
    requires !world.saveFails(TranscriptCard(summary))
    ensures Run(config, ctx, world) == Trace([ProcessingCard, TranscriptCard(summary)], Sent(OK))
  {
  }

  /**
   * Conversely, a 200 means the signature was accepted, the processing card came first,
   * the summary step wrote exactly one card (a non-empty transcript or the no-result
   * card) and no retry card was written.
   */
  lemma OkMeansSummaryStepFinished(config: Config, ctx: FileContext, world: World)
    requires Run(config, ctx, world).response == Sent(OK)
    ensures Verdict(config, world) == Accepted
    ensures var cards := Run(config, ctx, world).cards;
      |cards| == 2 && cards[0] == ProcessingCard && RETRY_CARD !in cards &&
      (cards[1] == NO_RESULT_CARD || (cards[1].TranscriptCard? && cards[1].transcript != ""))
  {
  }

  /** An extract that encodes to no tokens: processing card, retry card, 400. */
  lemma NotReadyRetries(config: Config, ctx: FileContext, world: World, data: string)
    requires Verdict(config, world) == Accepted
    requires !world.saveFails(ProcessingCard)
    requires world.fetch(TextAcquirer.DownloadUrl(config.apiEndpoint, ctx)) == Fetched(data)
    requires world.tokenizer.encode(data) == []
    ensures Run(config, ctx, world) == Trace([ProcessingCard, RETRY_CARD], RetryAnswer(world))
  {
  }

  /** A validator that throws is caught like any other failure. */
  lemma ValidatorFailureRetries(config: Config, ctx: FileContext, world: World)
    requires Verdict(config, world) == Raised
    ensures Run(config, ctx, world) == Trace([RETRY_CARD], RetryAnswer(world))
  {
  }

  /** A failed processing-card write is not best-effort: it aborts the pipeline. */
  lemma ProcessingCardFailureRetries(config: Config, ctx: FileContext, world: World)
    requires Verdict(config, world) == Accepted
    requires world.saveFails(ProcessingCard)
    ensures Run(config, ctx, world) == Trace([ProcessingCard, RETRY_CARD], RetryAnswer(world))
  {
  }

  /** A failed download is caught: processing card, retry card, 400. */
  lemma DownloadFailureRetries(config: Config, ctx: FileContext, world: World)
    requires Verdict(config, world) == Accepted
    requires !world.saveFails(ProcessingCard)
    requires world.fetch(TextAcquirer.DownloadUrl(config.apiEndpoint, ctx)) == FetchFailed
    ensures Run(config, ctx, world) == Trace([ProcessingCard, RETRY_CARD], RetryAnswer(world))
  {
  }

  /** A failed completion call, or a response without choices, is caught the same way. */
  lemma CompletionFailureRetries(config: Config, ctx: FileContext, world: World, a: TextAcquirer.Acquired)
    requires Verdict(config, world) == Accepted
    requires !world.saveFails(ProcessingCard)
    requires TextAcquirer.Acquire(config.apiEndpoint, ctx, world.fetch, world.tokenizer.encode) == Ok(a)
    requires var c := world.complete(RequestFor(config.model, Windowed(config, a, world)));
      c == CompletionFailed || c == Completed([])
    ensures Run(config, ctx, world) == Trace([ProcessingCard, RETRY_CARD], RetryAnswer(world))
  {
  }

  /** A failed write of the summary step's card is caught after that card was attempted. */
  lemma ResultCardFailureRetries(config: Config, ctx: FileContext, world: World, a: TextAcquirer.Acquired)
    requires Verdict(config, world) == Accepted
    requires !world.saveFails(ProcessingCard)
    requires TextAcquirer.Acquire(config.apiEndpoint, ctx, world.fetch, world.tokenizer.encode) == Ok(a)
    requires var r := Summarize(config.model, Windowed(config, a, world), world.complete);
      !r.SummaryFailed? && world.saveFails(ResultCard(r))
    ensures var r := Summarize(config.model, Windowed(config, a, world), world.complete);
      Run(config, ctx, world) == Trace([ProcessingCard, ResultCard(r), RETRY_CARD], RetryAnswer(world))
  {
  }

  /**
   * Whatever was thrown inside the try block, the catch writes the retry card last and
   * never answers 200; and a 400 is only ever answered from the catch block.
   */
  lemma CaughtFailuresNeverAnswerOk(config: Config, ctx: FileContext, world: World)
    ensures TryBlock(config, ctx, world).Threw? ==>
      var t := Run(config, ctx, world);
      t.cards != [] && t.cards[|t.cards| - 1] == RETRY_CARD &&
      t.response != Sent(OK) && (t.response == Sent(BAD_REQUEST) <==> !world.saveFails(RETRY_CARD))
    ensures Run(config, ctx, world).response == Sent(BAD_REQUEST) ==> TryBlock(config, ctx, world).Threw?
  {
  }

  /**
   * An empty or absent completion text yields the no-result card (kind UNKNOWN, no
   * message, unlike the retry card), no transcript card, and still 200.
   */
  lemma NoResultStillOk(config: Config, ctx: FileContext, world: World, a: TextAcquirer.Acquired, choices: seq<Choice>)
    requires Verdict(config, world) == Accepted
    requires !world.saveFails(ProcessingCard)
    requires TextAcquirer.Acquire(config.apiEndpoint, ctx, world.fetch, world.tokenizer.encode) == Ok(a)
    requires world.complete(RequestFor(config.model, Windowed(config, a, world))) == Completed(choices)
    requires choices != [] && (choices[0].text == None || choices[0].text == Some(""))
    requires !world.saveFails(NO_RESULT_CARD)
    ensures Run(config, ctx, world) == Trace([ProcessingCard, NO_RESULT_CARD], Sent(OK))
    ensures NO_RESULT_CARD.kind == Unknown && NO_RESULT_CARD.message == None && NO_RESULT_CARD != RETRY_CARD
  {
  }

  /** The only answers are 200, 400 and 401, or none when the catch's own write throws. */
  lemma Answers(config: Config, ctx: FileContext, world: World)
    ensures Run(config, ctx, world).response in {NoResponse, Sent(OK), Sent(BAD_REQUEST), Sent(UNAUTHORIZED)}
    ensures Run(config, ctx, world).response == NoResponse <==>
      TryBlock(config, ctx, world).Threw? && world.saveFails(RETRY_CARD)
  {
  }
}
