/**
 * The webhook handler (boxSkill in index.js). After the signature check it writes a
 * processing card, acquires the text, windows it to the token budget, asks for a
 * summary and writes the result card, answering 200. A rejected signature answers 401
 * and writes nothing. Any exception inside the try block -- whatever its cause -- is
 * caught, a retry error card is written and the answer is 400; when that last card
 * write itself throws, the handler rejects and no answer is sent.
 *
 * `Run` states the observable effect of one request (the ordered card writes and the
 * response) as a function of configuration, event and collaborators; the class
 * `SkillRequest` is the handler's per-request state and is proved to produce it.
 */
module Pipeline {
  import opened SkillTypes
  import TokenWindow
  import TextAcquirer
  import opened SummaryRequester

  const RETRY_MESSAGE := "The text extract was not ready. It will retry again in a few minutes."

  /** The error card written by the catch block, whatever was thrown. */
  const RETRY_CARD := ErrorCard(Unknown, Some(RETRY_MESSAGE))

  /** The error card written when the completion produced no text. */
  const NO_RESULT_CARD := ErrorCard(Unknown, None)

  const OK := 200
  const BAD_REQUEST := 400
  const UNAUTHORIZED := 401

  /** The HTTP answer: a status code, or none when the handler itself rejects. */
  datatype Response = NoResponse | Sent(code: int)

  /** What one request does that can be observed: card writes in order, and the answer. */
  datatype Trace = Trace(cards: seq<Card>, response: Response)

  /** How the try block ends, with the cards it attempted to write. */
  datatype TryOutcome = Unauthorized | Finished(written: seq<Card>) | Threw(written: seq<Card>)

  /** The card the summary step writes for a result that did not raise. */
  function ResultCard(r: SummaryResult): Card
  {
    if r.Summary? then TranscriptCard(r.text) else NO_RESULT_CARD
  }

  /** The text handed to the summary step: the acquired text after windowing. */
  function Windowed(config: Config, a: TextAcquirer.Acquired, world: World): string
  {
    TokenWindow.Window(a.text, a.encoded, world.tokenizer.decode, config.maxDocumentTokens)
  }

  /** The try block of the handler. */
  function TryBlock(config: Config, ctx: FileContext, world: World): TryOutcome
  {
    match world.validate(config.primaryKey, config.secondaryKey)
    case Rejected => Unauthorized
    case Raised => Threw([])
    case Accepted =>
      if world.saveFails(ProcessingCard) then Threw([ProcessingCard])
      else
        match TextAcquirer.Acquire(config.apiEndpoint, ctx, world.fetch, world.tokenizer.encode)
        case Err(_) => Threw([ProcessingCard])
        case Ok(a) =>
          var r := Summarize(config.model, Windowed(config, a, world), world.complete);
          if r.SummaryFailed? then Threw([ProcessingCard])
          else if world.saveFails(ResultCard(r)) then Threw([ProcessingCard, ResultCard(r)])
          else Finished([ProcessingCard, ResultCard(r)])
  }

  /** The whole handler: the try block and its catch. */
  function Run(config: Config, ctx: FileContext, world: World): Trace
  {
    match TryBlock(config, ctx, world)
    case Unauthorized => Trace([], Sent(UNAUTHORIZED))
    case Finished(cards) => Trace(cards, Sent(OK))
    case Threw(cards) =>
      Trace(cards + [RETRY_CARD], if world.saveFails(RETRY_CARD) then NoResponse else Sent(BAD_REQUEST))
  }

  /**
   * The per-request state of the handler: the closure variables `text` and `encoded`,
   * the log of attempted card writes and the response.
   */
  class SkillRequest {
    const config: Config
    const ctx: FileContext
    const world: World
    var text: string
    var encoded: seq<Token>
    var cards: seq<Card>
    var response: Response

    constructor (config: Config, ctx: FileContext, world: World)
      ensures this.config == config && this.ctx == ctx && this.world == world
      ensures text == "" && encoded == [] && cards == [] && response == NoResponse
    {
      this.config := config;
      this.ctx := ctx;
      this.world := world;
      text := "";
      encoded := [];
      cards := [];
      response := NoResponse;
    }

    /** Attempt one card write; it is logged whether or not it throws. */
    method SaveCard(card: Card) returns (saved: bool)
      modifies this`cards
      ensures cards == old(cards) + [card]
      ensures saved == !world.saveFails(card)
    {
      cards := cards + [card];
      saved := !world.saveFails(card);
    }

    /**
     * Fetch the extracted text and tokenise it. On a successful fetch `text` and
     * `encoded` are overwritten even when the tokens are empty (and the step throws).
     */
    method DownloadText() returns (ready: bool)
      modifies this`text, this`encoded
      ensures var fetched := world.fetch(TextAcquirer.DownloadUrl(config.apiEndpoint, ctx));
        if fetched.FetchFailed? then text == old(text) && encoded == old(encoded)
        else text == fetched.data && encoded == world.tokenizer.encode(fetched.data)
      ensures var acquired := TextAcquirer.Acquire(config.apiEndpoint, ctx, world.fetch, world.tokenizer.encode);
        ready == acquired.Ok? && (ready ==> acquired.value == TextAcquirer.Acquired(text, encoded))
    {
      var url := TextAcquirer.DownloadUrl(config.apiEndpoint, ctx);
      var fetched := world.fetch(url);
      if fetched.FetchFailed? {
        return false;
      }
      text := fetched.data;
      encoded := world.tokenizer.encode(fetched.data);
      ready := |encoded| != 0;
    }

    /** Window `text` to the configured token budget. */
    method CountTokens()
      modifies this`text
      ensures text == TokenWindow.Window(old(text), encoded, world.tokenizer.decode, config.maxDocumentTokens)
    {
      if |encoded| >= config.maxDocumentTokens {
        var textEdited := TokenWindow.Rebuild(encoded, world.tokenizer.decode, config.maxDocumentTokens);
        text := textEdited;
      }
    }

    /**
     * Ask for the summary of `text` and write its card: a transcript card for a
     * non-empty first choice, a no-result error card otherwise. Returns false when
     * something threw: the call, reading the first choice, or the card write.
     */
    method FindSummary() returns (ok: bool)
      modifies this`cards
      ensures var r := Summarize(config.model, text, world.complete);
        if r.SummaryFailed? then cards == old(cards) && !ok
        else cards == old(cards) + [ResultCard(r)] && ok == !world.saveFails(ResultCard(r))
    {
      var r := Interpret(world.complete(RequestFor(config.model, text)));
      if r.SummaryFailed? {
        return false;
      }
      if r.Summary? {
        ok := SaveCard(TranscriptCard(r.text));
      } else {
        ok := SaveCard(NO_RESULT_CARD);
      }
    }

    /** The handler body: every step in order, the catch block, and the response. */
    method BoxSkill()
      requires cards == [] && response == NoResponse
      modifies this
      ensures cards == Run(config, ctx, world).cards
      ensures response == Run(config, ctx, world).response
    {
      var threw := false;
      var isValid := world.validate(config.primaryKey, config.secondaryKey);
      if isValid == Raised {
        threw := true;
      } else if isValid == Accepted {
        var saved := SaveCard(ProcessingCard);
        if !saved {
          threw := true;
        } else {
          var ready := DownloadText();
          if !ready {
            threw := true;
          } else {
            CountTokens();
            var summarized := FindSummary();
            if summarized {
              response := Sent(OK);
            } else {
              threw := true;
            }
          }
        }
      } else {
        response := Sent(UNAUTHORIZED);
      }
      if threw {
        var saved := SaveCard(RETRY_CARD);
        if saved {
          response := Sent(BAD_REQUEST);
        }
      }
    }
  }

  /**
   * One webhook invocation: the per-request state is created afresh, the handler body
   * runs on it, and what it wrote and answered is exactly `Run`.
   */
  method HandleEvent(config: Config, ctx: FileContext, world: World) returns (trace: Trace)
    ensures trace == Run(config, ctx, world)
  {
    var request := new SkillRequest(config, ctx, world);
    request.BoxSkill();
    trace := Trace(request.cards, request.response);
  }
}
