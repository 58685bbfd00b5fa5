/**
 * Values exchanged by the Box Skill webhook handler (index.js): its configuration,
 * the file context carried by the inbound event, the cards it writes back onto the
 * file, and the collaborators it calls (signature validator, HTTP fetch, tokenizer,
 * completion endpoint, card writer). Every collaborator is an oracle supplied per
 * request, so a request's behaviour is a function of (event, configuration, oracles).
 */
module SkillTypes {

  datatype Option<+T> = None | Some(value: T)

  datatype Result<+T, +E> = Ok(value: T) | Err(error: E)

  /** A tokenizer token; the tokenizer produces numeric token ids. */
  type Token = nat

  /**
   * The tokenizer's encode/decode pair. Both are left uninterpreted: a lemma about
   * them holds for any pair of total functions unless it names a hypothesis on them.
   */
  datatype Tokenizer = Tokenizer(encode: string -> seq<Token>, decode: seq<Token> -> string)

  /** The environment configuration read once at start-up. */
  datatype Config = Config(
    primaryKey: string,
    secondaryKey: string,
    apiEndpoint: string,
    model: string,
    maxDocumentTokens: int)

  /** What the handler reads from the inbound event: file id, version id, read token. */
  datatype FileContext = FileContext(fileId: string, fileVersionId: string, accessToken: string)

  /** The one error kind the handler ever writes. */
  datatype ErrorKind = Unknown

  /** A card write, recorded by kind and payload only. */
  datatype Card =
    | ProcessingCard
    | TranscriptCard(transcript: string)
    | ErrorCard(kind: ErrorKind, message: Option<string>)

  /** Outcome of the webhook signature check: valid, invalid, or the validator threw. */
  datatype SignatureCheck = Accepted | Rejected | Raised

  /** Outcome of the HTTP GET of the extracted text. */
  datatype Fetched = Fetched(data: string) | FetchFailed

  /** The completion request; the sampling parameters are fixed policy. */
  datatype CompletionRequest = CompletionRequest(
    model: string,
    prompt: string,
    temperature: real,
    maxTokens: int,
    topP: real,
    frequencyPenalty: real,
    presencePenalty: real)

  /** One entry of the completion response's `choices`; `text` may be absent. */
  datatype Choice = Choice(text: Option<string>)

  /** The completion call either answers with its choices or fails in transport. */
  datatype Completion = Completed(choices: seq<Choice>) | CompletionFailed

  /**
   * The collaborators of one request. `validate` receives the two signing keys;
   * `saveFails(c)` says whether writing card `c` throws.
   */
  datatype World = World(
    validate: (string, string) -> SignatureCheck,
    fetch: string -> Fetched,
    tokenizer: Tokenizer,
    complete: CompletionRequest -> Completion,
    saveFails: Card -> bool)
}
