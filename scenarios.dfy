/**
 * Concrete requests run through `Run`, with a one-token-per-character tokenizer
 * standing in for the real one.
 */
module Scenarios {
  import opened SkillTypes
  import opened Pipeline
  import TokenWindow
  import TextAcquirer

  /** One token per character: the token is the character's code. */
  function CharTokens(s: string): seq<Token>
  {
    seq(|s|, i requires 0 <= i < |s| => s[i] as nat)
  }

  /** Inverse of CharTokens on codes below the surrogate range; '?' for anything else. */
  function CharText(tokens: seq<Token>): string
  {
    seq(|tokens|, i requires 0 <= i < |tokens| => if tokens[i] < 0xD800 then tokens[i] as char else '?')
  }

  const DOCUMENT := "Hello world. Hello world. "
  const SUMMARY := "A short summary."

  function ScenarioConfig(budget: int): Config
  {
    Config("primary", "secondary", "https://api.box.com/2.0/files", "text-davinci-003", budget)
  }

  const EVENT := FileContext("f1", "v1", "read-token")

  /**
   * A world that accepts the signature, serves `extract` for every URL, writes every
   * card, and answers SUMMARY only for the prompt "Hello" + delimiter.
   */
  function ScenarioWorld(extract: string): World
  {
    World(
      (primary: string, secondary: string) => Accepted,
      (url: string) => Fetched(extract),
      Tokenizer(CharTokens, CharText),
      (req: CompletionRequest) => if req.prompt == "Hello\n\ntl;dr" then Completed([Choice(Some(SUMMARY))]) else Completed([]),
      (card: Card) => false)
  }

  /** With a budget of 5 tokens the document is cut to its first five characters. */
  lemma ScenarioWindow()
    ensures TokenWindow.Window(DOCUMENT, CharTokens(DOCUMENT), CharText, 5) == "Hello"
  {
    var encoded := CharTokens(DOCUMENT);
    assert |encoded| == 26;
    var five := encoded[..5];
    assert five[..4] == encoded[..4] && encoded[..4][..3] == encoded[..3];
    assert encoded[..3][..2] == encoded[..2] && encoded[..2][..1] == encoded[..1] && encoded[..1][..0] == [];
    assert TokenWindow.DecodeEach(encoded[..1], CharText) == "H";
    assert TokenWindow.DecodeEach(encoded[..2], CharText) == "He";
    assert TokenWindow.DecodeEach(encoded[..3], CharText) == "Hel";
    assert TokenWindow.DecodeEach(encoded[..4], CharText) == "Hell";
    assert TokenWindow.DecodeEach(five, CharText) == "Hello";
  }

  /**
   * End to end: a document over budget, a valid signature and a completion that answers:
   * the processing card, then the transcript card with the completion text, then 200.
   */
  lemma ScenarioSummaryWritten()
    ensures Run(ScenarioConfig(5), EVENT, ScenarioWorld(DOCUMENT))
      == Trace([ProcessingCard, TranscriptCard(SUMMARY)], Sent(OK))
  {
    assert CharTokens(DOCUMENT) != [] by {
      assert |CharTokens(DOCUMENT)| == 26;
    }
    ScenarioWindow();
    assert "Hello" + "\n\ntl;dr" == "Hello\n\ntl;dr";
  }

  /** The same event with an empty extract: processing card, retry card, 400. */
  lemma ScenarioUnreadyText()
    ensures Run(ScenarioConfig(5), EVENT, ScenarioWorld(""))
      == Trace([ProcessingCard, RETRY_CARD], Sent(BAD_REQUEST))
  {
    assert CharTokens("") == [];
  }
}
