# Box Skill tl;dr summarizer — a Dafny model of the request pipeline

The system is a webhook handler (`boxSkill`). A storage platform calls it when a file's text has been extracted. The handler then does six things in order:

1. It checks the webhook signature against two signing keys.
2. It writes a "processing" status card onto the file.
3. It downloads the extracted text and tokenises it. An empty token sequence means "not ready yet".
4. It cuts the text down to the configured token budget.
5. It asks a completion endpoint for a summary, using the prompt `text + "\n\ntl;dr"`.
6. It writes the summary back as a transcript card and answers 200.

If the signature is rejected, it answers 401 and writes no card. Anything that throws inside the try block is caught: the handler writes an UNKNOWN error card with the fixed "text extract was not ready" message and answers 400, so the platform retries.

Modules:

- `SkillTypes` (`types.dfy`): the values and the collaborators. The signature validator, the HTTP fetch, the tokenizer, the completion endpoint and the card writer form a per-request `World` of oracles. Each one either returns a value or fails. `encode`/`decode` are arbitrary total functions. Every lemma holds for any tokenizer, except `DecodeEachConcatenative` and `WindowAtExactBudget`: those two assume a decoder that maps concatenation to concatenation.
- `TokenWindow` (`token_window.dfy`): `countTokens`. `Window` specifies the windowed text. `Rebuild` is the loop, proved against `Window`.
- `TextAcquirer` (`text_acquirer.dfy`): `downloadText`. It covers the URL template and the not-ready rule.
- `SummaryRequester` (`summary_requester.dfy`): `findSummary`. It covers the prompt, the fixed request parameters, and how the first choice is read.
- `Pipeline` (`pipeline.dfy`): `Run` is the observable effect of one request: the ordered list of attempted card writes plus the response. `SkillRequest` is a class holding the handler's per-request state (`text`, `encoded`, the card log and the response). Its methods follow the source step by step, and `BoxSkill` is proved to produce exactly `Run`.
- `PipelineProperties` (`pipeline_properties.dfy`): what the handler promises, stated over `Run`.
- `Scenarios` (`scenarios.dfy`): concrete requests that use a one-token-per-character tokenizer.

Behaviour of index.js worth noting:

- A failed processing-card write throws into the catch block, so the request ends with the retry card and 400 (index.js:34, 49-54; `ProcessingCardFailureRetries`).
- The windowing loop appends min(max, token count) tokens, and none when the budget is 0 or less (index.js:90).
- The comparison at index.js:83 is `>=`, so a text with exactly `max` tokens is still rebuilt token by token. The rebuilt text can differ from the original (`ExactBudgetRebuildCanChange`). It is unchanged only for a decoder that maps concatenation to concatenation and inverts `encode` on that text (`WindowAtExactBudget`).
- The windowed text is never re-encoded, so no token bound on it is stated.
- An empty or absent completion text writes an UNKNOWN error card with no message and still answers 200 (index.js:123-125, 43).
- Every caught failure gets the same "text extract was not ready" message, whatever its cause (index.js:50).

## Model

| member | source | states |
|---|---|---|
| `TokenWindow.Rebuild` | index.js:84-94 | The loop's result is the in-order concatenation of `decode([t])` over the first min(max, token count) tokens, or over none when `max <= 0`. |
| `TokenWindow.DecodeEach` | index.js:89-93 | No contract of its own. It is the in-order concatenation of single-token decodings that the loop builds. Its properties are stated by `Rebuild`, `DecodeEachAppend`, `DecodeEachPrefix` and `DecodeEachConcatenative`. |
| `TokenWindow.Window` | index.js:83-95 | No contract of its own. It is the text after the windowing step. Its properties are stated by `WindowBelowBudget`, `WindowAtBudget`, `WindowNonPositiveBudget`, `WindowMonotone`, `WindowAtExactBudget` and `ExactBudgetRebuildCanChange`; `Pipeline.SkillRequest.CountTokens` is proved equal to it. |
| `TokenWindow.DecodeEachAppend` | index.js:89-93 | Decoding token by token distributes over concatenation of token sequences. |
| `TokenWindow.DecodeEachPrefix` | index.js:89-93 | Decoding a prefix of the tokens gives a prefix of decoding all of them. |
| `TokenWindow.WindowBelowBudget` | index.js:66-83 | With fewer tokens than the budget, the downloaded text is passed on unchanged. |
| `TokenWindow.WindowAtBudget` | index.js:83-94 | At or above the budget, the result decodes exactly `max` leading tokens (none if `max <= 0`) one at a time. It is a prefix of decoding every token one at a time. |
| `TokenWindow.WindowNonPositiveBudget` | index.js:83-94 | A budget `<= 0` always gives the empty text. |
| `TokenWindow.WindowMonotone` | index.js:89-93 | Raising the budget, while still truncating, only extends the window. |
| `TokenWindow.DecodeEachConcatenative` | index.js:91 | If the decoder maps concatenation to concatenation, decoding token by token equals decoding all the tokens at once. |
| `TokenWindow.WindowAtExactBudget` | index.js:83-94 | For such a decoder, one that also inverts `encode` on the text, a text with exactly `max` tokens comes back unchanged. |
| `TokenWindow.ExactBudgetRebuildCanChange` | index.js:83-94 | A text with exactly `max` tokens is rebuilt anyway. With a decoder that renders each token as '?', the two-token text "ab" at budget 2 becomes "??". |
| `TextAcquirer.DownloadUrl` | index.js:59 | The URL is endpoint, `/`, file id, `/versions/`, version id, the extracted-text path and the token. Each field appears verbatim at its fixed offset, and the length is the sum of the parts. |
| `TextAcquirer.DownloadUrlAmbiguous` | index.js:59 | Nothing is escaped, so two different (endpoint, file id) pairs can give the same URL. |
| `TextAcquirer.Acquire` | index.js:64-75 | A transport failure iff the fetch failed. NotReady iff the fetched text encodes to no tokens. Otherwise returns the fetched text and its non-empty tokens. |
| `SummaryRequester.Prompt` | index.js:107 | The prompt is the whole text followed by exactly `"\n\ntl;dr"`. |
| `SummaryRequester.RequestFor` | index.js:105-113 | The request carries the model, that prompt, and the fixed parameters 0.7 / 275 / 1 / 0 / 1. |
| `SummaryRequester.RequestForInjective` | index.js:105-113 | Two requests are equal iff their models and texts are equal. |
| `SummaryRequester.Interpret` | index.js:114-125 | A summary iff the first choice has a non-empty text, and then it is that text. It is a failure iff the call failed or there is no first choice. Otherwise it is NotFound. |
| `SummaryRequester.Summarize` | index.js:105-125 | No contract of its own. It applies `Interpret` to the completion of `RequestFor(model, text)`. Its properties are stated by `Interpret`, `RequestFor` and `Pipeline.SkillRequest.FindSummary`. |
| `Pipeline.SkillRequest.constructor` | index.js:22-25 | A fresh request: empty text, no tokens, no card written, no response. |
| `Pipeline.TryBlock` | index.js:27-48 | No contract of its own. It is how the try block ends (unauthorized, finished, or threw) and which cards it attempted. Its properties are stated by `PipelineProperties.CaughtFailuresNeverAnswerOk` and `PipelineProperties.Answers`. |
| `Pipeline.Run` | index.js:27-55 | No contract of its own. It is the try block plus its catch: the ordered card writes and the answer. `Pipeline.SkillRequest.BoxSkill` and `Pipeline.HandleEvent` are proved equal to it, and every `PipelineProperties` lemma states a property of it. |
| `Pipeline.SkillRequest.SaveCard` | index.js:34-124 | Every card write (index.js:34, 50, 122 and 124) is logged, and it throws exactly when the writer fails for that card. |
| `Pipeline.SkillRequest.DownloadText` | index.js:57-76 | A successful fetch overwrites `text` and `encoded` even when it then throws. The step succeeds iff `Acquire` does, and leaves exactly what `Acquire` returns. |
| `Pipeline.SkillRequest.CountTokens` | index.js:78-96 | `text` becomes `Window(old text, encoded, decode, budget)`. |
| `Pipeline.SkillRequest.FindSummary` | index.js:98-126 | Writes a transcript card for a non-empty first choice, the no-result card otherwise, and no card when the call throws. It reports whether anything threw. |
| `Pipeline.SkillRequest.BoxSkill` | index.js:27-55 | The card log and response after the handler body are exactly `Run`'s. |
| `Pipeline.HandleEvent` | index.js:21-55 | One invocation (fresh state, then the body) yields exactly `Run`. |
| `PipelineProperties.SignatureGate` | index.js:31-47 | The answer is 401 iff the signature is rejected, and no card is written iff the signature is rejected. |
| `PipelineProperties.SuccessPath` | index.js:32-43 | On the success path the trace is the processing card, then a transcript card with exactly the completion text, then 200. |
| `PipelineProperties.OkMeansSummaryStepFinished` | index.js:32-43 | A 200 means: signature accepted, two cards, processing card first, then a non-empty transcript or the no-result card, and no retry card. |
| `PipelineProperties.NotReadyRetries` | index.js:68-72 | Text that encodes to no tokens gives the processing card, the retry card, and 400 (no answer if that write fails). |
| `PipelineProperties.ValidatorFailureRetries` | index.js:31 | A validator that throws gives the retry card alone and 400. |
| `PipelineProperties.ProcessingCardFailureRetries` | index.js:34 | A failed processing-card write aborts the request with the retry card and 400. |
| `PipelineProperties.DownloadFailureRetries` | index.js:64 | A failed download gives the processing card, the retry card and 400. |
| `PipelineProperties.CompletionFailureRetries` | index.js:105-114 | A failed completion call, or a response with no choices, gives the processing card, the retry card and 400. |
| `PipelineProperties.ResultCardFailureRetries` | index.js:122-124 | A failed write of the summary card is caught after that card was attempted. The retry card follows, then 400. |
| `PipelineProperties.CaughtFailuresNeverAnswerOk` | index.js:49-54 | Whatever throws in the try block, the retry card is written last and 200 is never answered. A 400 comes only from the catch block. |
| `PipelineProperties.NoResultStillOk` | index.js:123-125 | An empty or absent completion text gives the processing card, the no-result card (UNKNOWN, no message, distinct from the retry card) and 200. |
| `PipelineProperties.Answers` | index.js:43-54 | The only answers are 200, 400 and 401. There is no answer exactly when the try block threw and the catch's own card write threw too. |
| `Scenarios.ScenarioWindow` | index.js:83-94 | With one token per character and a budget of 5, the document becomes `"Hello"`. |
| `Scenarios.ScenarioSummaryWritten` | index.js:21-55 | End to end, with the document over budget: processing card, transcript card `"A short summary."`, then 200. |
| `Scenarios.ScenarioUnreadyText` | index.js:57-76 | End to end, with an empty extract: processing card, retry card, then 400. |

## Left out

- HTTP transport: the GET of the extracted text (index.js:64) and the completion client (index.js:100-105) are oracles that return a value or fail. A fetched body is always a string. A body that the HTTP client would parse as JSON into a non-string is not modelled.
- The 5-second wait before the download (index.js:62) is timing only.
- Signature validation internals: the validator is an oracle. It receives the two signing keys and returns valid, invalid, or "threw". The request headers and body are implicit in the oracle.
- Tokenizer internals: `encode`/`decode` are arbitrary total functions. A tokenizer that throws is not modelled.
- Card writer internals: the card JSON and `createTranscriptsCard` are not modelled. Only each card write's kind, payload and order are recorded.
- Logging (`console.log`/`console.error`) has no effect on outcomes.
- Configuration: the environment reads (index.js:15-19) are the `Config` record. The API secret (index.js:101) only configures the completion client.
- `max_document_tokens` is an integer. A missing or non-numeric value is not modelled. The source would then compare against NaN and never truncate.
- Sampling parameters are recorded as fixed real constants, with no numeric reasoning.
- Building the reader and writer from the request body (index.js:22-23) happens outside the try block. A malformed event that would throw there is not modelled: the event's fields are given as a `FileContext`.
- Sending the HTTP answer (`response.status(...).send`) cannot fail in the model.
- Async/await and the platform's external ~10 s deadline are concurrency and timing concerns.
