# Orama AI SDK adapter — Dafny model

This project models the translation layer of the Orama adapter for the AI SDK's
`LanguageModelV1` interface. The Orama cloud client is treated as an oracle. Each
remote call (`search`, `ask`, `askStream`) is a function parameter of the code
that calls it, so every contract holds for every possible client behaviour.

What is modelled:

- **Search-result flattening** (`SearchFormat`). A hit list becomes one text.
  With no hits it is the sentinel `No results found.`. Otherwise each document
  becomes `key: value` lines, values that are `null`/`undefined` are skipped,
  and the blocks are joined by a blank line.
- **Prompt-text extraction** (`PromptText`). Only the first element of the
  first message's content is read.
- **Answer stream bridge** (`AnswerStream`). A chunk source becomes a sequence
  of stream parts pushed through a stream controller (`Streams.StreamController`).
  Each non-null chunk gives one verbatim text delta. The stream then ends with
  exactly one `finish` or exactly one `error`.
- **The service's two models** (`OramaService`). `ask()` and `search()` each
  have a one-shot call and a streaming call. Usage counts are JavaScript string lengths:
  UTF-16 code units (`Types.Utf16Length`), where a character outside the Basic
  Multilingual Plane counts twice.
- **The provider factory** (`Provider`), which validates the endpoint and the API key.
- **The chat model's search** (`ChatModel`), and **the search model's search and
  answer-session creation** (`SearchModel`). The search model is a class, because
  `createAnswerSession` overwrites its `answerSession` field.

Behaviour the model takes from the code as written:

- The answer stream emits incremental deltas only. There is no whole-so-far
  policy, and its finish reports 0 completion tokens.
- Prompt extraction never fails. It returns `''` on any unrecognised shape and
  reads the first message, not the last user message. A system message's content
  is a string, so a prompt that opens with one yields that string's first
  UTF-16 code unit (`PromptText.SystemPromptGivesFirstCharacter`). The model
  returns the first character, which is the same for every character in the
  Basic Multilingual Plane.
- The endpoint is not normalised (no trailing-slash stripping). There are no
  environment fallbacks.
- Failures of the one-shot and streaming calls of `OramaService` are rethrown
  unchanged, not re-typed. Only the two search models rewrap them.
- `usage` has no `totalTokens`.

Spreading an options object over a request literal (`{ term, ...opts }`) is
modelled as a right-biased map union. So an option with the same name as an
earlier field replaces it, as in JavaScript.

## Model

| member | source | states |
|---|---|---|
| `Errors.WrapSearchError` | src/lib/orama-chat-language-model.ts:64-71 | a thrown `Error` becomes an `Error` with message `"Orama search failed: " + message`; any other thrown value becomes an `Error` with `"Unknown error during search"` |
| `Errors.WrapSearchErrorRecoverable` | src/lib/orama-chat-language-model.ts:66-70 | the wrapped message starts with the prefix exactly when the original was an `Error`, and the original message follows the prefix |
| `Types.Render` | src/lib/orama-service.ts:285 | a string value is rendered verbatim by the template literal |
| `Types.IsNullish` | src/lib/orama-service.ts:284 | `!= null` rejects only `null` and `undefined`: strings, booleans and other values, including `""` and `false`, are kept |
| `Types.Project` | src/lib/orama-chat-language-model.ts:59-62 | the projected hit has the hit's document and score |
| `Types.ProjectHits` | src/lib/orama-chat-language-model.ts:58-63 | projecting hits to `{document, score}` keeps their number and order, and copies each document and score |
| `Types.ProjectHitsAppend` | src/lib/orama-search-model.ts:50-53 | projection distributes over concatenation: no reordering and no merging |
| `Messages.SearchTerm` | src/lib/orama-chat-language-model.ts:35-39 | the term is present exactly when there is a last message with non-empty content, and it then equals that content |
| `Messages.SearchTermIgnoresHistory` | src/lib/orama-search-model.ts:35-39 | messages before the last one never change the term |
| `Streams.ExactlyOneTerminal` | src/lib/orama-service.ts:127-155 | a stream of deltas closed by one terminal part has exactly one finish or exactly one error, never both |
| `Streams.StreamController.Enqueue` | src/lib/orama-service.ts:132-135 | enqueueing appends one part to what the open stream has carried |
| `Streams.StreamController.Close` | src/lib/orama-service.ts:146 | closing ends an open stream and keeps what it carried |
| `Streams.StreamController.Error` | src/lib/orama-service.ts:152 | erroring ends an open stream with the thrown value as its reason |
| `SearchFormat.Join` | src/lib/orama-service.ts:286-288 | `.join`: the first part opens the text, followed by the separator when more parts follow; its properties are in `JoinAppend`, `JoinLength`, `JoinKeeps` and `JoinOfEmpties` |
| `SearchFormat.JoinAppend` | src/lib/orama-service.ts:281-288 | joining two non-empty lists puts exactly one separator at their boundary |
| `SearchFormat.JoinLength` | src/lib/orama-service.ts:281-288 | n joined parts are their characters plus exactly n-1 separators |
| `SearchFormat.JoinKeeps` | src/lib/orama-service.ts:281-288 | every character of every part appears in the joined text |
| `SearchFormat.JoinOfEmpties` | src/lib/orama-service.ts:281-288 | joining empty parts yields separator characters only |
| `SearchFormat.Present` | src/lib/orama-service.ts:284 | the null filter never adds entries; membership and order are stated in `PresentMembers`, `PresentAppend` and `PresentKeepsAll` |
| `SearchFormat.PresentMembers` | src/lib/orama-service.ts:284 | an entry is rendered exactly when it belongs to the document and its value is neither `null` nor `undefined` |
| `SearchFormat.PresentAppend` | src/lib/orama-service.ts:283-284 | the null filter distributes over concatenation, so entry order is kept |
| `SearchFormat.PresentKeepsAll` | src/lib/orama-service.ts:284 | a document without nullish values loses no entry |
| `SearchFormat.RenderEntry` | src/lib/orama-service.ts:285 | a line is the key, then `": "`, then the rendered value, and nothing else |
| `SearchFormat.RenderEntries` | src/lib/orama-service.ts:285 | one line per present entry, in order |
| `SearchFormat.Block` | src/lib/orama-service.ts:283-286 | one hit's block opens with the line of its first present entry; emptiness is stated in `BlockEmptyIff` |
| `SearchFormat.BlockEmptyIff` | src/lib/orama-service.ts:283-286 | a document's block is empty exactly when all its values are nullish; otherwise it contains a colon |
| `SearchFormat.Blocks` | src/lib/orama-service.ts:281-287 | one block per hit, in hit order |
| `SearchFormat.FormatSearchResults` | src/lib/orama-service.ts:278-289 | no hits give exactly `"No results found."`; otherwise the hits' blocks are joined by `"\n\n"` |
| `SearchFormat.FormatAppend` | src/lib/orama-service.ts:281-288 | formatting a concatenation gives the two texts with one blank line between them |
| `SearchFormat.FormatLength` | src/lib/orama-service.ts:281-288 | n hits give their blocks plus exactly n-1 two-character separators |
| `SearchFormat.FormatEmptyIff` | src/lib/orama-service.ts:278-289 | the text is empty exactly for a single hit whose values are all nullish |
| `SearchFormat.FormatSentinelOnlyForNoHits` | src/lib/orama-service.ts:278-289 | a non-empty hit list never formats to the sentinel text, so the sentinel arises exactly from no hits |
| `PromptText.ExtractPromptText` | src/lib/orama-service.ts:261-276 | total; `''` without a first message or first content element; the first part's string or `text` otherwise; always a prefix of the first message's text |
| `PromptText.ExtractReadsFirstMessageOnly` | src/lib/orama-service.ts:262-266 | messages after the first, including the last user turn, never change the result |
| `PromptText.SystemPromptGivesFirstCharacter` | src/lib/orama-service.ts:262-268 | a prompt opening with a system message yields that message's first character |
| `AnswerStream.Deltas` | src/lib/orama-service.ts:130-137 | every part produced from the chunks is a text delta, one per non-null chunk |
| `AnswerStream.AnswerFinish` | src/lib/orama-service.ts:138-145 | the finish carries `stop`, promptTokens = the prompt's JavaScript length and completionTokens = 0 |
| `AnswerStream.AnswerStreamParts` | src/lib/orama-service.ts:130-153 | what the bridge enqueues is terminated, by a finish exactly when the source ends normally; `RunAnswerBridge` is proved to enqueue exactly this, and `BridgeTerminates` counts its terminal parts |
| `AnswerStream.DeltasAreChunks` | src/lib/orama-service.ts:130-137 | delta i carries exactly the i-th non-null chunk: no accumulation, no loss, no reordering |
| `AnswerStream.DeltasAppend` | src/lib/orama-service.ts:130-137 | each chunk's delta depends on that chunk alone |
| `AnswerStream.DeltaTextIsChunkText` | src/lib/orama-service.ts:130-137 | the streamed text is the concatenation of the non-null chunks |
| `AnswerStream.ConcatSnoc` | src/lib/orama-service.ts:130-137 | appending a chunk appends its text to the concatenation |
| `AnswerStream.BridgeTerminates` | src/lib/orama-service.ts:127-155 | the stream ends with one terminal part; one finish exactly on normal exhaustion, one error exactly on failure |
| `AnswerStream.RunAnswerBridge` | src/lib/orama-service.ts:128-154 | the controller carries one delta per non-null chunk, then a finish and is closed, or an error part and is errored with the thrown value |
| `OramaService.NewService` | src/lib/orama-service.ts:9-15 | the service stores the configuration unchanged and builds its client from endpoint and key |
| `Types.Utf16Length` | src/lib/orama-service.ts:43-44 | JavaScript's `.length` (UTF-16 code units), between the character count and twice it; additivity and the exact case are in `Types.Utf16LengthAppend` and `Types.Utf16LengthBounds` |
| `Types.Utf16LengthAppend` | src/lib/orama-service.ts:43-44 | the JavaScript length of a concatenation is the sum of the lengths |
| `Types.Utf16LengthBounds` | src/lib/orama-service.ts:43-44 | the JavaScript length lies between the character count and twice it, and equals the character count exactly when every character is in the Basic Multilingual Plane |
| `OramaService.CountUsage` | src/lib/orama-service.ts:42-45 | usage counts are the JavaScript lengths (UTF-16 code units) of prompt and completion, never less than their character counts |
| `OramaService.Envelope` | src/lib/orama-service.ts:199-218 | the envelope has finish reason `stop` and usage counted from its own text |
| `OramaService.SessionParams` | src/lib/orama-service.ts:28-31 | the answer session gets the configured user context, and the inference type defaults to documentation |
| `OramaService.AnswerText` | src/lib/orama-service.ts:38-81 | a string answer is the text; otherwise its `text` is, or `''` when that is absent |
| `OramaService.AskGenerate` | src/lib/orama-service.ts:26-113 | asks the prompt text; a thrown value is rethrown unchanged; otherwise text = answer text, `stop`, promptTokens and completionTokens = the JavaScript lengths of prompt and text, and the settings echo the configuration |
| `OramaService.AskDoStream` | src/lib/orama-service.ts:115-174 | a throw from `askStream` rejects the call; otherwise the stream carries the bridge's parts, is terminated, and ends closed or errored |
| `OramaService.SearchRequest` | src/lib/orama-service.ts:191-195 | the request holds the term, the mode (default `fulltext`) and every configured search option, with the options winning on name clashes |
| `OramaService.SearchGenerate` | src/lib/orama-service.ts:187-223 | a thrown value is rethrown; an absent result throws; otherwise text = formatted hits, `stop`, promptTokens and completionTokens = the JavaScript lengths of prompt and formatted text, and the settings echo the search options |
| `OramaService.SearchStreamParts` | src/lib/orama-service.ts:230-241 | what `search().doStream` enqueues is at most two parts closed by a finish; its content is stated in `SearchStreamShape` and `SearchStreamCarriesFormattedHits` |
| `OramaService.SearchStreamShape` | src/lib/orama-service.ts:228-245 | at most one delta, present exactly when the text is non-empty and then carrying the whole text; then exactly one finish with the one-shot reason and usage, and no error |
| `OramaService.SearchDoStream` | src/lib/orama-service.ts:225-257 | a rejected one-shot search rejects the call; otherwise the stream carries the one-shot result's parts and is closed |
| `OramaService.SearchStreamCarriesFormattedHits` | src/lib/orama-service.ts:197-245 | the streamed search text is the formatted hits, its finish reports its JavaScript length, and no delta appears exactly when the formatted text is empty |
| `Provider.CreateOramaProvider` | src/lib/index.ts:4-10 | fails with "Endpoint and API Key are required" exactly when the endpoint or the key is missing or empty; otherwise the service keeps the configuration unchanged |
| `Provider.OramaProviderIsCreateOramaProvider` | src/lib/index.ts:12 | `oramaProvider` is the same function as `createOramaProvider` |
| `ChatModel.NewChatLanguageModel` | src/lib/orama-chat-language-model.ts:24-29 | the client is built from the given endpoint and key |
| `ChatModel.ChatSearchRequest` | src/lib/orama-chat-language-model.ts:42-52 | the request holds the term and exactly limit/where/mode/offset/sortBy/facets as read from the options; `signal` is never forwarded |
| `ChatModel.ChatSearch` | src/lib/orama-chat-language-model.ts:31-72 | an absent term fails with "No message content to search" before any search; a thrown value is rewrapped; an absent result gives no hits; hits are projected in order |
| `ChatModel.ChatSearchFailuresAreErrors` | src/lib/orama-chat-language-model.ts:37-71 | every failure of the chat search is an `Error` instance, and a failed search's message carries the prefix exactly when the client threw an `Error` |
| `SearchModel.SearchModelRequest` | src/lib/orama-search-model.ts:42-47 | the request holds the term and every option except `signal` and `type`, unchanged |
| `SearchModel.ResultHits` | src/lib/orama-search-model.ts:49-53 | an absent result gives `[]`, a present one its projected hits |
| `SearchModel.NormaliseRole` | src/lib/orama-search-model.ts:82 | the client role is `assistant` exactly when the host role is `assistant`; everything else becomes `user` |
| `SearchModel.NormaliseRoleKeepsKnownRoles` | src/lib/orama-search-model.ts:82 | a role is kept exactly when it is `user` or `assistant`, and client roles round-trip |
| `SearchModel.ConvertMessages` | src/lib/orama-search-model.ts:81-85 | initial messages keep their count, order and content, and their roles are normalised |
| `SearchModel.ConvertSessionConfig` | src/lib/orama-search-model.ts:78-85 | user context and inference type are passed as given; messages are present exactly when given, and then converted |
| `SearchModel.OramaSearchModel.constructor` | src/lib/orama-search-model.ts:24-29 | the client is built from endpoint and key, and no answer session exists yet |
| `SearchModel.OramaSearchModel.Search` | src/lib/orama-search-model.ts:31-75 | an absent term fails with "No search query provided" before any search; a thrown value is rewrapped; otherwise the body holds exactly one chunk, the projected hits (or `[]`) with the term, and is then closed |
| `SearchModel.OramaSearchModel.CreateAnswerSession` | src/lib/orama-search-model.ts:77-103 | the stored answer session is replaced by one created from the converted config, and the same instance is returned |

## Left out

- Network I/O: the Orama client's `search` is a parameter (an oracle), and so are `ask` and `askStream` together with the `createAnswerSession` call that precedes them in `OramaService`. Their own behaviour is not modelled.
- SearchModel.OramaSearchModel.CreateAnswerSession: the session the client creates is modelled as the record `Client.AnswerSession` of the call's arguments, so it cannot fail. A throwing `client.createAnswerSession`, which would reject the call and leave `answerSession` unassigned, is not modelled.
- PromptText.ExtractPromptText: for a system message that starts with a character outside the Basic Multilingual Plane, JavaScript's `content[0]` is a lone high surrogate, which a Dafny string cannot hold. The model returns the whole first character there.
- PromptText.SystemPromptGivesFirstCharacter: states the first character, which differs from JavaScript's first code unit for characters outside the Basic Multilingual Plane, as above.
- Response ids (`crypto.randomUUID()`), timestamps (`new Date()`) and message ids (`Date.now()`). These are nondeterministic.
- `console.error` logging. The `catch` blocks in `OramaService` only log and rethrow, which changes nothing in the model.
- JSON request bodies (`request.body`), `TextEncoder` bytes, HTTP headers and the `Response` wrapper. The search model's response chunk is its payload value, not its JSON bytes.
- Stream mechanics: asynchrony, backpressure and cancellation. The stream is the ordered list of parts its producer enqueues. In a web stream, `controller.error()` also discards parts that were enqueued but not yet read. So a consumer may never see the final `error` part, or deltas it has not read yet. The model records what was enqueued.
- Event callbacks passed through by `createAnswerSession`. They are function-valued fields with no behaviour of their own.
- Hit scores are floats. They are carried as `real` and never computed with.
- Conversion of document values to text. Numbers, arrays and objects are opaque values (`Types.Value.Other`); `Types.Render` of one stands for the text a template literal gives for it.
- `OramaService.AbsentResultsError`: the exact text of the `TypeError` thrown when `results.hits` is read from an absent search result depends on the JavaScript engine. It is modelled as one fixed message.
- The other `LanguageModelV1` fields of the returned models (`specificationVersion`, `provider`, `defaultObjectGenerationMode`, `supportsImageUrls`), and undefined envelope fields (`toolCalls`, `warnings`, `logprobs`, `providerMetadata`). These are constants without behaviour; only `modelId` is kept.
- `StreamingTextResponse`'s own constructor. It is kept only as the content type of `SearchModel.TextResponse`.
