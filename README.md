# morph-demo in Dafny

A Dafny model of the two demos in the morph-demo repository, with proofs of
what their code promises.

**Document comparison** (`document-wide-edits-with-plate`). The page sends one
document and one transformation prompt to two backends, OpenAI and Morph. Both
runs get the same start time. Each answer streams into its own panel, and the
panel's time is recorded when the stream ends. When streaming fails, the page
retries once with a whole-body request. The two routes validate the request.
Without an API key they answer with a demo text, paced word by word. With a
key they forward the provider's non-empty deltas.

**App builder** (`morph-e2b`). An in-memory store holds one `index.html`.
Three agent tools use it: `createFile` writes it, `editFile` merges an edit
through Morph, and `executeCode` sends it to the preview route. A debug route
summarises or clears the store. The builder page folds the chat's tool
results into its current code and its last execution result, and picks what
the preview pane shows. The code editor numbers the lines of its text.

**Text statistics** (`lib/utils.ts`): word count, character count and
reading time.

Modules: two shared helper modules (`Wrappers`, `Text`), then one module per
source file, except that `DocumentRoutes` covers both document routes:

- `Wrappers`: `Option` and `Result`.
- `Text`: concatenation, JavaScript `split`/`join` on one character, demo
  chunking, the `<code>`/`<update>` merge prompt, `endsWith`, `substring`
  and decimal rendering.
- `TextStats`: `lib/utils.ts`.
- `DocumentRoutes`: both transformation routes (`openai/route.ts` and
  `morph/route.ts` of the document editor), parameterised by `Backend`.
- `Comparison`: the comparison page. It has two `Panel` objects (a React
  content/time state pair each) and the in-flight flag.
- `Storage`: the `AppStorage` class.
- `PreviewRoute`: the preview route. `ApplyRoute`: the code-apply route.
- `AgentTools`: the agent's three tools, acting on an `AppStorage`.
- `DebugRoute`: the debug route.
- `BuilderPage`: the builder page's reducer, clear button and preview pane.
- `CodeEditor`: the editor's line-number gutter.

Inputs from outside the code are parameters:

- Every network reply is a datatype value (`StreamReply`, `WholeReply`,
  `LiveAnswer`, `MergeReply`, `PreviewReply`, `UpstreamReply`).
- Every `Date.now()` reading is an integer.
- API keys and environment variables are `Option<string>`.
- A response stream is the sequence of its controller's steps. `setTimeout`
  appears as a `Sleep(ms)` step.
- The `Promise.all` of the two runs is one run after the other. They share
  nothing but the start time.

## Model

| member | source | states |
|---|---|---|
| Text.Split | document-wide-edits-with-plate/app/api/openai/route.ts:41 | `split(' ')` gives one more piece than there are separators, and no piece contains the separator |
| Text.SplitJoin | document-wide-edits-with-plate/app/api/openai/route.ts:41 | joining the pieces of a split with the same separator gives back the original text |
| Text.JoinSplit | document-wide-edits-with-plate/app/api/morph/route.ts:42 | splitting a join of separator-free pieces gives back exactly those pieces (the inverse direction) |
| Text.Chunks | document-wide-edits-with-plate/app/api/openai/route.ts:42-43 | one demo chunk per word |
| Text.ChunksConcat | document-wide-edits-with-plate/app/api/openai/route.ts:42-44 | the chunks (first word bare, each later word after one space) concatenate to the words joined by single spaces |
| Text.MergePrompt | document-wide-edits-with-plate/app/api/morph/route.ts:76 | the merge prompt is `<code>`, the code, `</code>\n<update>`, the update and `</update>`; both parts sit verbatim at fixed offsets |
| Text.Take | morph-e2b/app/api/debug/route.ts:9 | `substring(0, n)` is a prefix of the string of length min(n, length) |
| Text.NatToString | morph-e2b/app/api/agent/route.ts:219 | a status renders as one or more decimal digits with no leading zero |
| Text.NatToStringValue | morph-e2b/app/api/agent/route.ts:219 | reading the rendered digits back as a decimal number gives the status itself |
| Text.EndsWith | morph-e2b/app/api/debug/route.ts:18 | `endsWith(suffix)` holds exactly when the string is some prefix followed by the suffix |
| TextStats.TrimStart | lib/utils.ts:10 | `trim` drops exactly the leading white space: a suffix that is empty or starts with a non-space |
| TextStats.TrimEnd | lib/utils.ts:10 | drops exactly the trailing white space: a prefix that is empty or ends with a non-space |
| TextStats.Trim | lib/utils.ts:10 | `trim` is never longer than the text and the result neither starts nor ends with white space |
| TextStats.TrimSlice | lib/utils.ts:10 | the trimmed text is the contiguous slice of the text after its leading white space, with only white space before and after it |
| TextStats.SplitOnSpaceRuns | lib/utils.ts:10 | `split(/\s+/)` always gives at least one piece, and no piece holds white space |
| TextStats.PiecesAreRunsPlusOne | lib/utils.ts:10 | there is one more piece than there are maximal runs of white space |
| TextStats.PiecesNonEmpty | lib/utils.ts:10 | for text that does not end in white space, only the first piece can be empty, and it is empty exactly when the text starts with white space |
| TextStats.WordCount | lib/utils.ts:8-11 | `getWordCount` is 0 exactly for `''` (a blank but non-empty text still splits into one piece) |
| TextStats.WordCountIsRunsPlusOne | lib/utils.ts:8-11 | for non-empty text the word count is 1 plus the white-space runs inside the trimmed text, so at least 1; for non-blank text every word is non-empty |
| TextStats.BlankTextIsOneWord | lib/utils.ts:8-11 | a non-empty, white-space-only text counts as one word |
| TextStats.CharacterCount | lib/utils.ts:13-16 | the character count is the length, 0 for `''` |
| TextStats.ReadingTime | lib/utils.ts:18-22 | 0 for `''`; otherwise the least number of minutes at 200 words per minute covering the word count (the ceiling) |
| TextStats.ReadingTimeBounds | lib/utils.ts:18-22 | for non-empty text, 1 <= reading time <= word count |
| DocumentRoutes.DemoTextOpens | document-wide-edits-with-plate/app/api/openai/route.ts:23-32 | the demo text starts with `# Demo Transformation Applied (<backend>)` (both routes; morph/route.ts:24-33) |
| DocumentRoutes.DemoTextPlaces | document-wide-edits-with-plate/app/api/openai/route.ts:23-32 | the demo text holds the transformation and the document verbatim, each at a fixed offset after the heading and its label (both routes; morph/route.ts:24-33) |
| DocumentRoutes.DemoText | document-wide-edits-with-plate/app/api/openai/route.ts:23-32 | the demo text is as long as its heading, label, transformation, note, document and footer together (both routes; morph/route.ts:24-33) |
| DocumentRoutes.UserContent | document-wide-edits-with-plate/app/api/openai/route.ts:72 | the OpenAI user message is the introduction `Please transform this document:` and a blank line, then the document, then the label `Transformation requested: ` after a blank line, then the transformation; the Morph one (morph/route.ts:76) is the `<code>`/`<update>` merge prompt of the document and the transformation |
| DocumentRoutes.WellFormed | document-wide-edits-with-plate/app/api/openai/route.ts:14-19 | a request is accepted exactly when both document and transformation are present and non-empty |
| DocumentRoutes.StreamFlag | document-wide-edits-with-plate/app/api/openai/route.ts:12 | streaming is on exactly when the request says `stream: true`; an absent flag means off |
| DocumentRoutes.DemoReply | document-wide-edits-with-plate/app/api/openai/route.ts:34-67 | without a key: the demo text paced as a stream and closed, or as one body after the backend's single delay |
| DocumentRoutes.LiveReply | document-wide-edits-with-plate/app/api/openai/route.ts:84-115 | with a key: the non-empty deltas as a stream ending in close or error, or the whole message; a thrown call is 500 with the backend's message |
| DocumentRoutes.PacedDelivers | document-wide-edits-with-plate/app/api/openai/route.ts:42-47 | a paced stream enqueues exactly its chunks, in order, and waits the pacing delay once per chunk |
| DocumentRoutes.DemoStream | document-wide-edits-with-plate/app/api/openai/route.ts:41-48 | the demo stream's chunks concatenate to the demo text; there are (number of spaces + 1) chunks and one delay of 20 ms (OpenAI) or 10 ms (Morph, morph/route.ts:42-49) per chunk, then it closes |
| DocumentRoutes.DemoStreamDelivers | document-wide-edits-with-plate/app/api/morph/route.ts:42-49 | the same delivery facts, for the events as a value |
| DocumentRoutes.NonEmpty | document-wide-edits-with-plate/app/api/openai/route.ts:90-95 | a delta is kept exactly when it arrived and is non-empty |
| DocumentRoutes.NonEmptyAppend | document-wide-edits-with-plate/app/api/openai/route.ts:90-95 | filtering the deltas of two stretches of the stream is filtering each and joining them, so the kept deltas stay in arrival order |
| DocumentRoutes.NonEmptyKeepsText | document-wide-edits-with-plate/app/api/openai/route.ts:90-95 | dropping the empty deltas does not change the text they make up (same loop in morph/route.ts:88-93) |
| DocumentRoutes.Enqueues | document-wide-edits-with-plate/app/api/openai/route.ts:90-95 | forwarding enqueues exactly the given chunks, with no delay |
| DocumentRoutes.ForwardDeltas | document-wide-edits-with-plate/app/api/morph/route.ts:86-98 | the live stream enqueues the non-empty deltas in arrival order, then closes, or errors if the iteration threw; the text delivered equals the provider's text |
| DocumentRoutes.Post | document-wide-edits-with-plate/app/api/openai/route.ts:10-123 | unreadable body gives 500 with the fixed message; a missing or empty document or transformation gives 400 before any other work; `stream` defaults to false; with no key, the demo text is streamed with pacing or returned whole after 2000 ms (Morph 1000 ms, morph/route.ts:63); with a key, one live call with model `gpt-4`/`morph-v2` and the user message `Please transform this document:...` or `<code>...</code>\n<update>...</update>` (route.ts:72, morph/route.ts:76); a rejected call gives 500 |
| Comparison.Find | document-wide-edits-with-plate/app/page.tsx:26 | the lookup finds nothing exactly when no entry has the key, and otherwise the first entry with it |
| Comparison.Receive | document-wide-edits-with-plate/app/page.tsx:107-128 | a JSON error is read as a non-ok status, with that status; a plain body as one chunk holding the whole text; a chunked body as the enqueued chunks in order, broken exactly when the controller ended in error; a reader is always there |
| Comparison.Panel.SetContent | document-wide-edits-with-plate/app/page.tsx:9-10 | the React content setter: the panel shows the new text, the time is untouched, and the text is published |
| Comparison.Panel.SetTime | document-wide-edits-with-plate/app/page.tsx:11-12 | the React time setter: the time changes, the content is untouched |
| Comparison.Accumulations | document-wide-edits-with-plate/app/page.tsx:119-128 | one published value per chunk |
| Comparison.AccumulationsExtend | document-wide-edits-with-plate/app/page.tsx:119-128 | the first published value is the first chunk, each next one is the previous with the next chunk appended, and the last is the concatenation of all chunks |
| Comparison.TransformWhole | document-wide-edits-with-plate/app/page.tsx:199-224 | the fallback sends one non-streaming request; on success it publishes the whole text and sets the time to end minus shared start; on failure the panel is untouched |
| Comparison.ReadChunks | document-wide-edits-with-plate/app/page.tsx:119-128 | after reading, the panel shows the concatenation of all chunks (its old content when there were none), every accumulated value is published in order, and the time is untouched |
| Comparison.TransformStreaming | document-wide-edits-with-plate/app/page.tsx:92-143 | the panel ends as `AfterRun`: on a clean end, the concatenated chunks and `end - start`; a non-ok status, a missing reader or a mid-stream error keeps the partial text and makes exactly one non-streaming retry, whose success replaces the text and time and whose failure leaves partial text and time as they were; every intermediate value is published in order |
| Comparison.CleanStreamShowsAll | document-wide-edits-with-plate/app/page.tsx:124-132 | a clean stream of at least one chunk leaves the whole concatenation and the time to the stream's end |
| Comparison.DemoRunShowsText | document-wide-edits-with-plate/app/page.tsx:118-132 | against a demo route the run never falls back, and the panel shows exactly the demo text, timed to the end of the stream |
| Comparison.LiveRunShowsText | document-wide-edits-with-plate/app/page.tsx:118-141 | against a live route the run falls back exactly when the provider's iteration threw; a clean stream with some text shows all of it; after a break, a successful fallback decides the panel |
| Comparison.ComparisonPage.constructor | document-wide-edits-with-plate/app/page.tsx:9-13 | both panels start with the demo content and no time; nothing in flight |
| Comparison.ComparisonPage.HandleTransformation | document-wide-edits-with-plate/app/page.tsx:15-47 | while in flight: no request, nothing changes; otherwise both panels are cleared, an unknown key ends with no request, `''` panels, null times and the flag off; a known key runs both backends from the same start time, each panel a function of its own backend's inputs only (a failure on one side cannot change the other); the flag is off at the end |
| Comparison.ComparisonPage.HandleReset | document-wide-edits-with-plate/app/page.tsx:49-54 | both panels back to the demo content with no time |
| Storage.AppStorage.constructor | morph-e2b/lib/storage.ts:3 | the store starts empty |
| Storage.AppStorage.SetCode | morph-e2b/lib/storage.ts:5-8 | the new value replaces the old one |
| Storage.AppStorage.GetCode | morph-e2b/lib/storage.ts:10-13 | returns the stored value and changes nothing |
| Storage.AppStorage.HasCode | morph-e2b/lib/storage.ts:15-17 | true exactly when the stored value is non-empty; changes nothing |
| Storage.AppStorage.Clear | morph-e2b/lib/storage.ts:19-22 | the store is empty afterwards |
| PreviewRoute.Post | morph-e2b/app/api/e2b/route.ts:3-30 | a missing or empty `code` gives 400 `Code is required`; an unreadable body gives 500 with the exception's message; otherwise exactly one output, of type `html`, holding the code verbatim |
| ApplyRoute.ApplyContent | morph-e2b/app/api/morph/route.ts:26 | the content is the original code, newline-space-middle-dot-space, then the instructions, both verbatim |
| ApplyRoute.Rate | morph-e2b/app/api/morph/route.ts:44 | the reported rate when present and non-zero, otherwise 4500; never 0 |
| ApplyRoute.Post | morph-e2b/app/api/morph/route.ts:3-52 | a missing or empty field gives 400 `Missing required fields`; then a missing key gives 500 before any request; exactly when both pass, one request with the composed content is sent; a non-ok reply gives 500 with the upstream message or `Morph API request failed`; success returns the content and the rate |
| AgentTools.CreateFile | morph-e2b/app/api/agent/route.ts:14-27 | the store holds the content verbatim and the result carries it as `newCode` |
| AgentTools.EditFile | morph-e2b/app/api/agent/route.ts:108-175 | an empty store fails with the fixed message before any request; otherwise the request is the merge prompt of the stored code and the edit; a non-ok reply fails with the status text and body; only a successful merge writes the store, with `newCode` equal to it; every modelled failure (a non-ok reply or an exception) leaves the store as it was |
| AgentTools.Endpoint | morph-e2b/app/api/agent/route.ts:194-205 | the endpoint comes from the request URL, else from a non-empty base URL setting, else the local server, and always ends in `/api/e2b` |
| AgentTools.ExecuteCode | morph-e2b/app/api/agent/route.ts:182-237 | an empty store gives `{error: 'No code to execute'}` with no request; otherwise the stored code goes to the chosen endpoint; a non-ok reply fails with status and text; success carries the route's outputs; the store is only read |
| DebugRoute.Preview | morph-e2b/app/api/debug/route.ts:9 | the preview is the first 100 characters followed by `...`: it always ends in `...`, is at most 103 long, and is never `No code` |
| DebugRoute.Get | morph-e2b/app/api/debug/route.ts:4-12 | reports whether there is code, its length and its preview; the store is only read |
| DebugRoute.Post | morph-e2b/app/api/debug/route.ts:14-35 | a path ending in `/clear` empties the store and reports success; any other path gives 404 `Not found` and leaves the store alone |
| BuilderPage.Completed | morph-e2b/app/page.tsx:45 | exactly the invocations in state `result` are kept: every kept one is in that state and from the input, and every input one in that state is kept |
| BuilderPage.CompletedAppend | morph-e2b/app/page.tsx:42-45 | completion keeps order: completing `a + b` gives the completed of `a`, then those of `b` |
| BuilderPage.Step | morph-e2b/app/page.tsx:45-52 | one invocation: a completed `createFile`/`editFile` with a non-empty `newCode` sets only the code, a completed `executeCode` with a result sets only the result, anything else changes nothing |
| BuilderPage.Run | morph-e2b/app/page.tsx:42-54 | after a message's invocations, the code is the starting one or the `newCode` of one of its writers, and the same for the execution result |
| BuilderPage.RunMessages | morph-e2b/app/page.tsx:40-56 | a chat without assistant messages leaves the page state as it was |
| BuilderPage.RunCompleted | morph-e2b/app/page.tsx:45 | invocations not yet in state `result` never change the code or the execution result |
| BuilderPage.RunMessagesIsRunConsidered | morph-e2b/app/page.tsx:40-45 | processing the messages is processing the completed invocations of the assistant messages, message by message and invocation by invocation; other roles change nothing |
| BuilderPage.CodeKept | morph-e2b/app/page.tsx:48-49 | with no completed `createFile`/`editFile` result carrying a non-empty `newCode`, the code stays as it was |
| BuilderPage.CodeFromLastWriter | morph-e2b/app/page.tsx:48-49 | otherwise the code is the `newCode` of the last such result, whatever follows it |
| BuilderPage.ExecutionKept | morph-e2b/app/page.tsx:50-51 | with no completed `executeCode` invocation carrying a result, the execution result stays as it was |
| BuilderPage.ExecutionFromLastWriter | morph-e2b/app/page.tsx:50-51 | otherwise the execution result is the result of the last such invocation |
| BuilderPage.PageIsLastWriter | morph-e2b/app/page.tsx:38-60 | over a whole chat, code and execution result are each decided by their last writer among the considered invocations, and unchanged when there is none |
| BuilderPage.ConsideredOnlyAssistantResults | morph-e2b/app/page.tsx:40-45 | every invocation the reducer considers is in state `result` and belongs to an assistant message |
| BuilderPage.PreviewBranch | morph-e2b/app/page.tsx:107-123 | the pane is tried in order: an iframe of the first output when it is HTML; else the error text when non-empty; else the raw result, carried unchanged, when it reports no success; else the placeholder |
| BuilderPage.PreviewShowsExecutedCode | morph-e2b/app/page.tsx:107-112 | code executed through the preview route shows in the iframe verbatim; an empty store shows `No code to execute` as an error |
| BuilderPage.Builder.constructor | morph-e2b/app/page.tsx:8-9 | no code and no execution result at first |
| BuilderPage.Builder.ClearButtonVisible | morph-e2b/app/page.tsx:13-15 | the clear button shows exactly when there is code |
| BuilderPage.Builder.ClearAll | morph-e2b/app/page.tsx:17-30 | when the server clear answers ok, code and execution result are reset and the button hides; otherwise nothing changes |
| BuilderPage.Builder.ProcessMessages | morph-e2b/app/page.tsx:38-60 | after the nested loops over messages and invocations, code and execution result are `RunMessages` of the state before, the reference fold whose last-writer properties the lemmas above prove |
| CodeEditor.Gutter | morph-e2b/components/CodeEditor.tsx:28-29 | the gutter is 1..n with n = number of newlines + 1: never empty, starts at 1, consecutive |
| CodeEditor.Editor.constructor | morph-e2b/components/CodeEditor.tsx:21 | the gutter starts as `[1]` |
| CodeEditor.Editor.HandleChange | morph-e2b/components/CodeEditor.tsx:23-30 | `onChange` gets exactly the new text and the gutter is renumbered for it |
| CodeEditor.Editor.Rerender | morph-e2b/components/CodeEditor.tsx:21-30 | a new `value` prop leaves the gutter as it was |

## Left out

- Network I/O, `fetch`, `ReadableStream`, `TextEncoder`/`TextDecoder`. Chunks arrive already decoded as strings, so a multi-byte character split across reads is not modelled.
- The concurrency of `Promise.all`. The two runs are modelled one after the other, and their interleaving is not captured.
- Clock readings and timers. `Date.now()` values are parameters, and `setTimeout` is a counted `Sleep` step, not elapsed time.
- The OpenAI SDK, the `ai` SDK (`streamText`, `tool`, `useChat`, `toDataStreamResponse`), zod schemas and JSON parsing. These are foreign calls, and their outcomes are inputs.
- The agent route's `POST`, its model loop (`maxSteps`) and its system prompt. They are instructions to a model, not code that acts on the store.
- The remote Morph merge. The `// ... existing code ...` markers are passed through and never read locally.
- `lib/constants` is not part of this model. `DEMO_CONTENT` and `DOCUMENT_TRANSFORMS` are constructor parameters of `ComparisonPage`.
- `cn` in `lib/utils.ts`, `morph-e2b/app/api/chat/route.ts`, JSX markup, the chat panel and console logging.
- `TextStats.CharacterCount`, `DebugRoute.Preview`, `Text.Take`: lengths and `substring` count Dafny characters, not JavaScript's UTF-16 code units.
- `DebugRoute.Get`: the `timestamp` field is not modelled.
- `AgentTools.ExecuteCode`: URL parsing is an input. It is the parsed protocol and host, or the message of the exception.
- `AgentTools.EditFile`: a malformed success body (`choices[0]` missing) is the `MergeThrew` case.
- `AgentTools.EditFile`: a successful merge reply whose `message.content` is `null` or absent is not modelled, because the store holds only strings. In the source, `setCode` stores that value and then throws on its `length` (morph-e2b/lib/storage.ts:6-7), so the tool fails while the store already holds `null`, and every later `getCode` or `hasCode` throws too. The promise that a failure leaves the store unchanged covers only the modelled replies.
- `AgentTools.CreateFile`: its catch branch is not modelled, because storing a string cannot throw.
- `DocumentRoutes.Post`: `delta.content` values that are not strings, and a non-streaming answer without content, are not modelled.
- `BuilderPage.PreviewBranch`: the execution result is one of the tools' own result shapes, not an arbitrary JSON object.
- `DocumentRoutes.LiveCall`: the OpenAI request's system prompt (a fixed editing instruction) and its `temperature: 0.3` (openai/route.ts:70-81) are not modelled. They are constants handed to the provider and do not affect the route's own logic.
- `DocumentRoutes.DemoStream`: the claim that the Morph demo stream finishes before the OpenAI one is not proved. It depends on counting spaces in the two literal footers.
- `Comparison.Receive`: each enqueued chunk is read as exactly one `reader.read()`, and every chunk enqueued before an error is delivered. Over HTTP, reads may merge or split the server's chunks, and `controller.error` may drop chunks still queued, so a broken stream may show only a prefix. The lemmas rely only on the concatenation or on the fallback, but the sequence of values `Published` across the route boundary is not what a real page is guaranteed to see.
- `ApplyRoute.Rate`: `tokens_per_second` is modelled as an optional integer. A fractional number or `NaN` (falsy, so replaced by 4500) is not modelled.
- `Comparison.ComparisonPage.HandleTransformation`: React state is modelled as fields that change at once. The in-flight guard reads `isTransforming` as captured at the last render, not the latest value set: a second click before the next render passes the guard in the source, while the model refuses it.
- `BuilderPage.Builder.ClearButtonVisible`: `isClearButtonVisible` is separate state that an effect updates one render after the code changes. The model derives it from the code, which is the value the effect settles on.

