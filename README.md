# FlowOptimize Scribe: a verified model of its core

FlowOptimize Scribe is a small React app for rewriting text in one of six modes. The user
submits text to an LLM service, watches the streamed rewrite arrive, accepts it, and keeps a
history of accepted pairs. This Dafny project models the logic behind that:

- **Prompts** (`Prompts`, `Modes`): the per-mode instruction, which always ends with the shared
  suffix, and the system prompt lookup with its `general` fallback.
- **Stream consumer** (`Stream`): the loop that turns the decoded chunks of a server-sent-events
  reply into the accumulated text. It is a method over the chunk sequence, proved against the
  functions `StreamDeltas`, `Concat` and `Running`.
- **Orchestrator** (`Api`): both branches of `optimizeText` and `analyzeText`. The HTTP replies
  are parameters. Every request issued and every progress callback is recorded, in order, in a
  trace.
- **Session holder** (`Session`): the `ContentProvider` state as a class. Its local
  `simulateOptimization` and prompt table are in `Simulation`.
- **UI components**: the mode panel (`Panel`), the history record and its preview
  (`HistoryItem`), the history page (`HistoryView`), the onboarding stepper (`Guide`), the
  editor (`Editor`).
- **Cross-component wiring** (`Index`): how the editor page connects the panel and the editor to
  the session. `src/pages/Index.tsx` mostly renders and has no logic of its own worth
  modelling; this module exists to state properties that span components, chiefly that the editor's and the session's length
  guards agree (`Index.Submit`).

Strings are `seq<char>`. The JavaScript string operations the code uses are written out in
`Text`:
- `trim`, with the ECMAScript whitespace set;
- `split` and `join` on a literal separator;
- `startsWith`;
- a global `replace` of a literal pattern.

`Text` also proves the round trips between them (`JoinSplit`, `SplitJoin`).

## Model

| member | source | states |
|---|---|---|
| Modes.AllModesExact | src/components/PromptPanel.tsx:19-25 | the mode type has exactly six members, each listed once |
| Modes.ModeNameInjective | src/components/PromptPanel.tsx:19-25 | each mode has its own string name |
| Modes.Description | src/components/PromptPanel.tsx:32-39 | every mode has a non-empty description (the record is total) |
| Modes.DescriptionInjective | src/components/PromptPanel.tsx:32-39 | no two modes share a description |
| Prompts.PromptForType | src/lib/api.ts:58-75 | every mode's prompt ends with the shared suffix "请保持适当分段并去除多余的星号标记:" |
| Prompts.CustomPrompt | src/lib/api.ts:71 | custom: an empty value gives exactly the suffix; a non-empty value gives value + "，" + suffix; the bare suffix appears only for the empty value |
| Prompts.FixedPrompts | src/lib/api.ts:60-69 | the five fixed prompts ignore the custom value and are pairwise distinct |
| Prompts.SystemPromptFor | src/lib/api.ts:78-80 | the lookup always yields one of the table's entries |
| Prompts.SystemPrompt | src/lib/api.ts:78-80 | every mode has its own entry, gets it, and never gets the `general` text |
| Prompts.GeneralOnlyForMissingKey | src/lib/api.ts:79 | the `general` text comes back exactly for a key missing from the table (or `general` itself) |
| Stream.LinesDeltas | src/lib/api.ts:222-243 | the deltas collected from the lines are all non-empty |
| Stream.ReadStream | src/lib/api.ts:209-244 | final `fullContent` = in-order concatenation of the stream's non-empty deltas; the progress arguments = the running concatenations, one per delta |
| Stream.ReadLines | src/lib/api.ts:222-243 | the inner loop extends the text by exactly its lines' deltas and records one progress call per delta |
| Stream.LineContent | src/lib/api.ts:223-238 | a line adds something exactly when it is not ignored; then it is a `data: ` line whose payload is not `[DONE]` and parses to exactly what is added |
| Stream.IgnoredAddsNothing | src/lib/api.ts:223-241 | a line adds nothing exactly when it is not a data line, is `[DONE]`, fails to parse or has an empty delta |
| Stream.IgnoredLineIsolated | src/lib/api.ts:239-241 | an ignored line among others removes nothing from what the other lines add, so a bad line does not stop the loop |
| Stream.BlankIsTrimEmpty | src/lib/api.ts:220 | the blank-line test is exactly `trim() === ""` |
| Stream.BlankFilterInert | src/lib/api.ts:220 | dropping blank lines first changes no delta |
| Stream.NonBlankMembers | src/lib/api.ts:220 | the blank-line filter keeps exactly the lines that are not blank |
| Stream.ChunkLinesMembers | src/lib/api.ts:220 | a chunk's lines are exactly its "\n"-separated pieces that are not blank |
| Stream.ChunkIgnoresBlankFilter | src/lib/api.ts:217-222 | a chunk adds the deltas of its "\n"-separated lines, in order |
| Stream.LinesDeltasAppend | src/lib/api.ts:222-243 | deltas of concatenated line runs are the concatenated deltas |
| Stream.StreamDeltasAppend | src/lib/api.ts:212-244 | deltas of concatenated chunk runs are the concatenated deltas; every chunk is processed until the reader reports done |
| Stream.RunningAt | src/lib/api.ts:235-237 | the k-th progress call carries the concatenation of the first k+1 deltas |
| Stream.RunningGrows | src/lib/api.ts:233-238 | each progress argument is a proper prefix of the next, and the last is the final text |
| Stream.ConcatAppend | src/lib/api.ts:235 | the text of two runs of deltas is the first's text followed by the second's |
| Stream.SingleLineChunk | src/lib/api.ts:217-220 | a chunk with no newline is one line |
| Stream.DataChunk | src/lib/api.ts:223-238 | a one-line `data: ` chunk adds its parsed delta when that is non-empty, otherwise nothing |
| Stream.BadDataChunk | src/lib/api.ts:239-241 | a one-line `data: ` chunk whose payload does not parse adds nothing |
| Stream.CutLineIsLost | src/lib/api.ts:217-220 | chunks are split on their own: a data line cut across two reads adds nothing, the same line in one read adds its delta |
| Api.StreamingReasoningFallbacks | src/lib/api.ts:153-160 | streaming reasoning: the placeholder "优化思路生成中..." when the reply is not JSON, "无法获取优化思路" for an empty message, the message otherwise, whatever the status; never empty |
| Api.PlainReasoningFallbacks | src/lib/api.ts:288-297 | non-streamed reasoning: the message only from a 2xx reply that has one, "无法获取优化思路" otherwise; a non-2xx reply with a message differs between the branches |
| Api.AnalyzeText | src/lib/api.ts:83-104 | succeeds exactly when the key is configured, with one suggestion about the input and no reasoning; otherwise fails with the missing-key error |
| Api.OptimizeText | src/lib/api.ts:107-263 | the streaming branch does what `StreamingRun` states: key check, two requests, reasoning fallbacks, error exits, stream loop, final result and callbacks in order |
| Api.MissingKeyRejectsFirst | src/lib/api.ts:114-117 | without a key both branches fail before any request or callback |
| Api.StreamingRun | src/lib/api.ts:114-263 | the streaming branch resolves exactly when both requests get through, the status is 2xx, there is a body and no read fails; past the key check the reasoning request always goes out first |
| Api.StreamingSuccess | src/lib/api.ts:163-263 | on success: result = the deltas' concatenation; the modifications are exactly one, of the input, with reason "优化思路", suggesting the result, with the branch's reasoning; the whole trace in order: reasoning request, feedback with an empty suggestion, content request, one progress call per running text, then the full text with its feedback; so feedback is passed exactly twice and exactly the two requests go out |
| Api.SuccessTraceShape | src/lib/api.ts:246-263 | the successful trace's feedback calls, text calls and requests are as listed above |
| Api.StreamingFailure | src/lib/api.ts:199-206 | a non-2xx status, a missing body or a failed read rejects with no result, after only the first feedback call and both requests; a bad status is reported with its code |
| Api.OpeningShape | src/lib/api.ts:127-197 | before the stream: the reasoning request, one feedback call with an empty suggestion, then the content request |
| Api.ProgressCallsShape | src/lib/api.ts:237 | the per-delta callbacks carry no feedback and issue no request |
| Api.PlainRun | src/lib/api.ts:326-331 | a non-streamed success never has empty text |
| Api.PlainSuccessIff | src/lib/api.ts:266-347 | the non-streamed branch succeeds exactly for a key, two completed requests and a 2xx JSON reply with text; that text is the result and its only suggestion, with the 2xx-only reasoning |
| HistoryItem.TruncateText | src/components/HistoryItem.tsx:35-38 | default 120; a text that fits comes back unchanged; a longer one becomes its first maxLength characters plus "...", of length exactly maxLength + 3 |
| HistoryItem.Preview | src/components/HistoryItem.tsx:53 | the card's preview is at most 123 characters and starts with the original's first 120 |
| HistoryItem.TruncateIdempotent | src/components/HistoryItem.tsx:35-38 | truncating a truncated text changes nothing |
| Simulation.LocalPrompt | src/context/ContentContext.tsx:52-67 | custom: the value if non-empty, otherwise the fallback instruction |
| Simulation.LocalPromptsDistinct | src/context/ContentContext.tsx:54-63 | the five fixed prompts tell their modes apart and ignore the custom value |
| Simulation.Shorten | src/context/ContentContext.tsx:122-130 | a shortened sentence is always a prefix of the original |
| Simulation.ShortenSpec | src/context/ContentContext.tsx:122-130 | a sentence is cut exactly when it has more than 15 characters and more than 8 words; then its words are its first 8 |
| Simulation.ShortenIdempotent | src/context/ContentContext.tsx:122-130 | shortening twice is shortening once |
| Simulation.SimplifySentences | src/context/ContentContext.tsx:119-132 | the ". "-separated sentences of the result are the input's sentences shortened one for one; the others stay unchanged |
| Simulation.SimplifyText | src/context/ContentContext.tsx:119-132 | simplifying never lengthens the text |
| Simulation.SimplifyKeepsShortText | src/context/ContentContext.tsx:119-132 | text without a long sentence comes back unchanged |
| Simulation.SimplifyIdempotent | src/context/ContentContext.tsx:119-132 | simplifying a simplified text changes nothing |
| Simulation.KeptSentences | src/context/ContentContext.tsx:103-105 | a string is kept exactly when it is a trimmed input sentence and not empty; no more are kept than there were |
| Simulation.KeptSentencesAppend | src/context/ContentContext.tsx:103-105 | trimming and dropping works piece by piece, so the kept sentences stay in input order |
| Simulation.ImproveAllPipeline | src/context/ContentContext.tsx:101-117 | the fused `improve` pipeline equals the source's chain: trim, drop empty sentences, then vary the k-th kept sentence by the k-th random choice |
| Simulation.ImproveAllShort | src/context/ContentContext.tsx:103-108 | when every kept sentence is short, the pipeline returns exactly the kept sentences |
| Simulation.ImproveShortIsDeterministic | src/context/ContentContext.tsx:101-117 | when every kept sentence is shorter than 10, `improve` only trims and drops empties, whatever the random choices |
| Simulation.ImproveShortSentence | src/context/ContentContext.tsx:108 | a sentence shorter than 10 passes through whatever the random choice |
| Simulation.ImproveLongSentence | src/context/ContentContext.tsx:108-115 | a long sentence gets "Indeed, " or "Notably, " in front, or keeps all but its first character |
| Simulation.ProfessionalText | src/context/ContentContext.tsx:137-138 | the result opens with the formal greeting and ends with the formal closing |
| Simulation.SimulateOptimization | src/context/ContentContext.tsx:99-150 | persuasive and custom begin with the content and end with their tails; simplify never lengthens; professional and creative open and close with their fixed frames |
| Simulation.SimulationShapes | src/context/ContentContext.tsx:99-150 | only improve depends on the random choices; persuasive and custom are exactly as long as the content plus their tails, so they are the content followed by the tail and nothing else |
| Simulation.ProfessionalFramesPlainContent | src/context/ContentContext.tsx:137-138 | without "I " or "My ", professional only frames the content |
| Session.WithEntry | src/context/ContentContext.tsx:167-180 | a save adds one entry in front, leaving the earlier ones in order, exactly when both texts are non-empty |
| Session.WithEntryHead | src/context/ContentContext.tsx:169-175 | the new entry holds the saved texts, mode, id and timestamp |
| Session.RemoveId | src/context/ContentContext.tsx:182-184 | an entry survives a delete exactly when it was there and has another id; nothing is added |
| Session.RemoveIdAppend | src/context/ContentContext.tsx:183 | deleting works piecewise, so the survivors keep their order |
| Session.RemoveAbsentId | src/context/ContentContext.tsx:183 | deleting an id no entry has changes nothing |
| Session.RemoveUniqueId | src/context/ContentContext.tsx:183 | with unique ids, deleting entry k's id removes exactly entry k |
| Session.RemoveIdIdempotent | src/context/ContentContext.tsx:183 | deleting an id twice is deleting it once |
| Session.ContentSession.constructor | src/context/ContentContext.tsx:27-45 | starts empty, not processing, in `improve`, with the stored history or none |
| Session.ContentSession.OptimizeContent | src/context/ContentContext.tsx:69-81 | content whose trimmed length is below 10 changes nothing; otherwise processing starts, the content becomes the original, and the content and current mode are captured |
| Session.ContentSession.CompleteOptimization | src/context/ContentContext.tsx:83-89 | the captured content's simulated rewrite in the captured mode becomes the optimized text; processing ends |
| Session.ContentSession.AcceptOptimization | src/context/ContentContext.tsx:152-158 | no-op without an optimized text; otherwise original := old optimized, optimized := "", and the pre-accept pair is put in front of the history, in the current mode, when both of its texts are non-empty (as `saveToHistory` does) |
| Session.ContentSession.SaveToHistory | src/context/ContentContext.tsx:167-180 | the history becomes `WithEntry` of the current pair; nothing else changes |
| Session.ContentSession.DeleteHistoryItem | src/context/ContentContext.tsx:182-185 | the history becomes `RemoveId` of its old value; nothing else changes |
| Session.ContentSession.LoadFromHistory | src/context/ContentContext.tsx:187-191 | the entry's texts and mode are loaded; the history is untouched |
| Session.ContentSession.SetPromptType | src/context/ContentContext.tsx:160-165 | the mode always changes; the custom prompt only for `custom` with a prompt supplied |
| Panel.PromptPanel.constructor | src/components/PromptPanel.tsx:46 | the panel starts with an empty custom text |
| Panel.PromptPanel.HandleSelectPrompt | src/components/PromptPanel.tsx:48-54 | forwards the mode; custom text is forwarded exactly for `custom`, and it is the panel's text |
| Panel.PromptPanel.HandleCustomPromptChange | src/components/PromptPanel.tsx:56-61 | the local text always follows the input; it is forwarded as a `custom` selection exactly while `custom` is selected |
| Index.SelectPrompt | src/pages/Index.tsx:37-40 | choosing a non-custom mode leaves the session's custom prompt untouched; choosing `custom` stores the panel's text |
| Index.EditCustomPrompt | src/pages/Index.tsx:37-40 | typing a custom prompt reaches the session only while the session is in `custom`, and never changes the mode |
| Index.Submit | src/pages/Index.tsx:43-47 | the two length guards agree: short text changes nothing in the session; other text starts optimizing exactly that text, with the mode, custom prompt, optimized text and history untouched; the editor keeps its text |
| HistoryView.HistoryPage.constructor | src/pages/History.tsx:20 | the page starts with nothing selected, over the given session |
| HistoryView.HistoryPage.HandleView | src/pages/History.tsx:26-28 | the item becomes the selection |
| HistoryView.HistoryPage.HandleEdit | src/pages/History.tsx:30-33 | the entry's texts and mode are loaded into the session; history and selection unchanged |
| HistoryView.HistoryPage.HandleDelete | src/pages/History.tsx:35-40 | the id is deleted; the selection is cleared exactly when it has that id |
| HistoryView.HistoryPage.HandleClearAll | src/pages/History.tsx:42-45 | deleting every shown id in turn leaves the history empty and nothing selected |
| Guide.UserGuide.constructor | src/components/UserGuide.tsx:8-9 | the guide starts open, on step 0 |
| Guide.UserGuide.Current | src/components/UserGuide.tsx:64-76 | the step on show is one of the five |
| Guide.UserGuide.ButtonLabel | src/components/UserGuide.tsx:97-104 | the button reads "Get Started" exactly on the last step |
| Guide.UserGuide.HandleNextStep | src/components/UserGuide.tsx:34-40 | below the last step: advance and stay open; on the last step: close without moving; the step stays within 0..4 |
| Guide.UserGuide.Close | src/components/UserGuide.tsx:69 | closes without changing the step |
| Guide.UserGuide.Reopen | src/components/UserGuide.tsx:48-51 | opens on step 0 |
| Editor.ContentEditor.constructor | src/components/ContentEditor.tsx:20-26 | the editor starts with the prop as its text; once the counter effect has run, the counter equals its length |
| Editor.ContentEditor.Edit | src/components/ContentEditor.tsx:24-26 | the text changes and the counter equals its length |
| Editor.ContentEditor.ReceiveInitialContent | src/components/ContentEditor.tsx:28-30 | a new prop replaces the text (a repeated one does not); the counter follows |
| Editor.ContentEditor.HandleSubmit | src/components/ContentEditor.tsx:32-38 | the text is handed on exactly when its trimmed length is at least 10; it is never changed |
| Editor.ContentEditor.SubmitEnabled | src/components/ContentEditor.tsx:81 | the button is never enabled while processing, and otherwise enabled exactly for the text `HandleSubmit` hands on |

## Left out

- HTTP is not modelled. `fetch`, headers, the model name, `temperature`, the JSON request
  bodies, `response.json()`, the body reader and `TextDecoder` are all outside the model. The
  replies are parameters:
  - a reply is `None` when `fetch` rejects;
  - a non-streamed reply carries its status and its message text (`None` when the body is not
    JSON);
  - a streamed reply carries its status, the decoded chunks, and whether a read rejects after
    them.
  - `JSON.parse` of a stream payload, followed by the delta lookup, is a function parameter.
- String lengths are counted in Unicode scalar values. JavaScript `length` and `substring`
  count UTF-16 code units. The two agree on text in the Basic Multilingual Plane.
  They differ only for text outside that plane, in these places: `TruncateText`, the
  10-character guards, the editor's character counter (`charCount`), simplify's
  `sentence.length > 15`, and improve's `length < 10`, `charAt(0)` and `slice(1)`.
- `Math.random` in `improve` is a caller-supplied choice per kept sentence.
- `toLowerCase` and `toUpperCase` are caller-supplied mappings.
- The regular expressions `/I /g` and `/My /g` are modelled as literal replace-all.
- Persistence to `localStorage` is not modelled: the load on mount, the save after every
  history change, and the removal of a corrupt value. The constructor takes the already-parsed
  history, or `None`.
- `Date.now()` ids and timestamps are parameters.
- `setTimeout` is not modelled. `optimizeContent` is split into `OptimizeContent` and its timer
  body, `CompleteOptimization`. Overlapping calls and timer interleavings are not modelled.
- Toasts, `console` logging, `document.title`, the clipboard copy, navigation, the panel's
  expand toggle, `formatDate` and rendering are not modelled. `Navbar`, `App`, `NotFound` and
  `ContentComparison` are not part of this model.
- The raw setters `setOriginalContent` and `setOptimizedContent` that the session holder exports
  are plain field writes and are not modelled as methods.
- The `default` branches of the mode switches are not modelled: the mode type is closed, so they
  cannot be reached.
- The history record's `type` is a string in the source. Here it is the mode value, because only
  `saveToHistory` writes it, and it always writes the current mode. `loadFromHistory`'s cast of
  other strings is therefore not modelled.
- A progress callback that throws is not modelled.
- The system prompt prose is replaced by distinct placeholder texts. Only the lookup and its
  fallback are modelled.
- `Simulation.LocalPrompt`: the session holder computes this prompt and never uses it. It is
  modelled as a function only, and its contract covers only the `custom` branch; the fixed
  prompts are covered by `LocalPromptsDistinct`.
- Points where the code's behaviour is easy to misread, followed as written:
  - `optimizeContent` does not clear the optimized text when it starts.
  - The progress callback fires once per non-empty delta, not once per chunk.
  - Each chunk is split on its own, so a line cut across two reads is lost
    (`Stream.CutLineIsLost`).
  - The session holder has no feedback list and no streaming flag, and it calls the local
    simulation, not the remote service.
