# Gemini chat client: conversation reducer and session holder

A Dafny model of the core of a browser chat client that sends the user's
text to a hosted language model and shows the reply as it streams in.
Three parts of the client are modelled:

- **The conversation reducer** (`App.tsx`, module `AppComponent` with the
  pure updates in module `Conversation`). Sending appends the user's
  message and an empty streaming placeholder and raises the busy flag
  `isLoading`. It then walks the reply stream, adding each chunk's text to a
  running `fullText` and rewriting the placeholder by id with `prev.map`.
  Finally it either clears the placeholder's streaming flag or replaces its
  text by an error text, and it always lowers `isLoading`. Clearing the
  chat, once confirmed, resets the session and leaves a single welcome entry.
  The class `App` holds `messages` and `isLoading` and updates them in
  place. The loop of `HandleSendMessage` is proved against the
  specification function `SendResult`. `Accumulate` is the running
  `fullText`, `Streamed` is the log after the per-chunk updates and
  `Settlement` is the final update.
- **The session holder** (`services/geminiService.ts`, module
  `GeminiService`). It has two lazily filled module-level slots: the SDK
  client `genAI` and the chat session `chatSession`. The client is built
  on first use from the configured key. A missing key throws
  "API_KEY is missing" and caches nothing. A reset clears the session slot
  only. The rules are a pure state machine over `Gateway` values
  (`InitializeGenAIStep`, `GetChatSessionStep`, `ResetChatSessionStep`,
  `Run`). The class `ChatService` updates the slots in place and is proved
  to follow that state machine. SDK objects are value handles. A session
  carries an allocation serial that stands for object identity. A ghost
  counter records how many clients were built.
- **The submit gate** (`components/ChatInput.tsx`, module
  `ChatInputComponent`). Enter without Shift submits. A submit forwards
  `text.trim()` and clears the field, unless the text is blank or the field
  is disabled. The field is disabled while the page's `isLoading` is up.
  `trim` is modelled over an explicit predicate for the characters
  ECMAScript counts as white space or line terminators.

Inputs that the source reads from the environment become parameters:
- the four `Date.now()` readings of a send (`Clock`) and the two of a clear;
- the answer of `window.confirm`;
- the two places a key may be configured (`Env`);
- the model's reply (`ChunkStream`). This is a finite sequence of chunks,
  where a chunk without text is `None`. It may be followed by the message
  of an error thrown after those chunks. An error thrown by
  `sendMessageStream` itself is a stream with no chunks and that error.

Behaviour of the code kept as written:
- Clearing the chat does not lower `isLoading` (`App.tsx:36-48`).
- Message ids are clock readings. The user message and the
  placeholder get different ids whenever the clock does not run backwards
  (`Clock.Monotone`). The history-preservation lemmas take "no earlier entry
  carries the placeholder's id" as a hypothesis. Without it, `prev.map`
  rewrites every entry with that id, and `UpdateById` models exactly that.
- The busy and blank-text checks live in the input component, not in the
  send handler. `HandleSendMessage` accepts any text.

## Model

| member | source | states |
|---|---|---|
| `Conversation.InitialLog` | App.tsx:16-25 | the mounted page shows one entry, id 'welcome', role MODEL, the welcome text, neither streaming nor failed |
| `Conversation.ClearedLog` | App.tsx:39-46 | a cleared log holds exactly one MODEL entry with the welcome text, not streaming, not failed, whose id is no clock-stamp id |
| `Conversation.Opened` | App.tsx:51-72 | sending appends exactly two entries after the unchanged history: the USER message with the given text, then a MODEL placeholder with empty text and `isStreaming`; under a monotone clock their ids differ |
| `Conversation.UserMessage` | App.tsx:51-57 | the user entry has role USER, the given text and the second clock reading as timestamp, and is neither streaming nor failed |
| `Conversation.BotId` | App.tsx:63 | the placeholder id is a clock-stamp id, different from the user message's id whenever the clock did not run backwards between the two readings |
| `Conversation.Placeholder` | App.tsx:63-70 | the placeholder has the placeholder id, role MODEL, empty text, is streaming and not failed |
| `Conversation.ApplyPatch` | App.tsx:85-123 | each spread keeps the entry's id, role and timestamp |
| `Conversation.UpdateById` | App.tsx:85-91 | the update keeps the length and order, rewrites every entry whose id matches and leaves every other entry as it was |
| `Conversation.UpdateByMissingIdIsNoOp` | App.tsx:85-91 | an update by an id no entry carries leaves the log unchanged |
| `Conversation.UpdateByIdDistributes` | App.tsx:85-91 | updating a concatenation is updating each part |
| `Conversation.SetTextOverwrites` | App.tsx:83-91 | each chunk update replaces the text set by the previous one |
| `Conversation.ErrorText` | App.tsx:105-110 | the error text is the configuration-specific one exactly when the error message is "API_KEY is missing", otherwise the generic retry text |
| `Conversation.ChunkText` | App.tsx:82 | a chunk contributes its text, and nothing exactly when it has no text or empty text |
| `Conversation.Accumulate` | App.tsx:78-83 | the running text is empty before any chunk and equals the one chunk's text after a single chunk |
| `Conversation.AccumulateIsEmptyIff` | App.tsx:78-83 | the running text is empty exactly when no chunk carries text |
| `Conversation.AccumulateAppend` | App.tsx:78-83 | the running text over two runs of chunks is the concatenation of the texts over each run |
| `Conversation.AccumulateStep` | App.tsx:80-83 | one more chunk appends its text, or nothing for a chunk without text |
| `Conversation.SplitChunkInvariance` | App.tsx:78-83 | splitting one chunk's text across two chunks leaves the accumulated text unchanged |
| `Conversation.Streamed` | App.tsx:80-92 | after the chunk updates the log keeps its length; entries with another id are unchanged; with at least one chunk, entries with the placeholder id carry the running text over all chunks, and with none the log is unchanged |
| `Conversation.Settlement` | App.tsx:94-123 | on completion the final update only ends streaming; on an error it marks the entry failed with the text `ErrorText` chooses |
| `Conversation.SendResult` | App.tsx:50-123 | the whole send's effect on the log: two entries more, the last one the placeholder, role MODEL, no longer streaming |
| `Conversation.StreamedStep` | App.tsx:80-92 | the update after chunk i takes the log from its state after i chunks to its state after i+1 |
| `Conversation.StreamedOnFreshId` | App.tsx:80-92 | with a fresh placeholder id and a monotone clock, the chunk updates change only the placeholder's text, to the concatenation of the chunks |
| `Conversation.SendSettlesPlaceholder` | App.tsx:63-123 | after a send the placeholder is the last entry and no longer streaming; on completion its text is the concatenation of all chunk texts and it is not failed; on error its text is only the error text and it is failed |
| `Conversation.SendKeepsUserMessage` | App.tsx:51-72 | under a monotone clock the user message survives the send unchanged |
| `Conversation.SendKeepsHistory` | App.tsx:59-123 | when no earlier entry has the placeholder's id, all earlier entries are kept in order |
| `Conversation.StreamedKeepsStreamingFlags` | App.tsx:85-91 | the per-chunk updates write text only: every entry keeps its streaming flag |
| `Conversation.SendLeavesNothingStreaming` | App.tsx:94-123 | if no entry was streaming before a send, none is after it |
| `Conversation.ChunkBoundaryInvariance` | App.tsx:78-101 | two chunk sequences with the same concatenation give the same final log |
| `Conversation.UpdatesAfterClearAreNoOps` | App.tsx:85-123 | after a clear between chunks, each later chunk update of the in-flight send (writing the running text over the chunks before and after the clear) and its final update leave the cleared log unchanged |
| `GeminiService.GetApiKey` | services/geminiService.ts:7-27 | the Vite key if it is a non-empty string, else the process key if it is, else none; never an empty key |
| `GeminiService.InitializeGenAIStep` | services/geminiService.ts:29-40 | a built client is returned with no change; otherwise a client is built from the key and counted; with no key it throws "API_KEY is missing" and the state is unchanged |
| `GeminiService.GetChatSessionStep` | services/geminiService.ts:42-53 | a cached session is returned with no change; otherwise a new session with the next serial, the configured model and the system instruction is opened and cached; it throws only when neither slot is filled and no key is configured, and then changes nothing; the module invariant is kept |
| `GeminiService.ResetChatSessionStep` | services/geminiService.ts:55-57 | a reset empties the session slot and changes nothing else |
| `GeminiService.Run` | services/geminiService.ts:42-57 | over any sequence of session requests and resets, the session and client counters never decrease, so a session serial is never reused |
| `GeminiService.SecondCallReturnsSameSession` | services/geminiService.ts:42-53 | two requests with no reset between them return the same session, and the second changes nothing |
| `GeminiService.ResetIsIdempotent` | services/geminiService.ts:55-57 | resetting twice equals resetting once |
| `GeminiService.ResetThenGetOpensFreshSession` | services/geminiService.ts:42-57 | after a reset the next request succeeds even without a key, opens a session different from the dropped one, and reuses the existing client |
| `GeminiService.MissingKeyIsNotCached` | services/geminiService.ts:29-53 | without a key the first request throws "API_KEY is missing" and leaves both slots empty; a later request with a key succeeds with a client for that key |
| `GeminiService.RunPreservesValid` | services/geminiService.ts:4-57 | every sequence of requests and resets keeps the invariant: one client built iff the client slot is filled, and a cached session belongs to the cached client |
| `GeminiService.ClientNeverReplaced` | services/geminiService.ts:29-40 | once built, the client is never replaced |
| `GeminiService.ClientBuiltAtMostOnce` | services/geminiService.ts:4-40 | over the module's lifetime at most one client is built |
| `GeminiService.ChatService.constructor` | services/geminiService.ts:4-5 | both slots start empty |
| `GeminiService.ChatService.InitializeGenAI` | services/geminiService.ts:29-40 | the in-place client slot follows `InitializeGenAIStep` and keeps the invariant |
| `GeminiService.ChatService.GetChatSession` | services/geminiService.ts:42-53 | the in-place slots follow `GetChatSessionStep` and keep the invariant |
| `GeminiService.ChatService.ResetChatSession` | services/geminiService.ts:55-57 | the in-place session slot follows `ResetChatSessionStep` |
| `ChatInputComponent.IsWhitespace` | components/ChatInput.tsx:15-16 | space, tab, line feed and carriage return are trimmed; no visible ASCII character is |
| `ChatInputComponent.TrimStart` | components/ChatInput.tsx:15-16 | the result is the longest suffix not starting with white space; everything dropped is white space |
| `ChatInputComponent.TrimEnd` | components/ChatInput.tsx:15-16 | the result is the longest prefix not ending with white space; everything dropped is white space |
| `ChatInputComponent.Trim` | components/ChatInput.tsx:15-16 | the trimmed text is empty iff the text is all white space, and otherwise starts and ends with a non-white-space character |
| `ChatInputComponent.TrimIsSurroundedByWhitespace` | components/ChatInput.tsx:15-16 | the trimmed text is a slice of the input with only white space cut off on either side |
| `ChatInputComponent.TrimOfTrimmed` | components/ChatInput.tsx:15-16 | text with no white space at either end is left unchanged |
| `ChatInputComponent.TrimIsIdempotent` | components/ChatInput.tsx:15-16 | trimming twice equals trimming once |
| `ChatInputComponent.SubmitGate` | components/ChatInput.tsx:15-16 | text is forwarded iff the field is enabled and the text is not all white space; the forwarded text is the trimmed text and is never empty |
| `ChatInputComponent.ChatInput.constructor` | components/ChatInput.tsx:10 | the field starts empty |
| `ChatInputComponent.ChatInput.HandleInput` | components/ChatInput.tsx:32-33 | the field holds what was typed |
| `ChatInputComponent.ChatInput.HandleSubmit` | components/ChatInput.tsx:13-23 | forwards what `SubmitGate` allows; a forwarding submit clears the field and a rejected one leaves it unchanged |
| `ChatInputComponent.ChatInput.HandleKeyDown` | components/ChatInput.tsx:25-30 | Enter without Shift submits; any other key forwards nothing and leaves the field unchanged |
| `AppComponent.ReplyFor` | App.tsx:74-76 | when no session can be had, no chunks are consumed and the session error is the one handled; otherwise the model's stream is consumed |
| `AppComponent.App.constructor` | App.tsx:11-12 | the log starts empty and the page is not busy |
| `AppComponent.App.Mount` | App.tsx:16-25 | mounting seeds the log with the welcome entry |
| `AppComponent.App.HandleClearChat` | App.tsx:36-48 | a confirmed clear resets the session and leaves one welcome entry; an unconfirmed one changes nothing; `isLoading` is untouched either way |
| `AppComponent.App.OpenExchange` | App.tsx:50-72 | the start of a send appends the user message and the placeholder and raises `isLoading` |
| `AppComponent.App.HandleSendMessage` | App.tsx:50-127 | the final log is `SendResult` over the reply that was actually consumed; the session holder takes one `GetChatSessionStep`; `isLoading` stays up through the chunk loop and is down at the end on every path |
| `AppComponent.MissingKeySendShowsConfigError` | App.tsx:103-123 | with no key and nothing cached, a send ends with the configuration-specific text on a failed, non-streaming placeholder, and the session holder is unchanged |
| `AppComponent.TransportErrorDiscardsPartialText` | App.tsx:103-123 | any other error replaces the accumulated text entirely by the generic text and marks the placeholder failed |

## Left out

- Rendering is not modelled: the JSX of App.tsx and ChatInput.tsx, components/ChatMessage.tsx, markdown, avatars and styling. It is presentation with no contract.
- Scroll-to-bottom, textarea auto-resize, the height reset after a submit and focus handling are not modelled. They are DOM side effects.
- The Gemini SDK is not modelled (`GoogleGenAI`, `chats.create`, `sendMessageStream`). Its objects are value handles, and the reply stream is an input.
- `async`/`await` and `for await` become one sequential method. React's functional state updates are applied in order, as direct assignments. The one interleaving considered is a clear between chunks, covered by `UpdatesAfterClearAreNoOps`. A second send during a stream is prevented by the disabled input (`SubmitGate`) and is not modelled as interleaving.
- `window.confirm`, `console.error`, `Date.now()` and the environment reads are inputs or are dropped. The `typeof` guards and the ignored exception in `getApiKey` are read as "that key is absent".
- Strings are sequences of Unicode code points, not of the UTF-16 code units JavaScript strings are made of. A lone surrogate in the typed text, or a chunk boundary that splits a surrogate pair, is not represented. So `SplitChunkInvariance` and `ChunkBoundaryInvariance` cover splits between code points only. On well-formed text, `trim` and the `+=` of chunk texts agree with the source, because every character `trim` removes is a single UTF-16 code unit.
- Message ids are not proved unique across sends. They are clock readings, and two sends in the same millisecond can collide. `SendKeepsHistory` and `ChunkBoundaryInvariance` take freshness as a hypothesis instead.
- A thrown non-null value without a `message` is modelled as an error whose message is not "API_KEY is missing". It gets the generic text, as in the source.
- A thrown `null` or `undefined` is not modelled. In the source, reading its `message` throws inside the `catch` (App.tsx:108), so the placeholder stays streaming with its partial text; `finally` still lowers `isLoading`.
- `APP_NAME` in constants.ts is display text only. types.ts is not part of this model. Its two roles and the optional `isStreaming`/`isError` flags, with absent read as `false`, are taken from their uses in App.tsx.
