# Chat transcript state machine of the Wizard chat page

This project models the logic of the chat page component
(`components/ChatPage.tsx`): the transcript of role-tagged messages, the
input box, the in-flight flag and the lazily created, cached chat-session
handle, together with the handlers that change them. These are the initial
state, `startNewChat`, `getChatSession` and `handleSendMessage`. The last one
has a guard, the user message, the empty reply placeholder, the fold of the
streamed chunks into that placeholder, the error path and the `finally`.

Files:

- `text.dfy` (module `JsText`): JavaScript's `String.prototype.trim` over the
  ECMAScript whitespace and line-terminator characters, used by the send guard.
- `transcript.dfy` (module `Transcript`): messages, update-by-id (the
  `prev.map(...)` state update), the accumulated reply text, and the fold of
  the streaming loop over the transcript.
- `session.dfy` (module `ChatSession`): the page state as a value. Each step
  of each handler is a function, and `HandleSendMessage` composes them into a
  whole send. The lemmas state what the page promises: the guard, the shape
  of the transcript after a successful or failed send, the session-handle
  cache, and what happens when a new chat starts while a reply streams.
- `page.dfy` (module `ChatComponent`): class `ChatPage` with the component's
  state as fields. It has one method per handler step and the whole
  `HandleSendMessage` with its streaming `while` loop. Each method is proved
  to move the object's state exactly as the matching `ChatSession` function
  does, and to keep the id invariant.

Modelling choices:

- The external chat service is two parameters. `createFails: bool` says
  whether creating a session throws; it only applies when no handle is
  cached. A `Reply` is either `OpenFailed` (opening the stream rejects) or
  `Streamed(chunks, completes)`: the chunks arrive in order, and then the
  stream ends or throws.
- A chunk's text is `Option<string>`, because a streamed response's `text`
  may be absent. Absent and empty texts are both skipped (`if (chunkText)`).
- Message ids come from a fresh-id counter (`nextId`). The welcome message
  has id 0. The component itself derives ids from the wall clock.
- Session handles are numbered in creation order (`sessionsCreated`). This
  makes "the next send after a reset creates a new handle" expressible.
- The send steps are separate functions and methods. So a `startNewChat`
  can be placed between two chunks; `ChatSession.ResetDuringStream` covers
  that case.

Behaviour in the less obvious cases, as the code has it:

- The placeholder is appended only after `getChatSession` has returned. A
  session-creation failure therefore leaves the user message followed directly
  by the error message, with no placeholder. A failure to open the stream
  leaves an empty placeholder before the error message.
- Chunks whose text is missing or empty are skipped, not appended.
- Session creation sits inside the `try`, so its failure takes the error path.
- The code has no explicit reset-during-send policy. What happens is
  this: late chunks are dropped, because no message in the new transcript
  carries the placeholder's id. A late failure still appends the error
  message to the new transcript, and the in-flight flag stays set until the
  old send finishes.

## Model

| member | source | states |
|---|---|---|
| `JsText.TrimStart` | components/ChatPage.tsx:75 | the result is a suffix of the input, everything dropped is whitespace, and the result does not start with whitespace |
| `JsText.TrimEnd` | components/ChatPage.tsx:75 | the result is a prefix of the input, everything dropped is whitespace, and the result does not end with whitespace |
| `JsText.Trim` | components/ChatPage.tsx:75 | `trim()` returns text with no whitespace at either end; it is empty exactly when the input is all whitespace |
| `JsText.TrimIsSlice` | components/ChatPage.tsx:75 | `trim()` removes whitespace at the two ends and nothing else: its result is the contiguous slice of the input after the leading whitespace, with only whitespace after it |
| `JsText.IsWhitespace` | components/ChatPage.tsx:75 | the characters `trim()` removes (ECMAScript WhiteSpace and LineTerminator); specified through the `TrimStart`, `TrimEnd` and `Trim` contracts, which say only these are dropped |
| `Transcript.UpdateById` | components/ChatPage.tsx:105-109 | the length is unchanged; each message with the id gets the new text and keeps its id and role; every other message is unchanged; if no message has the id, the transcript is unchanged |
| `Transcript.Emitted` | components/ChatPage.tsx:101-104 | defined as the present, non-empty chunk texts in arrival order; the contract bounds the length and excludes empty texts |
| `Transcript.Accumulate` | components/ChatPage.tsx:100-104 | `fullText` after the chunks so far, one `+=` per chunk; specified by `AccumulateIsConcatOfEmitted`, `AccumulatePrefix` and `AccumulateSnoc` |
| `Transcript.AccumulateIsConcatOfEmitted` | components/ChatPage.tsx:100-104 | the `fullText += chunkText` accumulation equals the in-order concatenation of the non-empty chunk texts |
| `Transcript.AccumulatePrefix` | components/ChatPage.tsx:100-104 | the text accumulated after any k chunks is a prefix of the final text |
| `Transcript.FoldChunks` | components/ChatPage.tsx:100-111 | the streaming loop keeps the transcript's length and every message's id and role, and leaves messages with other ids unchanged |
| `Transcript.FoldIsSingleUpdate` | components/ChatPage.tsx:100-111 | when the placeholder starts empty, the whole loop equals one update of the placeholder with the accumulated text |
| `Transcript.FoldWithoutTarget` | components/ChatPage.tsx:105-109 | chunks for an id that no message carries leave the transcript unchanged |
| `Transcript.AccumulateSnoc` | components/ChatPage.tsx:103-104 | one more chunk extends the accumulated text by that chunk's text, or by nothing when the text is absent or empty |
| `Transcript.ScenarioHelloWorld` | components/ChatPage.tsx:100-104 | the chunks "Hel", "", "lo", absent, " world" accumulate to "Hel", "Hel", "Hello", "Hello", "Hello world" in that order |
| `ChatSession.Initial` | components/ChatPage.tsx:19-30 | the page mounts with exactly one `model` welcome message, an empty input, no send in flight and no cached session |
| `ChatSession.SetInput` | components/ChatPage.tsx:295-300 | typing; a no-op while loading. Specified by `SetInputPreservesValid` and matched by `ChatComponent.ChatPage.SetInput` |
| `ChatSession.CanSend` | components/ChatPage.tsx:75 | the send guard: input not blank and no send in flight. Specified by `SendRejectedIff` (both directions) and tied to `trim()` by the `Trim` contract and `ChatComponent.ChatPage.InputTrimsEmpty` |
| `ChatSession.Submit` | components/ChatPage.tsx:75-87 | the guard then the user message. Specified by `SubmitEffect` and `SendRejectedIff`, invariant kept by `SubmitPreservesValid` |
| `ChatSession.GetChatSession` | components/ChatPage.tsx:61-71 | the cached-or-created handle. Specified by `CreateFailsOnlyWithoutCache`, `GetChatSessionIdempotent`, `ResetForcesNewSession` and `GetChatSessionPreservesValid` |
| `ChatSession.AppendPlaceholder` | components/ChatPage.tsx:91-96 | the empty `model` message. Specified by `PlaceholderFollowsUser`, `WaitingState` and `AppendPlaceholderPreservesValid` |
| `ChatSession.ApplyChunk` | components/ChatPage.tsx:105-109 | one streaming update. Specified by `ApplyChunkFrame`, `ApplyChunkMissing` and `ApplyChunkPreservesValid` |
| `ChatSession.StreamChunks` | components/ChatPage.tsx:100-111 | the whole streaming loop. Specified by `StreamFillsPlaceholder`, `StreamIntermediate` and `StreamChunksPreservesValid` |
| `ChatSession.ReportError` | components/ChatPage.tsx:115-119 | the `catch` branch. Specified by `SendFailsMidStream`, `SendFailsOnOpen`, `SendFailsOnCreate` and `ReportErrorPreservesValid` |
| `ChatSession.FinishSend` | components/ChatPage.tsx:120-122 | the `finally` branch. Specified by `SendEndsIdle` and `FinishSendPreservesValid` |
| `ChatSession.StartNewChat` | components/ChatPage.tsx:51-58 | the reset. Specified by `StartNewChatEffect`, `ResetForcesNewSession`, `ResetDuringStream` and `StartNewChatPreservesValid` |
| `ChatSession.HandleSendMessage` | components/ChatPage.tsx:73-123 | a whole send. Specified by `SendSucceeds`, `SendFailsMidStream`, `SendFailsOnOpen`, `SendFailsOnCreate`, `SendEndsIdle` and `SendPreservesValid` |
| `ChatSession.SendRejectedIff` | components/ChatPage.tsx:75 | a send leaves the whole state unchanged exactly when the input is all whitespace or a send is in flight |
| `ChatSession.SubmitEffect` | components/ChatPage.tsx:75-87 | an accepted send appends exactly one `user` message holding the untrimmed input, clears the input, sets loading and keeps the session; a rejected one changes nothing |
| `ChatSession.CreateFailsOnlyWithoutCache` | components/ChatPage.tsx:61-71 | getting the session fails exactly when no handle is cached and creation throws |
| `ChatSession.PlaceholderFollowsUser` | components/ChatPage.tsx:89-96 | once the session is obtained, one empty `model` message comes directly after the user message, at the end of the transcript |
| `ChatSession.WaitingState` | components/ChatPage.tsx:77-96 | after the placeholder is appended, it is the last message, no earlier message shares its id, the input is empty and loading is set |
| `ChatSession.GetChatSessionIdempotent` | components/ChatPage.tsx:61-71 | a cached handle is returned unchanged, so a call after a successful call changes nothing |
| `ChatSession.ResetForcesNewSession` | components/ChatPage.tsx:51-71 | after a reset, the next session lookup creates a handle different from the one dropped |
| `ChatSession.StartNewChatEffect` | components/ChatPage.tsx:51-58 | a reset leaves exactly one `model` message with the fixed reset text, no cached session, and the loading flag and input as they were |
| `ChatSession.ApplyChunkFrame` | components/ChatPage.tsx:105-109 | a chunk update changes only the message carrying the placeholder's id, and only its text; all other state is unchanged |
| `ChatSession.ApplyChunkMissing` | components/ChatPage.tsx:105-109 | a chunk update for an id that no message carries leaves the state unchanged |
| `ChatSession.UpdateLast` | components/ChatPage.tsx:105-109 | updating a freshly appended last message sets only its text |
| `ChatSession.StreamIntermediate` | components/ChatPage.tsx:100-110 | after any k chunks the placeholder holds the concatenation of the non-empty chunks so far, which is a prefix of the final reply; earlier messages are untouched |
| `ChatSession.StreamFillsPlaceholder` | components/ChatPage.tsx:100-111 | streaming into a freshly appended empty placeholder leaves the earlier messages as they were and the placeholder holding the accumulated text |
| `ChatSession.SendSucceeds` | components/ChatPage.tsx:73-123 | a completed stream leaves the old transcript plus the user message and the full reply; the input is empty, loading is false and a session is cached |
| `ChatSession.SendFailsMidStream` | components/ChatPage.tsx:98-122 | a stream that throws after some chunks keeps the partial reply and appends exactly one error message after it; loading is false |
| `ChatSession.SendFailsOnOpen` | components/ChatPage.tsx:89-122 | a stream that fails to open keeps the empty placeholder and appends the error message; the handle stays cached; loading is false |
| `ChatSession.SendFailsOnCreate` | components/ChatPage.tsx:89-122 | when session creation throws, the error message directly follows the user message, no handle is cached and loading is false |
| `ChatSession.SendEndsIdle` | components/ChatPage.tsx:75-122 | after a send the loading flag is what it was before: false after every send that was accepted |
| `ChatSession.AppendFreshValid` | components/ChatPage.tsx:86 | appending a message with the counter's id keeps ids distinct and below the counter |
| `ChatSession.SubmitPreservesValid` | components/ChatPage.tsx:81-86 | the user message keeps ids distinct |
| `ChatSession.AppendPlaceholderPreservesValid` | components/ChatPage.tsx:91-96 | the placeholder keeps ids distinct |
| `ChatSession.ReportErrorPreservesValid` | components/ChatPage.tsx:115-119 | the error message keeps ids distinct |
| `ChatSession.StreamChunksPreservesValid` | components/ChatPage.tsx:100-111 | the streaming loop keeps ids distinct |
| `ChatSession.ApplyChunkPreservesValid` | components/ChatPage.tsx:105-109 | a chunk update keeps ids distinct |
| `ChatSession.SetInputPreservesValid` | components/ChatPage.tsx:295-300 | typing keeps the id and handle invariant |
| `ChatSession.GetChatSessionPreservesValid` | components/ChatPage.tsx:61-71 | the session lookup keeps the invariant: a new handle is numbered below the creation count |
| `ChatSession.FinishSendPreservesValid` | components/ChatPage.tsx:120-122 | the `finally` step keeps the invariant |
| `ChatSession.StartNewChatPreservesValid` | components/ChatPage.tsx:51-58 | the reset message keeps ids distinct and below the counter |
| `ChatSession.SendPreservesValid` | components/ChatPage.tsx:73-123 | a whole send keeps the id and handle invariant |
| `ChatSession.ResetDuringStream` | components/ChatPage.tsx:51-122 | after a reset during a send, late chunks are dropped, a late failure appends the error message to the new transcript, and loading ends false |
| `ChatSession.ScenarioBonjour` | components/ChatPage.tsx:19-123 | a fresh page, "Hi" sent, stream ["Bonjour"]: the transcript is [welcome, user "Hi", model "Bonjour"] |
| `ChatComponent.ChatPage.constructor` | components/ChatPage.tsx:19-30 | the object starts in the initial state and satisfies the invariant |
| `ChatComponent.ChatPage.InputTrimsEmpty` | components/ChatPage.tsx:75 | `inputValue.trim()` is empty exactly when the input is all whitespace, which is the guard `CanSend` tests |
| `ChatComponent.ChatPage.SetInput` | components/ChatPage.tsx:295-300 | typing sets the input, except while loading, when the input box is disabled |
| `ChatComponent.ChatPage.Submit` | components/ChatPage.tsx:75-87 | reports acceptance exactly when the input is not blank and no send is in flight; the state moves as `ChatSession.Submit` |
| `ChatComponent.ChatPage.GetChatSession` | components/ChatPage.tsx:61-71 | returns the cached handle when there is one, otherwise the new handle or none; the state moves as `ChatSession.GetChatSession` |
| `ChatComponent.ChatPage.AppendPlaceholder` | components/ChatPage.tsx:91-96 | appends the empty `model` message and returns its fresh id |
| `ChatComponent.ChatPage.ApplyChunk` | components/ChatPage.tsx:105-109 | replaces the transcript with its update by id |
| `ChatComponent.ChatPage.StreamReply` | components/ChatPage.tsx:100-111 | the loop returns the accumulated text and leaves the transcript as `FoldChunks` does |
| `ChatComponent.ChatPage.ReportError` | components/ChatPage.tsx:113-119 | appends the fixed error message |
| `ChatComponent.ChatPage.FinishSend` | components/ChatPage.tsx:120-122 | clears the loading flag |
| `ChatComponent.ChatPage.StartNewChat` | components/ChatPage.tsx:51-58 | resets the transcript and drops the cached handle |
| `ChatComponent.ChatPage.HandleSendMessage` | components/ChatPage.tsx:73-123 | a whole send moves the object's state exactly as `ChatSession.HandleSendMessage` does |

## Left out

- The generative-AI SDK (`GoogleGenAI`, `ai.chats.create`, `sendMessageStream`, the model name and the system instruction) is a network service. The model replaces it with `createFails` and a `Reply`.
- `async`/`await` and `for await` are modelled as sequential steps. The model does not capture that the guard reads `isLoading` and `inputValue` as captured at the last render: two sends dispatched before a re-render could both pass the guard in the component.
- `Date.now()` message ids are replaced by a counter. So the model does not capture id collisions between messages created in the same millisecond. One such case: a reset message created in the millisecond that equals the placeholder's id would receive the late chunks.
- `JsText.Trim` works on Unicode scalar values, not UTF-16 code units. Every character trim removes is in the Basic Multilingual Plane, so the guard agrees.
- Not modelled (no state logic): `e?.preventDefault()`, the text-area height, scrolling, `console.error`, the sidebar toggles, the typing indicator, the send button's `disabled` (it repeats the guard), and all JSX and markdown rendering. The Enter-key handler only calls `handleSendMessage`.
- `components/LoginPage.tsx`, `App.tsx` and `components/ui/*` are presentation plus a login timer, with no transcript logic. They are not part of this model.
