# Chat-session controller of the RAG chatbot client, in Dafny

This project models the controller of the chat screen in `src/App.js` of a
document-question-answering chatbot front end. The screen holds the active
chat id, the transcript of messages and an in-flight flag (`loading`), plus a
switch that chooses between two transports for a question: a buffered request
that returns one answer, and a streamed request whose body is read chunk by
chunk. Each chunk is split into lines. Lines of the form `data: <json>` carry a
token to append to the reply or a `done` marker.

The model has six modules, one file each:

- `Wrappers` (`wrappers.dfy`): `Option`, for values that may be null.
- `JsString` (`js_string.dfy`): the JavaScript string operations the controller
  relies on. These are `trim` (with the exact ECMAScript white-space set),
  `split` on one character, and `startsWith`.
- `ChatState` (`chat_state.dfy`): a transcript entry (a chat entry with an
  optional timestamp id, a role and a text, or a document entry), the session
  state `Session(chatId, messages, loading)`, and the pure rewrites the handlers
  pass to the state setter. These are append, drop-last, the token `map`, the
  fallback `map`, history formatting and the last-user scan.
- `StreamFrames` (`stream_frames.dfy`): the per-line frame processor and its
  fold over the lines of a chunk and over the chunks of a body, with closed
  forms for both folds.
- `Transitions` (`transitions.dfy`): every handler as a function from the state
  before to the state after, and the properties of those functions.
- `ChatApp` (`chat_app.dfy`): class `App`, which holds the fields the
  component's state hooks hold. Its methods change them step by step, with the
  streamed reply read by a `while` loop over chunks around a `for` loop over
  lines. Each method that handles an event or reads the stream is proved to
  leave exactly the state that the matching function of `Transitions` or
  `StreamFrames` describes. `SetUseStreaming` only sets the switch.

Whatever the outside world supplies is a parameter:

- the outcome of every request (`Option` results, `StreamReply`);
- the decoded chunks the reader yields, and whether a later read rejects;
- the payload parser, a total function `string -> Frame` that stands for `JSON.parse` and the field reads after it;
- the two `Date.now()` values of a streamed send.

A send also returns the request it would issue (`Request(chatId, query,
regenerate)`), so that "no request" is observable.

Where the code's behaviour is easy to misread, the model follows the code:

- Chunks are split independently. No partial line is carried from one chunk to
  the next, so a frame split across two chunks is lost
  (`StreamFrames.FrameSplitAcrossChunksIsLost`). A chunk that ends on a newline
  loses nothing (`StreamFrames.AlignedChunkBoundaryIsHarmless`).
- A `done` frame only clears `loading`. The reader loop goes on, and later
  tokens are still appended.
- Regenerate drops the last entry whatever its role, not only an assistant entry.
- The buffered transport inserts no placeholder. It appends one assistant entry when the request settles.
- `loadChat` sets the chat id before fetching, so a failed load still switches the chat id.
- The streaming error path clears `loading`. It writes the fallback only into an
  empty entry whose id equals a second, fresh timestamp. Unless that timestamp
  equals the placeholder's, the placeholder keeps what it had received.
- Entries carry no `pending` flag, and nothing enforces a single pending entry.

## Model

| member | source | states |
|---|---|---|
| `JsString.TrimStart` | src/App.js:66 | the result is the suffix of the input that starts at its first kept character; everything removed is white space |
| `JsString.TrimEnd` | src/App.js:66 | the result is the prefix of the input that ends at its last kept character; everything removed is white space |
| `JsString.Trim` | src/App.js:66 | `trim` never lengthens the input |
| `JsString.TrimmedEndsAreKept` | src/App.js:66 | the result of `trim` neither starts nor ends with a white-space character |
| `JsString.IsBlank` | src/App.js:66 | `!input.trim()`: the empty input is blank (with `BlankIffAllTrimmable`, exactly the all-white-space inputs are) |
| `JsString.BlankIffAllTrimmable` | src/App.js:66 | `input.trim()` is empty exactly when every character of the input is ECMAScript white space or a line terminator |
| `JsString.Split` | src/App.js:113 | `split('\n')` yields at least one piece, and no piece contains the separator |
| `JsString.JoinSplit` | src/App.js:113 | joining the pieces of a split with the separator gives back the chunk |
| `JsString.SplitJoin` | src/App.js:113 | splitting a join of separator-free pieces gives back those pieces |
| `JsString.SplitWithoutSeparator` | src/App.js:113 | a chunk without a newline is one line |
| `JsString.SplitAtSeparator` | src/App.js:113 | the lines of `a + "\n" + b` are the lines of `a` followed by the lines of `b` |
| `JsString.StartsWith` | src/App.js:116 | `startsWith('data: ')` holds only of a line at least as long as the marker, and the empty prefix starts every string |
| `ChatState.DropLast` | src/App.js:72 | `slice(0, -1)` keeps a prefix one shorter than the transcript, or the empty transcript when it was empty |
| `ChatState.Message.HasId` | src/App.js:126 | `msg.id === key`: a document entry never matches, and a matching entry is a chat entry carrying exactly that id (the same test is at line 144) |
| `ChatState.Extend` | src/App.js:126-128 | the per-entry step of the token `map` keeps the entry's role and whether it carries the placeholder id |
| `ChatState.AppendToken` | src/App.js:124-130 | the token `map` keeps the transcript's length, and each entry's role and id match |
| `ChatState.ApplyFallback` | src/App.js:142-147 | the error-path `map` keeps the transcript's length, and each entry's role and id match |
| `ChatState.FormatStored` | src/App.js:41-44 | the history `map` yields one chat entry per stored message, none with an id |
| `ChatState.LastUser` | src/App.js:196-198 | the scan from the end finds an entry whose role is `user` with no user entry after it, or reports that there is no user entry at all |
| `ChatState.AppendTokenTouchesOnlyKey` | src/App.js:124-130 | a token reaches exactly the entries whose id matches: they keep id and role and gain the token, and every other entry and the length stay the same |
| `ChatState.AppendTokenTwice` | src/App.js:124-130 | appending two tokens in turn equals appending their concatenation |
| `ChatState.AppendEmptyToken` | src/App.js:124-130 | appending the empty token leaves the transcript unchanged |
| `ChatState.ApplyFallbackTouchesOnlyEmptyKey` | src/App.js:142-147 | the error-path `map` sets the fallback text only in empty entries whose id matches, and keeps every other entry |
| `ChatState.FormatStoredKeepsRolesAndText` | src/App.js:41-44 | loaded history has one entry per stored message, in order, with its role and text and no id |
| `StreamFrames.ProcessLine` | src/App.js:116-134 | one line never changes the chat id or the transcript's length, and never sets `loading` |
| `StreamFrames.FoldLines` | src/App.js:115-136 | the lines of a chunk, processed in order, never change the chat id or the transcript's length, and never set `loading` |
| `StreamFrames.ProcessChunk` | src/App.js:112-136 | a chunk, split on newlines and processed line by line, never changes the chat id or the transcript's length, and never sets `loading` |
| `StreamFrames.FoldChunks` | src/App.js:103-137 | the chunks the reader yields, processed in order, never change the chat id or the transcript's length, and never set `loading` |
| `StreamFrames.IgnoredLinesChangeNothing` | src/App.js:115-134 | a line without the `data: ` prefix, a payload that fails to parse, and a payload with neither a truthy `done` nor a truthy `token` leave the state unchanged |
| `StreamFrames.DoneLineOnlyClearsFlag` | src/App.js:120-121 | a `done` frame clears `loading` and changes nothing else, even if it also carries a token |
| `StreamFrames.FoldLinesEffect` | src/App.js:115-136 | processing the lines of a chunk appends the concatenation of their tokens, in order, to the entries carrying the placeholder id, and clears `loading` exactly when some line is a `done` frame |
| `StreamFrames.FoldChunksEffect` | src/App.js:103-137 | over a run of chunks, the placeholder's entries gain the tokens of every chunk in order, each chunk split on its own, and `loading` is cleared exactly when some chunk held a `done` frame |
| `StreamFrames.FoldLinesAppend` | src/App.js:115-136 | processing two runs of lines in turn equals processing them as one run |
| `StreamFrames.TokensAfterDoneStillAppended` | src/App.js:120-130 | after a `done` frame the loop continues, and the tokens of later lines are still appended while `loading` ends false |
| `StreamFrames.AlignedChunkBoundaryIsHarmless` | src/App.js:112-113 | a chunk boundary right after a newline does not change the outcome |
| `StreamFrames.FrameSplitAcrossChunksIsLost` | src/App.js:112-118 | for every payload `p` without a newline that does not itself start with `data: `, the line `data: ` + `p` as one chunk is processed as a frame line (appending the token of a token payload), while as the two chunks `data: ` and `p` it changes nothing, given that the empty payload fails to parse |
| `StreamFrames.OneLineChunk` | src/App.js:112-116 | a chunk without a newline is processed as that single line |
| `Transitions.HasChat` | src/App.js:66 | `chatId` is truthy only when it is set to a non-empty string |
| `Transitions.CanSend` | src/App.js:66 | the send guard passes only for a non-empty input with a chat id set and `loading` clear (the same guard is at line 153) |
| `Transitions.RequestFor` | src/App.js:66 | a request is issued exactly when the guard passes, and it carries the chat id, the input and the regenerate flag |
| `Transitions.RegenerateText` | src/App.js:193-200 | a text to regenerate exists exactly when the transcript has at least two entries and some user entry, and it is the text of the last user entry |
| `Transitions.BeginSend` | src/App.js:68-73 | the first rewrite of a send: a plain send extends the transcript by exactly one entry, and a regenerate send leaves a prefix at most one entry shorter (the same rewrite is at lines 155-160) |
| `Transitions.WithPlaceholder` | src/App.js:75-83 | after the first rewrite the streaming send sets `loading`, keeps the chat id and adds one entry |
| `Transitions.Abort` | src/App.js:138-148 | the catch block clears `loading` and keeps the chat id and the transcript's length |
| `Transitions.ConsumeReply` | src/App.js:96-149 | from the placeholder on, however the request and the reads turn out, `loading` ends false and the chat id and the transcript's length are kept |
| `Transitions.StreamingSend` | src/App.js:65-150 | `sendMessageStreaming` keeps the chat id; a failed guard changes nothing; otherwise `loading` ends false with one entry more than the first rewrite |
| `Transitions.BufferedSend` | src/App.js:152-183 | `sendMessageNonStreaming` keeps the chat id; a failed guard changes nothing; otherwise `loading` ends false with one entry more than the first rewrite |
| `Transitions.Send` | src/App.js:185-191 | on either transport a send keeps the chat id, changes nothing when the guard fails, and otherwise ends with `loading` false and one entry more than the first rewrite |
| `Transitions.Regenerate` | src/App.js:193-203 | `handleRegenerate` keeps the chat id, changes nothing when there is no text to regenerate, and otherwise, when the guard passes, keeps the transcript's length and ends with `loading` false |
| `Transitions.RegenerateRequest` | src/App.js:193-203 | a regenerate request is issued exactly when there is a text to regenerate and the guard passes, and it carries the regenerate flag, the chat id and, as its query, the text of the last user entry (line 202) |
| `Transitions.StartNewChat` | src/App.js:25-34 | `startNewChat` leaves `loading` alone, and either changes nothing or switches to the returned id with an empty transcript |
| `Transitions.LoadChat` | src/App.js:36-51 | `loadChat` always switches to the requested id and leaves `loading` alone |
| `Transitions.DocumentUploaded` | src/App.js:57-63 | an upload strictly extends the transcript and keeps the chat id and `loading` |
| `Transitions.SendBlockedByGuard` | src/App.js:66 | a blank input, an unset or empty chat id, or a set `loading` makes a send on either transport change nothing and issue no request (the same guard is at line 153) |
| `Transitions.WhiteSpaceInputIsIgnored` | src/App.js:66 | an input made only of white space never changes the state |
| `Transitions.BeginSendEffect` | src/App.js:68-73 | a plain send appends exactly one `user` entry holding the input at the end; a regenerate send removes exactly the last entry, whatever its role, and adds nothing |
| `Transitions.PlaceholderAppended` | src/App.js:75-83 | after the guard, a streaming send sets `loading` and appends one empty `assistant` entry with the fresh id after the first rewrite |
| `Transitions.StreamingSendEffect` | src/App.js:65-150 | a streaming send that passes the guard ends with `loading` false and one entry more than its first rewrite; that entry holds the streamed tokens, or the fallback only when the error id equals the placeholder id and no token arrived; other entries are kept, and on a normal end earlier entries with the same id gain the same tokens |
| `Transitions.StreamingSendMessages` | src/App.js:77-149 | the transcript after a streaming send in closed form: the streamed text appended to the entries carrying the placeholder id, then the fallback rewrite if the catch block ran |
| `Transitions.PlaceholderGrows` | src/App.js:124-130 | appending the streamed text to a transcript ending in the placeholder fills the placeholder with exactly that text, and extends only the earlier entries carrying its id |
| `Transitions.FallbackShownOnlyForMatchingId` | src/App.js:138-148 | on the error path the placeholder shows the fallback exactly when the second timestamp equals its id and it is still empty (or the tokens themselves spell the fallback) |
| `Transitions.BufferedSendEffect` | src/App.js:152-183 | a buffered send that passes the guard appends exactly one `assistant` entry after its first rewrite, holding the answer or, on failure, the fallback text, and ends with `loading` false |
| `Transitions.SendClearsFlag` | src/App.js:185-191 | whichever transport is chosen, a send that passes the guard never leaves `loading` set |
| `Transitions.RegenerateEffect` | src/App.js:193-203 | regenerate does nothing with fewer than two entries or no user entry; otherwise it is a regenerate send of the last user entry's text on the selected transport |
| `Transitions.RegenerateReplacesLast` | src/App.js:193-203 | a regenerate that passes the guard keeps the transcript length; the earlier entries carrying neither timestamp id are kept, and on the buffered transport all earlier entries are kept; the last entry, whatever its role, becomes the new assistant reply: with streaming, the streamed text under the placeholder id (or the fallback when the error id matches and nothing arrived); without, the answer or the fallback, with no id |
| `Transitions.RegenerateSendReplacesLast` | src/App.js:185-191 | a send with the regenerate flag that passes the guard, on either transport, keeps the transcript's length and the earlier entries carrying neither timestamp id (all of them on the buffered transport) and puts the new assistant reply in the last place |
| `Transitions.StartNewChatEffect` | src/App.js:25-34 | on success the new id becomes the chat id and the transcript is emptied; on failure nothing changes |
| `Transitions.LoadChatEffect` | src/App.js:36-51 | the chat id always becomes the requested id; on success the transcript is the formatted history, and on failure the old transcript stays |
| `Transitions.DocumentUploadedAppendsOnly` | src/App.js:57-63 | an upload appends one `document` entry and leaves every existing entry, the chat id and `loading` unchanged |
| `ChatApp.App.constructor` | src/App.js:11-14 | the initial state: no chat id, an empty transcript, `loading` false and streaming on |
| `ChatApp.App.SetUseStreaming` | src/App.js:226 | the checkbox sets the transport switch and changes nothing else |
| `ChatApp.App.StartNewChat` | src/App.js:25-34 | the fields end as `Transitions.StartNewChat` of the old state |
| `ChatApp.App.LoadChat` | src/App.js:36-51 | the fields end as `Transitions.LoadChat` of the old state |
| `ChatApp.App.HandleDocumentUploaded` | src/App.js:57-63 | the fields end as `Transitions.DocumentUploaded`; the old transcript is a prefix of the new one |
| `ChatApp.App.SendMessageStreaming` | src/App.js:65-150 | the fields end as `Transitions.StreamingSend` of the old state; the request is issued exactly when the guard passes, and then `loading` ends false |
| `ChatApp.App.RewriteForSend` | src/App.js:68-73 | the fields end with the first rewrite `Transitions.BeginSend` applied to the transcript, the chat id and `loading` unchanged (the same rewrite is at lines 155-160) |
| `ChatApp.App.StartReply` | src/App.js:68-83 | the fields end as `Transitions.WithPlaceholder` of the old state: first rewrite, `loading` set, placeholder appended |
| `ChatApp.App.ConsumeStream` | src/App.js:96-149 | from the placeholder on, the fields end as `Transitions.ConsumeReply`, with `loading` false |
| `ChatApp.App.ReadChunks` | src/App.js:103-137 | the reader loop leaves the fields as the fold of the frame processor over the chunks |
| `ChatApp.App.HandleChunk` | src/App.js:112-136 | the line loop leaves the fields as the frame processor folded over the chunk's own lines |
| `ChatApp.App.CatchStreamError` | src/App.js:138-148 | the catch block clears `loading` and applies the fallback rewrite for the error id |
| `ChatApp.App.SendMessageNonStreaming` | src/App.js:152-183 | the fields end as `Transitions.BufferedSend` of the old state; the request is issued exactly when the guard passes, and then `loading` ends false |
| `ChatApp.App.SettleBuffered` | src/App.js:164-182 | the transcript gains exactly one assistant entry holding the answer or, on failure, the fallback, and `loading` ends false |
| `ChatApp.App.SendMessage` | src/App.js:185-191 | the fields end as the send on the transport the switch selects |
| `ChatApp.App.HandleRegenerate` | src/App.js:193-203 | the fields end as `Transitions.Regenerate`, and the request is the regenerate request for the last user entry's text, if any |

## Left out

- Rendering is not modelled: JSX, framer-motion animation and scrolling to the bottom (src/App.js:17-23, src/App.js:205-315) are presentation only.
- The mount effect that calls `startNewChat` once (src/App.js:53-55) is left to the caller. The model starts from the constructor's state, and `StartNewChat` can be called first.
- Network I/O (`fetch`, the axios client, `getReader`) is replaced by the outcome values given as parameters.
- Bytes and `TextDecoder` are not modelled: chunks are given as decoded text. A multi-byte character split across two chunks, which the decoder would replace by U+FFFD because it is not in streaming mode, is therefore not modelled.
- `JSON.parse` is an abstract total parser. A payload that parses to `null`, so that reading `done` throws inside the inner `try`, belongs to `Malformed`.
- `Date.now()` values are parameters. Nothing is assumed about their order or freshness.
- React's batched, asynchronous state updates and the stale closures over `loading` and `messages` are not modelled. Each handler is one sequential transition on the current state, so two sends that race are not modelled.
- `alert` and `console.error` are side effects only and are dropped.
- JavaScript strings are sequences of UTF-16 code units, and here they are sequences of Unicode characters. `trim` and `split` agree on both for the characters involved, but lone surrogates are not modelled.
- `chatId` is modelled as an optional string. A numeric id from the backend, for which `0` would be falsy, is not modelled.
- `ReadChunks` replaces the source's `while (true)` read loop with a loop over the finite list of chunks the reader yields. A body that never ends is not modelled.
- The other files of the repository are not part of this model. These are the sidebar (history list, deletion, dark mode, date formatting), the input box (upload dialog, PDF check, its own copy of the send guard), message rendering, the document card and the thin upload and chat-window components.
