# Chat message state of the GDSC Gemini chat client, in Dafny

The client is a single React view (`App.tsx`) that talks to a hosted
language model. Its only real logic is the state behind the message list:
an ordered list of `Message` records, an `isLoading` flag and an optional
error text. On mount it seeds the list with a welcome message. A send
(`handleSendMessage`) checks a guard, trims the input, and appends a user
message and an empty streaming placeholder. It then reads the response
stream chunk by chunk. Each chunk that carries text is appended to an
accumulator, and the accumulator is written into the placeholder, matched
by id. When the stream ends the placeholder stops streaming. If it fails,
the placeholder is removed and an error is shown. Either way `isLoading` is
cleared at the end.

The model:

- `types.dfy` (module `Types`): the `Message` record of `types.ts`, with
  `isStreaming` as an `Option<bool>` because the field is optional.
- `js_string.dfy` (module `JsString`): JavaScript's `String.prototype.trim`,
  with the ECMAScript white-space and line-terminator set.
- `message_list.dfy` (module `MessageList`): the two list updates the view
  applies, map-by-id (`prev.map(...)`) and filter-by-id
  (`prev.filter(...)`), as pure functions, plus lemmas. One lemma says a
  map or filter by the id of the last message touches only that message.
- `stream.dfy` (module `Stream`): the stream seen as a sequence of chunks,
  each with an optional text. It defines the accumulator `Accumulated`,
  proves it equal to a separate reference definition (the concatenation of
  the non-empty texts), and proves that it only grows by appending.
- `app.dfy` (module `App`): class `ChatApp` with the view's state as
  fields. `handleSendMessage` is split at its suspension points into
  `BeginSend`, `OnChunk`, `Finalize`, `Fail` and `Finish`. The function's
  locals (`botMessageId`, `fullContent`) travel between the steps as a
  `Turn` value. `HandleSendMessage` runs one whole turn, and its contract
  gives the final list exactly.

The two ids that `uuidv4()` makes are parameters. Callers must pass ids
that differ from each other and from every id already in the list. The
model assumes this freshness; it does not prove it. Timestamps from
`new Date()` are a caller-supplied `Timestamp`, and nothing inspects them.
Whether creating the chat session succeeds is the `sessionCreated`
parameter of `Mount`. The remote stream is a `seq<Chunk>` plus a flag
`streamOk` that says whether it then ends normally or throws. A failure
before any chunk is an empty sequence with `streamOk` false.

Three behaviours of the code are easy to misread. The model follows the
code in each:

- A failed turn removes only the placeholder (`App.tsx:116`). The user
  message stays, so the list is one message longer than before the send.
  It does not return to its earlier length.
- The placeholder is removed on failure even if it has partial content.
- The chunk handler does not check that the placeholder is still streaming
  before it writes. Only the `for await` loop's structure keeps a chunk from
  arriving after the end. After a failure, a late write would find nothing
  to update (`MessageList.MapAfterRemove`).

## Model

| member | source | states |
|---|---|---|
| `JsString.LeadingWhiteSpace` | App.tsx:54-56 | the length of the leading white-space run: everything before it is white space, the next character is not |
| `JsString.TrailingWhiteSpace` | App.tsx:54-56 | the length of the trailing white-space run: everything after it is white space, the character before it is not |
| `JsString.Trim` | App.tsx:54-56 | `trim()` is empty exactly when the input is all white space; otherwise the result is a slice of the input with only white space around it, and it neither starts nor ends with white space |
| `JsString.TrimIdempotent` | App.tsx:56 | trimming already-trimmed text changes nothing, so the stored user text is a fixed point of `trim` |
| `MessageList.Apply` | App.tsx:96-109 | the spreads `{...msg, content}` and `{...msg, isStreaming: false}` change only the field they name; id, role and timestamp are kept |
| `MessageList.MapById` | App.tsx:96-109 | map-by-id keeps the length and every id, updates each message with the matched id and leaves every other message as it was |
| `MessageList.RemoveById` | App.tsx:116 | filter-by-id keeps exactly the messages with another id, never grows the list, and leaves no message with that id |
| `MessageList.MapByIdAbsent` | App.tsx:96-100 | a map by an id no message has changes nothing |
| `MessageList.MapByIdUnique` | App.tsx:96-109 | map-by-id keeps ids unique |
| `MessageList.MapByIdLast` | App.tsx:96-109 | when only the last message has the id, map-by-id updates that message and leaves all earlier ones unchanged |
| `MessageList.RemoveByIdAppend` | App.tsx:116 | filtering distributes over concatenation, so the order of the kept messages is preserved |
| `MessageList.RemoveByIdAbsent` | App.tsx:116 | filtering by an id no message has changes nothing |
| `MessageList.RemoveByIdLast` | App.tsx:115-116 | when only the last message has the id, filtering gives back exactly the earlier messages in order, whatever the removed one held |
| `MessageList.RemoveByIdUnique` | App.tsx:116 | filtering keeps ids unique |
| `MessageList.MapAfterRemove` | App.tsx:96-116 | once the placeholder has been filtered out, a later content write by its id changes nothing |
| `MessageList.FreshAfterAppend` | App.tsx:62-79 | appending a message with another id keeps an id fresh |
| `MessageList.UniqueAfterAppend` | App.tsx:62-79 | appending a message with a fresh id keeps ids unique |
| `Stream.NonEmptyTexts` | App.tsx:90-92 | the texts of the chunks that pass `if (text)`: never more than there are chunks, and none of them empty |
| `Stream.AccumulatedStep` | App.tsx:92-93 | one more chunk extends `fullContent` at its end by that chunk's text, or not at all if it has no text |
| `Stream.AccumulatedIsConcat` | App.tsx:85-101 | `fullContent` equals the in-order concatenation of the non-empty chunk texts: nothing is reordered, dropped or repeated |
| `Stream.AccumulatedGrows` | App.tsx:85-101 | `fullContent` only grows by appending: its value after i chunks is a prefix of its value after any j >= i chunks |
| `Stream.HelloAnswer` | App.tsx:85-101 | the chunks "Hel", a chunk with no text, "lo" and "" add up to "Hello" |
| `App.ChatApp.constructor` | App.tsx:12-18 | the initial state: empty list, empty input, not loading, no error, no session |
| `App.ChatApp.Mount` | App.tsx:24-40 | with a session, the list becomes exactly the welcome message with id `init-1`; without one, the error is set to the connection message and nothing else changes |
| `App.ChatApp.SetInput` | App.tsx:187 | the input text becomes the typed text |
| `App.ChatApp.BeginSend` | App.tsx:51-79 | the send proceeds exactly when the trimmed input is non-empty, no turn is loading and a session exists. If it does not proceed, list, error, loading flag and input are unchanged. If it does, it appends a user message with the trimmed input and then an empty streaming `model` placeholder after the untouched earlier messages, clears the input and error, and sets `isLoading`, so a further send is refused until the turn ends |
| `App.ChatApp.OnChunk` | App.tsx:87-101 | a chunk without text changes nothing; otherwise the accumulator grows by its text and is written into the message with the turn's id by map-by-id |
| `App.ChatApp.Finalize` | App.tsx:105-109 | the placeholder's `isStreaming` becomes false by map-by-id, all else kept |
| `App.ChatApp.Fail` | App.tsx:111-116 | the error is set and the placeholder is removed by filter-by-id |
| `App.ChatApp.Finish` | App.tsx:117-119 | `isLoading` becomes false |
| `App.ChatApp.ReadStream` | App.tsx:85-102 | after the loop, the accumulator is the accumulated chunk text, the placeholder holds it, it is still last and still streaming, and the earlier messages are unchanged |
| `App.ChatApp.EndStream` | App.tsx:104-116 | on normal end, the placeholder stays last with its content and stops streaming; on failure, it is gone, the earlier messages are unchanged and the error is set |
| `App.ChatApp.Respond` | App.tsx:81-116 | the `try` block leaves the list as the earlier messages followed, on success only, by the finished reply holding the accumulated text |
| `App.ChatApp.HandleSendMessage` | App.tsx:51-120 | a whole send: refused exactly when the guard fails, with nothing changed. Otherwise the list ends with the user message, followed on success by a finished `model` reply holding the concatenated chunk texts; nothing follows it on failure. The error is cleared on success and set on failure, and `isLoading` is false at the end |
| `App.TurnLeavesListAtRest` | App.tsx:69-116 | if no message was streaming before a turn, none is streaming after it, whether it succeeded or failed |

## Left out

- Rendering (JSX, message bubbles, header, logo, the loading indicator and the error banner): presentation with no state logic.
- Auto-scroll, the Enter-key handler and the textarea auto-grow: DOM plumbing.
- `services/geminiService.ts`: it wraps the remote client, and its system prompt, model name and temperature are external configuration. The stream is a chunk sequence plus an end flag, and session creation is the `sessionCreated` flag.
- `uuidv4()` and `new Date()`: a random generator and a clock. Ids are parameters assumed fresh, and timestamps are opaque parameters.
- `console.error` calls: logging only.
- React's scheduling: each `setState` is modelled as an immediate assignment, and a turn runs its steps in order. In the source, the guard reads `isLoading` from the render that created the handler. A second submit fired before React re-renders could therefore pass the guard. The model does not capture this.
- Strings are sequences of Unicode scalar values, not UTF-16 code units. Every character that `trim` removes is a single code unit, so trimming is unaffected. Only the length of text holding characters outside the Basic Multilingual Plane differs (such as the emoji in the welcome message).
- Step order: the step methods `OnChunk`, `Finalize` and `Fail` may be called on a turn in any order. Their contracts describe each step on its own; only `HandleSendMessage` fixes the order the source runs them in.
