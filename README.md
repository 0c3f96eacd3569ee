# Soul AI chat: conversation session and history store

A model, in Dafny, of the part of the Soul AI chat widget that holds state:

- the chat screen (`src/chatInterface.jsx`): the conversation under way
  (`messages`), the text box (`input`) and the rating dialog flag
  (`showModal`); asking a question appends a user message and the
  responder's AI message; a thumbs button records a verdict on a message;
  saving opens a rating dialog, and submitting it turns the conversation
  into a rated history record and empties the screen;
- the history store (`src/App.jsx`): the list of saved conversations, loaded
  once from `localStorage` under `soul_ai_chats` (missing or unparsable data
  gives an empty list) and written back whole, newest first, on every save;
- the history page (`src/historyPage.jsx`): the list shown for 'All' or for
  one star rating.

Files:

- `records.dfy` (module `Records`): messages, saved records, the likes
  field, and JavaScript `trim()` over the ECMAScript whitespace and line
  terminator characters.
- `app.dfy` (module `App`): `Storage` (a key/value map standing for
  `localStorage`), `LoadHistory` (the `savedChats` initializer) and the
  `AppState` class with `AddChat`. Its invariant `Valid` says that reloading
  would give back exactly the in-memory list.
- `chat_interface.dfy` (module `ChatInterface`): `Clock` (`Date.now()`,
  modelled as readings that never decrease), the pure `SetLikes` map, the
  `ActiveSession` class with the handlers, and the `FeedbackModal` class.
  `ActiveSession.Valid` says the conversation is a run of (user, AI) pairs,
  each AI text being the responder's answer with a larger id than its user
  message (under that clock), and that the rating dialog is only open over a non-empty
  conversation.
- `history_page.dfy` (module `HistoryPage`): `FilteredChats` and its
  properties.

External pieces are parameters: `findResponse` is the `respond` function
given to `ActiveSession`; `Date.now()` is a `Clock` object whose readings
never decrease (see "## Left out"); the
`toLocaleTimeString`/`toLocaleDateString` labels are opaque string
arguments; `JSON.stringify`/`JSON.parse` are the `serialize`/`parse`
functions given to `AppState`, assumed (predicate `RoundTrips`) to give
back what was written and never to write the empty string. A `parse`
answer of `None` stands for `JSON.parse` throwing.

Behaviour of the code worth knowing:

- Message ids are clock readings and can repeat across asks: two asks in
  the same millisecond reuse ids (`SameMillisecondIdsCollide`), and a
  verdict then lands on every message with that id. Within one ask the AI
  id is larger than the user id only while the clock does not go back
  between the two readings, which the model's `Clock` assumes.
- A conversation saved with no star clicked has rating 0. It is shown only
  under 'All'.
- The rating always comes from the dialog.
- `finalizeSave` does not itself check that the conversation is non-empty.
  It is only reachable from the dialog, which `handleSaveChat` opens only
  over a non-empty conversation; the model states this as
  `requires showModal` plus the class invariant.
- An exception from `localStorage.setItem` is not caught.

## Model

| member | source | states |
|---|---|---|
| `Records.TrimStart` | src/chatInterface.jsx:24 | the result is a suffix of the input; everything dropped is whitespace; the result does not start with whitespace |
| `Records.TrimEnd` | src/chatInterface.jsx:24 | the result is a prefix of the input; everything dropped is whitespace; the result does not end with whitespace |
| `Records.Trim` | src/chatInterface.jsx:24 | `input.trim()` neither starts nor ends with whitespace |
| `Records.TrimEmptyIffBlank` | src/chatInterface.jsx:24 | `trim()` is empty (falsy) exactly when every character of the input is whitespace |
| `Records.TrimIsSlice` | src/chatInterface.jsx:24 | the trimmed text is a contiguous slice of the input, and everything cut off before and after it is whitespace |
| `App.Storage.SetItem` | src/App.jsx:32 | after `setItem`, `getItem` of that key gives the written text, and `getItem` of every other key gives what it gave before |
| `App.LoadHistory` | src/App.jsx:15-23 | a missing value, the empty string and an unparsable value all load as the empty history; a present, non-empty text that parses loads as exactly the parsed list, and a non-empty history only ever comes from such a text |
| `App.LoadAfterSave` | src/App.jsx:31-33 | whatever list is written under the key loads back as the same list in the same order |
| `App.AppState.constructor` | src/App.jsx:15-23 | `savedChats` is loaded once from the single key `soul_ai_chats`, and then equals what a reload would give |
| `App.AppState.AddChat` | src/App.jsx:28-35 | the new history is the record followed by the old history (length one more, record at index 0, older records unchanged and in order); storage changes only at `soul_ai_chats`, which holds the serialised new list, so a reload gives the in-memory list |
| `ChatInterface.Clock.Now` | src/chatInterface.jsx:29 | a clock reading is never earlier than the one before (the assumed non-decreasing clock) |
| `ChatInterface.AskKeepsConversation` | src/chatInterface.jsx:26-43 | appending a user message and then an AI message (the responder's answer to it, likes null, larger id) keeps the conversation a run of (user, AI) pairs |
| `ChatInterface.SetLikes` | src/chatInterface.jsx:47-51 | same length and order; every message with the id gets the verdict; role, text, id and timestamp of every message and every other message are unchanged |
| `ChatInterface.SetLikesAbsent` | src/chatInterface.jsx:47-51 | an id no message carries leaves the list identical |
| `ChatInterface.SetLikesLastWins` | src/chatInterface.jsx:49 | a second verdict on the same id replaces the first |
| `ChatInterface.SetLikesIdempotent` | src/chatInterface.jsx:49 | the same verdict twice equals it once |
| `ChatInterface.UpThenDown` | src/chatInterface.jsx:108-109 | after up then down on an id, every message with that id is down, and no message is up that was not up before |
| `ChatInterface.SetLikesCommute` | src/chatInterface.jsx:47-51 | verdicts on two different ids can be applied in either order |
| `ChatInterface.SetLikesKeepsConversation` | src/chatInterface.jsx:47-51 | a verdict keeps the (user, AI) pair shape |
| `ChatInterface.SameMillisecondIdsCollide` | src/chatInterface.jsx:29-38 | two asks within one millisecond give both AI messages the same id, and a thumbs click on the first also marks the second |
| `ChatInterface.ActiveSession.constructor` | src/chatInterface.jsx:11-13 | the screen starts with no messages, an empty text box and the dialog closed |
| `ChatInterface.ActiveSession.SetInput` | src/chatInterface.jsx:126 | typing sets the text box and changes nothing else |
| `ChatInterface.ActiveSession.HandleAsk` | src/chatInterface.jsx:22-45 | blank input changes nothing; otherwise the old messages are followed by exactly a user message holding the raw input and an AI message holding `findResponse(input)` with likes null, the AI id being a later clock reading plus one and so, under a non-decreasing clock, larger than the user id, and the text box is cleared |
| `ChatInterface.ActiveSession.HandleLikeDislike` | src/chatInterface.jsx:47-51 | the messages become `SetLikes` of the old ones; text box and dialog untouched |
| `ChatInterface.ActiveSession.HandleSaveChat` | src/chatInterface.jsx:53-55 | the dialog opens only when there are messages; messages and text box untouched |
| `ChatInterface.ActiveSession.CloseModal` | src/chatInterface.jsx:133 | closing the dialog keeps the conversation |
| `ChatInterface.ActiveSession.FinalizeSave` | src/chatInterface.jsx:57-68 | the record at the front of the history holds the non-empty pre-save messages, the rating and the feedback; the rest of the history is unchanged and storage holds the new list; afterwards the screen has no messages and the dialog is closed |
| `ChatInterface.FeedbackModal.constructor` | src/chatInterface.jsx:139-140 | the dialog opens with rating 0 and empty feedback |
| `ChatInterface.FeedbackModal.ClickStar` | src/chatInterface.jsx:156-157 | a star click sets the rating to that star (1 to 5) |
| `ChatInterface.FeedbackModal.EditFeedback` | src/chatInterface.jsx:166 | typing sets the feedback text and keeps the rating |
| `ChatInterface.FeedbackModal.Submit` | src/chatInterface.jsx:169 | the rating handed to `onSave` is between 0 and 5, and 0 exactly when no star was clicked |
| `ChatInterface.FeedbackModal.SubmitTo` | src/chatInterface.jsx:133 | submitting saves one record at the front of the history: a clock reading as id, the date label, the non-empty conversation, the dialog's rating (0 to 5) and its feedback; storage changes only at the history key; the screen is emptied, the dialog closed and the text box kept |
| `HistoryPage.KeepRating` | src/historyPage.jsx:12 | every record kept has exactly the selected rating |
| `HistoryPage.FilteredChats` | src/historyPage.jsx:10-12 | a numeric filter returns only records with that rating, never more records than the history |
| `HistoryPage.FilterAllIsIdentity` | src/historyPage.jsx:10-11 | 'All' returns the history itself, same order |
| `HistoryPage.KeepRatingIsSubsequence` | src/historyPage.jsx:12 | the filtered list keeps the history's order |
| `HistoryPage.KeepRatingCounts` | src/historyPage.jsx:12 | each matching record appears as often as in the history, every other record not at all |
| `HistoryPage.FilterStarsExact` | src/historyPage.jsx:12 | a record is returned exactly when it is in the history and has the rating, and the result is an order-preserving subsequence of the history |
| `HistoryPage.NoMatchIsEmpty` | src/historyPage.jsx:32-33 | when no record has the rating, the list is empty ("No history found.") |
| `HistoryPage.UnratedShownOnlyUnderAll` | src/historyPage.jsx:12 | a record with rating 0 or no rating matches no filter 1 to 5, but is shown under 'All' |
| `HistoryPage.FilterAfterAddChat` | src/historyPage.jsx:10-12 | after `addChat` a view gains the new record at its front when it matches, and is otherwise unchanged |
| `HistoryPage.FilterIdempotent` | src/historyPage.jsx:12 | filtering a filtered list again changes nothing |
| `HistoryPage.KeepRatingFixed` | src/historyPage.jsx:12 | a list whose records all have the rating is its own filter |

## Left out

- Rendering: the JSX, styling, icons, star fill, the sidebar and mobile overlay, routing, and the scroll-to-bottom effect carry no state the core depends on.
- `findResponse` is not part of this model; it is a total function parameter.
- The hour:minute and date labels are opaque strings passed in; their locale formatting is not modelled.
- `JSON.stringify`/`JSON.parse` are not modelled; they are a parameter pair assumed to round-trip. A stored text that parses to something other than a list of records (for example `5` or `null`) is not modelled: the model's `parse` yields a list or fails.
- A loaded record's rating of a type other than a number (a string, say) is not modelled; a record's rating is a number or absent.
- `console.log`/`console.error`, the React context (`createContext`, `useAppContext`) and `preventDefault` are left out: they do not affect the state.
- React's asynchronous, batched state updates are modelled as immediate sequential assignments; the handlers run one at a time.
- An exception thrown by `localStorage.setItem` (quota, private mode) is not modelled; the code does not catch it.
- `ChatInterface.Clock.Now`: `Date.now()` is wall-clock time and can step back when the system clock is adjusted; the model assumes it never decreases. This hides the case where the AI id (second reading plus one) is not larger than the user id of the same ask, so the id order in the `Conversation` invariant holds only under that assumption.
- `ChatInterface.ActiveSession.HandleAsk`: the user id is only pinned between the clock before and after the call, since the clock is free to advance; the timestamps are given labels, not derived from the clock.
