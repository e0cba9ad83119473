# Portfolio site: the "Ask AI" session controller and its small state helpers

This project models in Dafny the stateful core of a personal portfolio site and proves properties of that model:

- **The assistant panel's session controller** (`aipanel.dfy`, module `AIPanel`). The panel keeps a log of chat bubbles. Sending a question appends a user bubble and posts the question with the earlier conversation as `history`. When the reply arrives, or the call fails, it appends one assistant bubble. The panel also offers a shuffled list of example prompts and a "how was this built" view.
  - The class `Session` holds the component's state variables: `messages`, `inputValue`, `isTyping`, `showBuildInfo` and `shuffledSuggestions`, plus the two props of the last render.
  - Each event handler is a method of `Session`. `handleSend` is split at its `await` into `BeginSend` and `CompleteSend`.
  - The history projection, the reply-text fallback chain, the shuffle and the display mode are pure functions.
- **The page shell** (`app.dfy`, module `App`). Its two flags open the panel on the chat side or on the build information, and close it. They are passed to the panel as props.
- **The project gallery** (`projects.dfy`, module `Projects`). It covers clamped previous/next navigation over the selected project and the timer schedule of the highlight sweep.
- **The experience cards** (`experience.dfy`, module `Experience`). It covers the set of expanded cards and the card id slug, which the hero's tag links also use.
- `jstext.dfy` (module `JsText`) models the JavaScript string built-ins that the assistant panel and the card ids use:
  - `trim`;
  - `toLowerCase`;
  - `replace(/\s+/g, sep)` for a separator without `$` patterns.

  `trim` and `\s` both use ECMAScript's WhiteSpace and LineTerminator code points.
- `wrappers.dfy` holds `Option`.

Nondeterministic inputs are method parameters:
- the clock reading that becomes a message id (`now`);
- the random choices behind the shuffle (`choices`);
- how the network call ended (`Outcome`).

## Behaviour worth knowing

- **Untrimmed text.** A user bubble holds the text exactly as typed, untrimmed. Only the blank check trims (AIPanel.tsx:60, 64).
- **No busy guard in the send handler.** `handleSend` does not look at `isTyping`. The guard is only the send button's `disabled` attribute (line 294); the welcome screen's suggestion buttons have none.
  - Showing and then hiding the build information while a reply is outstanding empties the log but keeps `isTyping`. That brings back the welcome screen with its suggestions, and a click then starts a second concurrent request.
  - `SecondSendWhileBusy` proves this sequence possible. `BeginSend` therefore has no busy precondition; `SubmitForm` requires `SendEnabled()`, the button's condition.
- **Closing does not reset.** The panel component stays mounted while closed. Its reset effect only acts when `isOpen` is true, so closing keeps the log and the busy flag; the next opening clears them.
  - The effect is keyed on both props. Switching between the two entry points while the panel is open also resets it (`Session.Receive`, `App.Shell.HandleOpenAI`).
- **Stale replies are not dropped.** A completion appends to whatever log is current, because the updater is `setMessages(prev => …)`. After a reopen or a build-info toggle, a late reply lands in the new conversation, and it can land in the log while the build information is showing. The model adds no generation token; one would strengthen the code rather than model it.
- **A `null` reply is an error.** JSON `null` is not a string, so the code reads `data.text` on it, which throws. The catch branch then shows "There was an error" (`ExtractText` returns `None`, `ReplyText`).
- **HTTP status is ignored.** It is never checked. A JSON error body is shown through the `JSON.stringify` fallback, and a non-JSON body makes `response.json()` reject, which yields the error text.

## Model

| member | source | states |
|---|---|---|
| `AIPanel.HistoryAt` | client/src/components/AIPanel/AIPanel.tsx:86-89 | the history has one entry per logged message, in log order, with role "user" for user messages and "assistant" otherwise, and content the message text |
| `AIPanel.HistoryAppend` | client/src/components/AIPanel/AIPanel.tsx:86-89 | appending a message to the log appends exactly its entry to the history |
| `AIPanel.HistoryRoles` | client/src/components/AIPanel/AIPanel.tsx:87 | every history role is "user" or "assistant" |
| `AIPanel.ExtractText` | client/src/components/AIPanel/AIPanel.tsx:101-104 | a string payload is returned verbatim; otherwise `text` if present (an empty string is kept), else `response`, else the serialization; it fails exactly on `null` |
| `AIPanel.ExtractTextIsFallbackChain` | client/src/components/AIPanel/AIPanel.tsx:101-104 | the expression equals trying whole-string, `text`, `response`, stringify in that order and taking the first that yields a string, and for any non-null payload the chain always yields one |
| `AIPanel.ReplyText` | client/src/components/AIPanel/AIPanel.tsx:99-118 | a failed call, or a reply whose text extraction throws, gives "There was an error"; any other reply gives the extracted text |
| `AIPanel.ServerReplyShowsAnswer` | server/main.py:30 | the server's `{"response": answer}` reply is shown as `answer` |
| `AIPanel.Shuffle` | client/src/components/AIPanel/AIPanel.tsx:51 | a shuffle result has the same length and the same multiset of entries as the catalog |
| `AIPanel.EveryOrderReachable` | client/src/components/AIPanel/AIPanel.tsx:51 | every ordering of the catalog is produced by some random input |
| `AIPanel.CatalogNotBlank` | client/src/components/AIPanel/AIPanel.tsx:19-27 | no prompt of the seven-entry catalog is blank |
| `AIPanel.OrderEntryNotBlank` | client/src/components/AIPanel/AIPanel.tsx:234-238 | every entry of a shuffled catalog is non-blank, so a suggestion click always passes the blank check |
| `AIPanel.ModeCharacterization` | client/src/components/AIPanel/AIPanel.tsx:161-245 | the build info shows iff it is toggled on; otherwise the welcome screen shows iff the log is empty, and the chat iff it is not |
| `AIPanel.Session.constructor` | client/src/components/AIPanel/AIPanel.tsx:34-38 | the initial state: empty log and input, not typing, chat side, no suggestions yet, closed props |
| `AIPanel.Session.Receive` | client/src/components/AIPanel/AIPanel.tsx:45-53 | when a prop changed and the panel is open, the log and input are cleared, typing is off, the view follows `openToBuildInfo` and the suggestions are a fresh shuffle of the catalog; otherwise nothing but the recorded props changes |
| `AIPanel.Session.Edit` | client/src/components/AIPanel/AIPanel.tsx:289 | typing sets the input and nothing else |
| `AIPanel.Session.BeginSend` | client/src/components/AIPanel/AIPanel.tsx:59-71 | blank text (per `trim`) changes nothing and sends nothing; otherwise exactly one user message with the untrimmed text is appended, the input is cleared, typing is on, and the request carries the text and the history of the log before the new message |
| `AIPanel.Session.CompleteSend` | client/src/components/AIPanel/AIPanel.tsx:99-119 | success or failure, exactly one assistant message with the reply text is appended to the current log and typing is off; nothing else changes |
| `AIPanel.Session.ToggleBuildInfo` | client/src/components/AIPanel/AIPanel.tsx:302-305 | negates `showBuildInfo` and empties the log, also when it is already empty; the view becomes build info or welcome, and typing is left as it was |
| `AIPanel.Session.SubmitForm` | client/src/components/AIPanel/AIPanel.tsx:280-294 | a submit that the enabled send button allows is always accepted and sends the typed text |
| `AIPanel.Session.ChooseSuggestion` | client/src/components/AIPanel/AIPanel.tsx:233-243 | a suggestion click is always accepted and sends that prompt with an empty history |
| `AIPanel.Session.Exchange` | client/src/components/AIPanel/AIPanel.tsx:59-119 | a send followed by its completion grows the log by exactly two messages, user then assistant, and leaves typing off |
| `AIPanel.SecondSendWhileBusy` | client/src/components/AIPanel/AIPanel.tsx:238 | after a send, toggling the build info twice shows the suggestions again while typing is still on, and a suggestion click issues a second request |
| `JsText.BlankIffAllWhitespace` | client/src/components/AIPanel/AIPanel.tsx:60 | `!text.trim()` holds exactly when every character is whitespace |
| `JsText.TrimStartSpec` | client/src/components/AIPanel/AIPanel.tsx:60 | leading whitespace is dropped: the result of `TrimStart` is a suffix of the input, everything before it is whitespace, and it starts with a non-whitespace character or is empty |
| `JsText.TrimStart` | client/src/components/AIPanel/AIPanel.tsx:60 | the result is no longer than the input, is shorter when the input starts with whitespace, and is empty or starts with a non-whitespace character |
| `JsText.TrimEnd` | client/src/components/AIPanel/AIPanel.tsx:60 | trailing whitespace is dropped: the result is a prefix of the input, only whitespace was removed, and it ends with a non-whitespace character or is empty |
| `App.Shell.constructor` | client/src/App.tsx:14-15 | both flags start false and the panel starts in its initial state with the same props |
| `App.Shell.Render` | client/src/App.tsx:43-47 | the panel receives the two flags as props: when the effect fires the session is reset with the view following `openToBuildInfo` and a new shuffle, otherwise the conversation is unchanged |
| `App.Shell.HandleOpenAI` | client/src/App.tsx:17-20 | the panel is open on the chat side; coming from a closed panel or from the build-info entry point the session is fresh (empty log and input, not typing, welcome screen, new shuffle), otherwise the conversation is kept |
| `App.Shell.HandleOpenAIBuildInfo` | client/src/App.tsx:22-25 | the panel is open on build info; coming from a closed panel or from the chat entry point the session is fresh and shows the build information, otherwise the conversation is kept |
| `App.Shell.HandleClose` | client/src/App.tsx:27-30 | both flags become false from any state, so a second close changes nothing; the panel's conversation is kept |
| `Projects.NavigationStaysInRange` | client/src/components/Projects/Projects.tsx:47-52 | previous and next keep an index within the projects and keep no selection as no selection |
| `Projects.NavigationMovesByOne` | client/src/components/Projects/Projects.tsx:47-52 | previous lowers the index by one or leaves it; next raises it by one or leaves it |
| `Projects.NavigationRoundTrips` | client/src/components/Projects/Projects.tsx:47-52 | next then previous restores a non-last index; previous then next restores a non-first index |
| `Projects.StopsAtTheEnds` | client/src/components/Projects/Projects.tsx:113-117 | for a selected index, previous leaves it unchanged iff `isFirst`, next iff `isLast` |
| `Projects.Gallery.constructor` | client/src/components/Projects/Projects.tsx:21 | no project is selected at first |
| `Projects.Gallery.SelectCard` | client/src/components/Projects/Projects.tsx:103 | clicking card i selects index i |
| `Projects.Gallery.ClosePanel` | client/src/components/Projects/Projects.tsx:113 | closing clears the selection |
| `Projects.Gallery.HandlePrev` | client/src/components/Projects/Projects.tsx:47-48 | the selection moves back one when it is above 0, otherwise stays, and stays in range |
| `Projects.Gallery.HandleNext` | client/src/components/Projects/Projects.tsx:49-52 | the selection moves forward one when it is below the last index, otherwise stays, and stays in range |
| `Projects.ScheduleHighlights` | client/src/components/Projects/Projects.tsx:32-42 | two timers per project: one highlights project i at 2400+180·i and one clears it at 2400+180·(i+1); the timers come out in nondecreasing delay order |
| `Projects.WindowsAreContiguous` | client/src/components/Projects/Projects.tsx:37-40 | each highlight window ends where the next begins |
| `Projects.WindowsAreDisjoint` | client/src/components/Projects/Projects.tsx:37-40 | no instant lies in two highlight windows |
| `Projects.WindowsAreOrdered` | client/src/components/Projects/Projects.tsx:37-40 | windows are ordered by project index |
| `Experience.Toggled` | client/src/components/Experience/Experience.tsx:71-79 | the toggled company's membership flips and every other company's membership is kept |
| `Experience.ToggleTwice` | client/src/components/Experience/Experience.tsx:70-80 | toggling a company twice restores the original set |
| `Experience.TogglesCommute` | client/src/components/Experience/Experience.tsx:70-80 | toggles of two companies can be applied in either order |
| `Experience.Cards.constructor` | client/src/components/Experience/Experience.tsx:68 | no card starts expanded |
| `Experience.Cards.ToggleCard` | client/src/components/Experience/Experience.tsx:70-80 | the new set is the old set with the company removed if present and added if absent |
| `JsText.Lower` | client/src/components/Experience/Experience.tsx:110 | the length is kept; each ASCII capital is lowered and every other character is kept, so the result has no ASCII capital and whitespace stays exactly where it was |
| `Experience.SlugIsLowerAndSolid` | client/src/components/Experience/Experience.tsx:110 | a card id has no whitespace and no ASCII upper-case letter |
| `Experience.SlugIsIdempotent` | client/src/components/Experience/Experience.tsx:110 | slugging a card id changes nothing |
| `Experience.SlugOfOneWord` | client/src/components/Experience/Experience.tsx:110 | a name without whitespace is only lower-cased |
| `Experience.SlugSplitsAtRun` | client/src/components/Experience/Experience.tsx:110 | each maximal whitespace run of the name becomes a single "-" |
| `Experience.GridDynamicsId` | client/src/components/Experience/Experience.tsx:23 | "Grid Dynamics" gets the id "grid-dynamics" |
| `Experience.DorityDesignWorksId` | client/src/components/Experience/Experience.tsx:44 | "Dority Design Works" gets the id "dority-design-works" |
| `Experience.HeroLinksTargetCards` | client/src/components/Hero/Hero.tsx:34-37 | each hero tag's href is "#" followed by the id of the card of the same company, and the two ids differ |
| `JsText.ReplaceSplitsAtRun` | client/src/components/Experience/Experience.tsx:110 | `replace(/\s+/g, sep)`, for a separator without `$` (the card ids use `"-"`), of a string with a maximal whitespace run in it is the replacement before the run, then one `sep`, then the replacement after it |
| `JsText.ReplaceRemovesWhitespace` | client/src/components/Experience/Experience.tsx:110 | with a whitespace-free separator no whitespace is left |

## Left out

- The network call and JSON handling are not modelled (`fetch`, `response.json()`, `JSON.stringify`; AIPanel.tsx:91-96, 104). How the call ends is an input (`Outcome`), and a payload's serialization is carried inside the payload as given.
- `Payload`: a `text` or `response` property holding a non-string value (a number, an object) is not modelled; `None` stands for null or undefined. A non-string property would put a non-string into the bubble.
- The shuffle's `sort(() => Math.random() - 0.5)` is not modelled. The model takes the random input as `choices` and picks each position from the remaining entries. It is proved to yield exactly the permutations of the catalog, but the sort's particular distribution is not captured.
- Message ids are the clock reading passed in as `now`, with `now + 1` for the reply. Nothing is claimed about uniqueness, since the code derives them from the clock. The display timestamps are not modelled.
- `JsText.ReplaceWhitespaceRuns`: inserts the separator literally; JavaScript would expand `$&`, `$$` and similar patterns in it. The only separator used is `"-"`, which has none.
- `JsText.Lower`: lowercases only the ASCII letters A–Z. JavaScript's `toLowerCase` also maps the rest of Unicode, which the model does not.
- React's scheduling is reduced to one event at a time, each applied atomically, with the open effect run in the same step as the render that changes the props.
- Not modelled: the `console.log` of the reply data (AIPanel.tsx:97), scrolling (`scrollToBottom`), animation, rendering, the "Thinking…" indicator and the whole presentation layer.
- `setTimeout`/`clearTimeout` firing and `useInView` are not modelled. For the highlight sweep, only the schedule the loop builds is modelled (Projects.tsx:38-44).
- Not modelled, because they are presentation over constant data: Navbar, Footer, FitCheck, Skills, ProjectPanel and its image lookup, and Hero apart from its tag links.
- The Python server (retrieval, embeddings, the agent graph and the language-model client) is not part of this model. Only its reply shape `{"response": answer}` appears. In the server code `main.py` line 27 passes two arguments to `run_agent`, which takes one (`ask_agent.py` line 130). That call would raise, and the client would then see a non-JSON error body and show the error text.
