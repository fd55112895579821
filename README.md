# GrantBot widget: identity store, chat box, request headers and report page

This project models, in Dafny, the client-side rules of the GrantBot chat
widget, a React application. There are four parts:

- **Identity store** (`Home`, over `Storage`). The home page keeps the visitor's identity in
  `localStorage`: `email`, `sessionId`, `conversationId`, the linkage keys
  `conversationIdSessionId` / `conversationIdEmail`, the mode flag
  `isEmailConversation` and `greetingMessage`.
  - On load it writes the query's e-mail and drops the session when that e-mail is non-empty.
  - It then recomputes the linkage key of the current mode and purges that mode's keys on a mismatch.
  - Opening the chat creates a conversation and writes the keys that make that check pass.
  - Refreshing starts a new conversation without writing a linkage key.
  - `localStorage` is a class whose `items: map<string, string>` the handlers
    change one `setItem`/`removeItem` at a time.
  - JavaScript's conversions are explicit (`Js`):
    - `setItem(k, null)` stores "null", `false` stores "false" and `undefined` stores "undefined".
    - `x + null` is `x + "null"` for a string `x`.
    - `null + null` is a number, which never equals a stored item.
- **Chat box** (`Chat`). The message list, the input, the typing indicator and the
  feedback modal of `ChatBox.jsx`. `test.jsx` repeats ChatBox's send handler and
  reply timer line for line, so the same class models both files.
  - A send appends the user's message and schedules one canned reply.
  - The reply timer is an explicit `TimerFires` step.
  - Like and dislike set a flag on one message.
- **Request interceptor** (`Api`). The two identity headers added to every request,
  decided by JavaScript truthiness, and the messages path.
- **Report page** (`Report`). The page state `showModal`, `noReport`, `loading` and
  `reportData`, driven by three things:
  - whether a report id is present;
  - whether an e-mail is stored or submitted;
  - the fetch outcome: not ok, ok without `data`, ok with `data`, or thrown.

  A fetch is split into the synchronous start that issues the request and the
  completion that applies the outcome. The grant table's list cells are a
  `join(", ")`.

Some facts about the code that the model keeps as they are:
- The widget has no task poller and does not reconcile with a server message list. The bot reply is a timer that appends a fixed text.
- Like and dislike are not mutually exclusive: `Chat.LikeThenDislikeSetsBoth` proves that both flags can be set.
- The identity purge is asymmetric:
  - the e-mail branch removes `isEmailConversation` and keeps `conversationIdEmail`;
  - the session branch keeps the mode flag.
- Submitting feedback only closes the modal; the text is not attached to anything.
- Opening the chat and refreshing are each split at their `await` into a start step and a completion step, so a close or a second refresh can come in between.

## Model

| member | source | states |
|---|---|---|
| `Js.Plus` | src/pages/Home.jsx:39-40 | `a + b` is a string exactly when one operand is a string, and then it is the concatenation of both string forms (`id + null` is `id + "null"`) |
| `Text.Trim` | src/components/ChatBox.jsx:29 | `trim` leaves an infix that neither starts nor ends with whitespace, and it is empty exactly when the input is whitespace only |
| `Text.TrimStart` | src/components/ChatBox.jsx:29 | only leading whitespace is removed, and what is left is empty or starts with a non-whitespace character |
| `Text.TrimEnd` | src/components/ChatBox.jsx:29 | only trailing whitespace is removed, and what is left is empty or ends with a non-whitespace character |
| `Text.JoinSnoc` | src/pages/Report.jsx:204 | joining one more element appends the separator and that element, which is the step of the ECMAScript `join` |
| `Text.JoinLength` | src/pages/Report.jsx:207 | the joined text is as long as all elements together plus one separator between each two neighbours |
| `Storage.LocalStorage.GetItem` | src/pages/Home.jsx:29-37 | `getItem` gives the stored string, or null for a missing key |
| `Storage.LocalStorage.SetItem` | src/pages/Home.jsx:23 | `setItem` stores `String(value)` under the key and changes nothing else |
| `Storage.LocalStorage.RemoveItem` | src/pages/Home.jsx:26 | `removeItem` deletes exactly that key |
| `Home.ApplyQueryEmail` | src/pages/Home.jsx:21-27 | `email` is always overwritten with the query value ("null" when absent); `sessionId` survives only when the query e-mail is absent or empty; nothing else changes |
| `Home.Validate` | src/pages/Home.jsx:39-57 | only removes keys. A matching linkage key leaves the store untouched. A session-mode mismatch removes exactly `conversationId`, `sessionId` and `conversationIdSessionId`. Any other mode with a mismatch removes exactly `isEmailConversation`, `conversationId`, `sessionId` and `conversationIdSessionId`. A conversation left behind is linked to the current identity |
| `Home.AfterLoad` | src/pages/Home.jsx:20-58 | after a load the e-mail is the query's, a stored conversation is linked, and a session id remains only without a query e-mail |
| `Home.AfterCreate` | src/pages/Home.jsx:86-100 | a created conversation writes `sessionId` and `conversationIdSessionId = id + session_id` when the session id is truthy, and otherwise `conversationIdEmail = id + email`. It always writes `conversationId`, `greetingMessage` and `isEmailConversation` ("false" with a session, "true" without). No other key changes, and the result passes the linkage check |
| `Home.AfterRefresh` | src/pages/Home.jsx:121-127 | a refresh writes `greetingMessage`, `conversationId` and `sessionId` (absent as "undefined") and no linkage key or mode flag |
| `Home.CreatedConversationSurvivesLoad` | src/pages/Home.jsx:20-100 | a conversation created by opening the chat survives the next load if and only if that load presents its identity. A session conversation needs no query e-mail, or a session id equal to "null". An e-mail conversation needs the same stored e-mail. A survivor passes the load untouched |
| `Home.RefreshedEmailConversationLostOnLoad` | src/pages/Home.jsx:39-127 | a conversation started by refresh in e-mail mode is purged on the next load even for the same e-mail, together with the mode flag |
| `Home.HomePage.constructor` | src/pages/Home.jsx:10-17 | all page flags start off and there is no error |
| `Home.HomePage.LoadEffect` | src/pages/Home.jsx:20-58 | the load effect's step-by-step writes and removals leave the store equal to `AfterLoad` |
| `Home.HomePage.WriteQueryEmail` | src/pages/Home.jsx:21-27 | writing the query e-mail and dropping the session leaves the store equal to `ApplyQueryEmail` |
| `Home.HomePage.CheckLinkage` | src/pages/Home.jsx:29-57 | reading the items, recomputing the linkage keys and removing on a mismatch leaves the store equal to `Validate` |
| `Home.HomePage.HandleBotClick` | src/pages/Home.jsx:62-65 | opens the widget and hides the chat box |
| `Home.HomePage.HandleClose` | src/pages/Home.jsx:111-114 | closes the widget and hides the chat box |
| `Home.HomePage.HandleOpenChat` | src/pages/Home.jsx:67-79 | loading goes on. A truthy stored conversation id shows the chat, turns loading off and posts nothing. Otherwise the post is issued if and only if the id is falsy, and loading stays on |
| `Home.HomePage.CompleteOpenChat` | src/pages/Home.jsx:79-109 | when the post settles, a 201 applies `AfterCreate` (with the e-mail stored at that moment) and shows the chat; another 2xx status changes nothing; a thrown error sets the error message. Loading is off at the end |
| `Home.HomePage.HandleRefresh` | src/pages/Home.jsx:116-119 | refresh-loading goes on and the post is issued; nothing else changes |
| `Home.HomePage.CompleteRefresh` | src/pages/Home.jsx:119-136 | when the post settles, a 201 applies `AfterRefresh` and shows the chat; another 2xx status changes nothing; a thrown error sets the error message. Refresh-loading is off at the end |
| `Home.CloseDuringCreateShowsChatBox` | src/pages/Home.jsx:67-114 | closing the widget while the create post is pending does not cancel it: the 201 shows the chat box while the widget is closed |
| `Home.OverlappingRefreshesClearIndicatorEarly` | src/pages/Home.jsx:116-136 | with two refreshes in flight, the first to settle turns refresh-loading off while the second is still pending |
| `Chat.InitialMessages` | src/components/ChatBox.jsx:6-17 | the list starts with exactly two messages, user then bot, neither liked nor disliked |
| `Chat.ChatBox.constructor` | src/components/ChatBox.jsx:6-22 | initial list, empty input and feedback, no typing, modal hidden, no reply pending |
| `Chat.ChatBox.SetInput` | src/components/ChatBox.jsx:165 | typing changes only the input |
| `Chat.ChatBox.HandleSend` | src/components/ChatBox.jsx:27-41 | a whitespace-only input changes nothing. Otherwise exactly one user message with the untrimmed input is appended and earlier messages are kept; the input is cleared, typing is on and one reply is pending. Every user message stays matched by a bot reply or a pending timer |
| `Chat.ChatBox.TimerFires` | src/components/ChatBox.jsx:42-52 | a firing timer appends exactly one bot message with the canned text and turns typing off |
| `Chat.ChatBox.HandleLike` | src/components/ChatBox.jsx:60-65 | only message `i` changes: `like` is set, `dislike` is kept, and the length is unchanged |
| `Chat.ChatBox.HandleDislike` | src/components/ChatBox.jsx:67-74 | only message `i` changes (`dislike` is set, `like` is kept); feedback is cleared and the modal opens |
| `Chat.ChatBox.SetFeedback` | src/components/ChatBox.jsx:185 | typing feedback changes only the feedback text |
| `Chat.ChatBox.HandleSubmitFeedback` | src/components/ChatBox.jsx:76-78 | submit only hides the modal; the messages are unchanged |
| `Chat.ChatBox.CloseFeedbackModal` | src/components/ChatBox.jsx:190 | close only hides the modal; the messages are unchanged |
| `Chat.LikeThenDislikeSetsBoth` | src/components/ChatBox.jsx:60-74 | liking and then disliking a message leaves both flags set, so the two are not exclusive |
| `Chat.SendThenReply` | src/test.jsx:25-51 | from the initial list, a blank send adds nothing. A non-blank send followed by its timer adds exactly the user's text, then the canned reply, and leaves typing off |
| `Api.WithIdentityHeaders` | src/api/api.jsx:8-20 | `X-User-Email` is set to the stored e-mail if and only if it is truthy (the stored "null" included). `X-Session-ID` is set to the stored session id if and only if that is truthy. The two decisions are independent, and every other header is kept |
| `Api.InterceptRequest` | src/api/api.jsx:8-20 | the interceptor updates the configuration's headers in place to `WithIdentityHeaders` of the stored items and returns the same configuration |
| `Api.MessagesPathRoundTrip` | src/api/api.jsx:25 | the messages path is `/conversations/` + the id's string form + `/`, and the id can be read back from it |
| `Report.RequestHeaders` | src/pages/Report.jsx:29-30 | the fetch carries `X-User-Email` if and only if the e-mail is non-empty, and no other header |
| `Report.ReportOf` | src/pages/Report.jsx:33-49 | a report is shown only for an ok response whose body has `data`, and then it is that `data` |
| `Report.CellText` | src/pages/Report.jsx:204-207 | an absent or empty list gives "", and a one-item list gives that item |
| `Report.CellTextAppend` | src/pages/Report.jsx:204 | each further item adds ", " and the item at the end of the cell |
| `Report.CellTextLength` | src/pages/Report.jsx:207 | the cell is as long as all items together plus two characters (", ") between each two neighbours |
| `Report.ReportPage.constructor` | src/pages/Report.jsx:7-14 | empty e-mail, modal hidden, no report, not loading, `noReport` off |
| `Report.ReportPage.FetchReportData` | src/pages/Report.jsx:19-32 | without a report id, only `noReport` is set and no request is issued. Otherwise loading is on, `noReport` is off, and the request carries the id and `RequestHeaders` |
| `Report.ReportPage.CompleteFetch` | src/pages/Report.jsx:33-52 | the report shown is `ReportOf(outcome)`, `noReport` holds if and only if there is none, and loading is off |
| `Report.ReportPage.MountEffect` | src/pages/Report.jsx:55-68 | without a report id: `noReport` and the modal is hidden. With a report id and a stored e-mail: the modal is hidden and a fetch is issued for that e-mail. Otherwise the modal is shown and nothing is fetched |
| `Report.ReportPage.SetEmail` | src/pages/Report.jsx:105 | typing changes only the e-mail field |
| `Report.ReportPage.HandleEmailSubmit` | src/pages/Report.jsx:70-76 | a blank e-mail changes nothing; otherwise the modal is hidden and the fetch uses the trimmed e-mail |

## Left out

- Network calls are not modelled as HTTP:
  - the axios posts in `handleOpenChat` and `handleRefresh` become `CreateOutcome`;
  - the report `fetch` becomes `FetchOutcome`;
  - a request is returned as a value instead of being sent.
- Axios throws on a non-2xx status, so such a status reaches the model as `Thrown`. `Home.HomePage.CompleteOpenChat` and `CompleteRefresh` therefore require a 2xx status in a `Response`.
- The create response's `id` is taken to be a string. A numeric id, for which `id + null` would be numeric addition, is not modelled.
- `useConversationsMessages` (src/api/api.jsx:23-41) is a react-query wrapper around a library that is not part of this model. Only its request path is modelled (`Api.MessagesPath`).
- `handleSendEmail` (src/pages/Home.jsx:138-177) is left out. It is a network call with banner messages cleared by timers.
- Real time is not modelled:
  - the 2-second reply timer is the explicit `TimerFires` step;
  - message times (`toLocaleTimeString`) are parameters;
  - the report date (`toLocaleDateString`) is not modelled.
- `formatAmount` (src/pages/Report.jsx:78-85) is left out because it uses floating-point numbers and `Intl.NumberFormat`.
- `encodeURIComponent` of the report id is left out; `FetchRequest` carries the id before encoding.
- Rendering, styling and scrolling are left out, as are the grant columns other than the two list cells. So are src/App.jsx (routing), src/howToUse.jsx (embed snippets) and src/components/BeforeUnload.jsx (an unload hook that writes one key).
- `console.log` and `console.error` calls are left out.
- The render-time reads of `isEmailConversation` (src/pages/Home.jsx:60) and of the stored e-mail (src/pages/Report.jsx:16-17) are left out. The first only feeds rendering; the second reaches `Report.ReportPage.MountEffect` as a parameter.
- `handleLike` and `handleDislike` change the message object that the old and new arrays share. The model replaces the element of a sequence, because nothing reads the old array afterwards.
- Axios's case-insensitive header names are left out; header names are compared exactly.
- Overlapping report fetches and overlapping conversation posts are not ordered against each other; each completion applies its own outcome, in whatever order a caller runs them.
- `Chat.ChatBox.TimerFires` requires a scheduled timer, because a timer only fires after a send scheduled it.
- `Chat.ChatBox.HandleLike` and `HandleDislike` require an index into the list, because the page only calls them with the index of a rendered message.
