# Reflection Council: one chat turn, modelled in Dafny

The system is a "council" of three language-model personas: the Supporter, the
Analyst and the Challenger. A React page sends one user message, together with
each persona's conversation thread so far, to an Express endpoint,
`POST /api/chat`. The endpoint builds one upstream request per persona. The
Supporter and the Challenger go to OpenAI with the system prompt as the first
message. The Analyst goes to Anthropic with the prompt in a separate `system`
field. The endpoint waits for all three calls to settle and answers with one
`responses` object keyed by persona, putting a fixed fallback text in place of
any reply whose call failed. The page then appends the replies to the threads.

This project models the data transformations around the upstream calls:

- `personas.dfy` (module `Personas`) defines the persona ids and their JSON
  keys. It also defines `PerPersona<T>`, the fixed-key object both sides keep
  per persona, and the registry of provider, model, token limit and fallback
  text for each persona.
- `jstext.dfy` (module `JsText`) models `String.prototype.trim` over
  ECMAScript white space and line terminators. Both the server's message check
  and the page's send guard use it.
- `server.dfy` (module `Server`) models the `/api/chat` handler.
  - It validates the message.
  - It maps stored history entries to role-labelled messages.
  - It builds the per-provider requests.
  - It aggregates the three settled outcomes.
  - It produces the 400, 200 and 500 answers.
  
  The upstream calls are a parameter, a `PerPersona<Outcome>`. The handler
  returns the requests it would issue beside its HTTP response, so "no
  upstream call was made" is the statement `issued == []`.
- `client.dfy` (module `Client`) models the page.
  - `handleSend` is a function from the page state and the API reply to the
    request sent, the state while it is in flight, and the settled state.
  - It also covers the request body the API service sends, the API service's
    throw-or-resolve behaviour, `togglePanel`, and the layout and label chosen
    from the number of visible panels.
- `council.dfy` (module `Council`) composes the two sides into one turn. It
  proves how the page's threads, the server's requests and the next turn's
  history relate.

Three behaviours of the code are worth stating up front:

- A call that is fulfilled but whose value has no `choices[0].message`
  (OpenAI), or no `content[0]` (Anthropic), is not recovered per persona. The
  handler reads the text after `Promise.allSettled`, outside any per-persona
  guard. Such a value therefore throws, and the whole request ends with status
  500. It is the `Malformed` outcome. A value that reaches the last step of the
  lookup, even as `null` or `undefined` text, answers 200.
- A body without `conversations` fails with status 500. It is not treated as
  empty history.
- On the page, when the request fails, the just-sent user message disappears
  from every thread. The `catch` rebuilds the threads from the pre-send
  `conversations`, not from `updatedConversations`.
  `Client.SendFailureDropsUserMessage` and
  `Council.ServerFaultDropsUserMessage` state this behaviour.

## Model

| member | source | states |
|---|---|---|
| `Personas.ParseKey` | frontend/src/App.jsx:69-70 | a `responses` key names a persona exactly when it is one of the three persona keys, and it then names the persona sent under that key |
| `Personas.ToObject` | backend/server.js:134-146 | the `responses` object has exactly the keys supporter, analyst and challenger, each carrying that persona's entry |
| `JsText.TrimStart` | backend/server.js:80 | trimming the front leaves a suffix of the input, removes only white space, and the result does not start with white space |
| `JsText.TrimEnd` | backend/server.js:80 | trimming the back leaves a prefix of the input, removes only white space, and the result does not end with white space |
| `JsText.Trim` | backend/server.js:80 | the trimmed text neither starts nor ends with white space |
| `JsText.TrimIsInfix` | backend/server.js:80 | `trim()` returns the contiguous middle of the string, and everything cut away before and after it is white space |
| `JsText.TrimEmptyIffBlank` | frontend/src/App.jsx:48 | `!s.trim()` holds exactly when the string consists of white space only, including the empty string |
| `Server.ToChat` | backend/server.js:93-96 | an entry speaks as the user exactly when its type is `'user'`, otherwise as the assistant, and its content is the entry's text |
| `Server.MapHistory` | backend/server.js:93-96 | history mapping keeps length and order, maps each entry by itself, and never yields a system-role message |
| `Server.MapHistoryAppend` | backend/server.js:109-112 | mapping a history piecewise equals mapping it whole |
| `Server.BuildRequest` | backend/server.js:88-130 | OpenAI personas get system prompt, mapped history and new message (length history+2, the only system message first). The Anthropic persona gets the prompt only in `system` and history plus message (length history+1). The last message is the user's new message; model ids, token limits and temperature are fixed per persona |
| `Server.HistoryFor` | backend/server.js:93 | a persona's history is its stored thread when its key is present, and empty when the key is absent |
| `Server.IssueAll` | backend/server.js:87-131 | exactly three requests are built, in council order, each from its own persona's stored thread |
| `Server.ReplyFor` | backend/server.js:135-145 | a persona's entry fails exactly when its call is fulfilled without a readable text location, naming that persona. A fulfilled call gives `success` with its text and no `error`. A rejected call gives no `success`, the persona's own fallback, and the rejection's message as `error` |
| `Server.Aggregate` | backend/server.js:134-146 | aggregation fails exactly when a fulfilled call is `Malformed` (its text lookup throws), naming the first such persona in council order. Otherwise a fulfilled call gives `{success:true, text}` and a rejected call gives `{success:false, text: that persona's fallback, error: reason}` |
| `Server.AggregateIsolates` | backend/server.js:134-146 | a persona's entry depends only on its own outcome |
| `Server.MessageMissing` | backend/server.js:80 | the 400 check on the message holds, for the values that do not throw, exactly when the message is absent, falsy, or a string of white space only |
| `Server.HandleChat` | backend/server.js:69-153 | status 400 with "Message is required" and no upstream request exactly when the message is missing, falsy or blank. Three requests are issued exactly when the message is a non-blank string and `conversations` is present. Status 200 with `{success:true, responses}` exactly when requests were issued and aggregation completed; every other case is 500 |
| `Server.AllRejectedStillSucceeds` | backend/server.js:134-148 | even with all three calls rejected, the answer is status 200 with top-level success and every persona's fallback |
| `Server.ConversationsMissingFails` | backend/server.js:149-151 | a valid message without `conversations` ends in status 500 before any request is built |
| `Server.NonStringMessageFails` | backend/server.js:80 | a truthy non-string message ends in status 500 with no upstream request |
| `Server.AbsentThreadIsEmpty` | backend/server.js:93 | a persona key absent from `conversations` builds the same requests as an empty thread |
| `Server.OtherThreadsIgnored` | backend/server.js:87-131 | keys of `conversations` other than the three persona keys never affect the requests |
| `Client.Encode` | frontend/src/services/apiService.js:8 | a thread entry is sent with type `'user'` exactly when the user wrote it, keeping its text |
| `Client.EncodeThread` | frontend/src/services/apiService.js:8 | a thread is sent entry by entry, keeping length and order |
| `Client.ToBody` | frontend/src/services/apiService.js:4-9 | the request body carries the untrimmed message and one thread per persona key, so the server reads exactly the page's threads |
| `Client.ReceiveResponse` | frontend/src/services/apiService.js:11-15 | the service resolves with `responses` exactly when the fetch succeeded with an ok status and a success body; otherwise it throws |
| `Client.AppendToEach` | frontend/src/App.jsx:57-61 | the same message is appended at the end of every thread, earlier entries unchanged |
| `Client.WithReplies` | frontend/src/App.jsx:68-76 | when every key of `responses` names a persona, each key's reply is pushed onto the thread of the persona that key names, and a persona without a key keeps its thread |
| `Client.SettledThreads` | frontend/src/App.jsx:67-91 | when the service resolves and every key names a persona, each thread is its pre-send entries, then the user message, then that persona's reply if its key is present. When the service throws or a key names no persona, each thread is its pre-send entries plus one apology |
| `Client.HandleSend` | frontend/src/App.jsx:47-95 | a send is ignored exactly when the input is blank or a send is loading. Otherwise the request carries the pre-send threads and the untrimmed input. While loading, the input is cleared and every thread has the user message appended. Afterwards loading is false, the input is empty and the panels are untouched |
| `Client.BlockedSendChangesNothing` | frontend/src/App.jsx:48 | a blocked send leaves the whole page state unchanged |
| `Client.SendSuccess` | frontend/src/App.jsx:67-78 | on success a thread becomes its old entries, then the user message, then one `ai` entry if its key is in `responses`, with that reply's text and `error = !success` |
| `Client.SendFailureDropsUserMessage` | frontend/src/App.jsx:79-91 | on a throw, including one from a `responses` key that names no persona, every thread is its pre-send contents plus one apology flagged as an error; the user message is not kept, and loading ends |
| `Client.TogglePanel` | frontend/src/App.jsx:40-45 | toggling negates exactly the chosen panel and leaves the others unchanged |
| `Client.ToggleTwiceRestores` | frontend/src/App.jsx:40-45 | toggling the same panel twice restores the original panels |
| `Client.TogglesCommute` | frontend/src/App.jsx:40-45 | toggling two panels gives the same result in either order |
| `Client.VisibleCount` | frontend/src/App.jsx:287 | the visible count is at most three, zero exactly when no panel is visible, three exactly when all are |
| `Client.ToggleMovesCountByOne` | frontend/src/App.jsx:287 | a toggle changes the visible count by exactly one, down when the panel was visible |
| `Client.GridClass` | frontend/src/App.jsx:306-311 | count 3 gives `grid-cols-2 grid-rows-2`, counts 1 and 2 give `grid-cols-2 grid-rows-1`, anything else `grid-cols-1 grid-rows-1` |
| `Client.LayoutOfPanels` | frontend/src/App.jsx:306-311 | the layout has two rows exactly when all panels are visible, and one column exactly when none is |
| `Client.ListeningLabel` | frontend/src/App.jsx:226-227 | the label is exactly the count, then " perspective", then an "s" exactly when the count is not one, then " listening", with no other characters (its length is 23, or 24 with the "s") |
| `Council.SentMessageIsNeverRejected` | backend/server.js:80-85 | whatever the page's guard lets through passes the server's check: never 400, and all three requests are issued |
| `Council.RequestDialogue` | frontend/src/App.jsx:65 | each upstream request's conversation is the pre-send thread, mapped, followed by the new message |
| `Council.RequestMirrorsPendingThread` | frontend/src/App.jsx:56-65 | each upstream request's conversation is exactly the thread the page shows while the request is in flight |
| `Council.UserMessageSentOnce` | backend/server.js:97 | the new message occurs in each request's conversation exactly once more than in the history sent |
| `Council.ServerAnswers` | backend/server.js:148 | when no call is `Malformed`, the page receives exactly the aggregated `responses` |
| `Council.ReplyMatchesOutcome` | frontend/src/App.jsx:70-75 | the appended reply carries the model's text unflagged when fulfilled, and the persona's fallback flagged as an error when rejected |
| `Council.SettleAnswers` | frontend/src/App.jsx:67-78 | with the aggregated `responses`, each thread gains the user message and then its own persona's reply |
| `Council.FullTurn` | frontend/src/App.jsx:47-95 | a whole turn without a fault appends exactly the user message and that persona's reply to each thread |
| `Council.ServerFaultDropsUserMessage` | backend/server.js:149-151 | a `Malformed` call, whose text lookup throws, makes the whole turn fail, and every thread ends as before plus one apology |
| `Council.NextTurnHistory` | backend/server.js:93-96 | after a turn, the next request reads the two new entries as a user turn followed by an assistant turn, after the older history |
| `Council.FirstTurnWithAnalystDown` | backend/server.js:139-141 | from a fresh page with the Analyst's call rejected, Supporter and Challenger show their text and the Analyst shows its fallback, flagged |

## Left out

- Express, CORS, dotenv, the listening port and console logging: process and HTTP plumbing, not behaviour of the turn.
- The OpenAI and Anthropic SDK calls and `Promise.allSettled`: foreign calls and concurrency. Their settled results are the `outcomes` parameter of `Server.HandleChat`.
- The SDK response shapes: a fulfilled call is `Fulfilled(text)`, or `Malformed` when the OpenAI value has no `choices[0]` or `choices[0].message`, or the Anthropic value has no `content` or `content[0]`. An OpenAI `content` of `null`, or an Anthropic first block without `text`, answers 200 with `text` null or undefined. The model gives such an entry as `Fulfilled` with some string, since its text is a string.
- The system prompt texts: they are opaque. `Prompt(p)` stands for persona `p`'s prompt and is distinct for each persona.
- The sampling temperature 0.7 is a floating-point value. It is recorded as seven tenths.
- `Server.HandleChat`: the text of a thrown error's `message` is an engine-specific string. The model keeps which fault occurred (`Fault`) instead.
- `Server.Aggregate`: every rejection reason is taken to carry a message string. A `null` or `undefined` reason makes `reason.message` throw, which ends in status 500. A reason whose `message` is undefined gives an entry without `error`. Any other non-string `message` is copied into `error` unchanged. None of these cases is modelled, because the SDKs reject with `Error` objects.
- `Server.HistoryFor`: a stored thread is an array or is absent. A present falsy thread (`null`, `false`, `0`, `""`) reads as `[]` through `|| []`, which is what the model gives an absent key. A truthy thread that is not an array is not modelled, because its `.map` throws. Neither is an entry that is not an object, or a `text` that is not a string.
- `Client.ReceiveResponse`: a 2xx body without `responses` is folded into `Threw`. On the page it ends in the same `catch` through `Object.keys(undefined)`. The server never sends such a body.
- `Client.HandleSend`: the `Date.now()` timestamps are left out because they are nondeterministic. Other events that arrive while the request is in flight are also left out. The input is disabled then, and `togglePanel` touches only the panels, which `handleSend` never reads or writes.
- `Client.ListeningLabel`: the count is printed as one digit, since at most three panels exist.
- Strings are sequences of code points, not UTF-16 code units. Every ECMAScript white-space character lies in the Basic Multilingual Plane, so `trim` treats them the same either way.
- frontend/src/config.js is not part of this model. It is static persona data that no modelled code reads, and the server's own prompts and bindings are the ones in force.
- React rendering, hooks, refs, auto-scroll and IME composition handling are user-interface behaviour.
