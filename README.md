# Python coding assistant: a verified model of its request handling

The assistant is a React page and a FastAPI service. A user pastes Python
code and asks for an explanation or a debugging review, or chats freely. The
page keeps the conversation and sends each request to `/chat`; the disabled
buttons, though not the Enter key, keep it to one request at a time. The
service keeps a conversation memory for each thread, routes the request to
an explain, debug or general node that asks a language model, and answers.

This project models four parts of that system in Dafny:

- `client.dfy` (module `Client`): the page's session controller. The class
  `Session` holds the message log, the fixed thread id, the code and chat
  input buffers, and the `isLoading`/`currentAction` pair. It has the explain,
  debug and chat handlers. `callAPI` is split in two. `CallApiBegin` sets the
  flags, logs a chat message and builds the request body. `Settle` takes what
  `fetch` produced (an `Outcome`), appends exactly one assistant message and
  clears the flags.
- `workflow.dfy` (module `Workflow`): routing by action, the formatting of the
  recent history, and the three nodes. Each node asks the model and records the
  exchange in the thread's `ConversationMemory`. `run` turns a raised exception
  into a fallback result. The language model is a function from `Prompt` to
  `LlmReply`, given to `AssistantWorkflow` when it is built.
- `server.dfy` (module `Server`): the `thread_memories` table as the class
  `AssistantApi`, its get-or-create and last-code operations, and the `/chat`
  and `/threads/{thread_id}/memory` handlers.
- `models.dfy` (module `Models`): the closed action set and the request and
  response bodies, both raw (each key absent, `null` or a string) and
  validated.
- `strings.dfy` and `wrappers.dfy` (modules `Strings`, `Wrappers`) hold the
  string primitives the code relies on and the `Option`/`Result` types.

The state-changing operations are methods. Each one is specified by pure
functions of the old state: `ReplyText`, `BuildPayload`, `MemoryContext`,
`NodeEffect`, `RunSpec`, `WithThread` and `WithLastCode`. The properties are
proved about those functions as lemmas. Two lemmas connect the modules.
`Client.ServerAcceptsPayload` shows that the service's validation accepts
every body the page builds. `Workflow.RouteOfWireAction` shows that each wire
action reaches its own node.

The system's written design differs from the code in places. The model
follows the code:

- A chat request's `message` is the trimmed text, not the raw input
  (frontend/src/App.jsx:110-112).
- There is no lock with a try-acquire. `callAPI` sets `isLoading`
  unconditionally (frontend/src/App.jsx:18). The one-request-at-a-time rule
  comes only from the disabled buttons. It appears here as `requires
  !isLoading` on the submit methods and on `CallApiBegin`.
- A malformed response body has no error kind of its own. `response.json()`
  throws, and its message gets the generic text unless it mentions "Failed to
  fetch".
- The service does not require that exactly one of `code` and `message` is
  present. `RequestRoundTrip` accepts every combination (ai_engine/models.py:8-9).

## Model

| member | source | states |
|---|---|---|
| `Strings.TrimStartShape` | frontend/src/App.jsx:109-110 | Removing leading whitespace keeps a suffix that does not start with whitespace, and drops only whitespace |
| `Strings.TrimEndShape` | frontend/src/App.jsx:109-110 | Removing trailing whitespace keeps a prefix that does not end with whitespace, and drops only whitespace |
| `Strings.TrimShape` | frontend/src/App.jsx:110 | `trim` keeps a contiguous part of the input that neither starts nor ends with whitespace; everything cut off on either side is whitespace |
| `Strings.BlankIffAllWhitespace` | frontend/src/App.jsx:77 | `!s.trim()` holds exactly when every character of `s` is JavaScript whitespace |
| `Strings.TrimIdempotent` | frontend/src/App.jsx:110 | Trimming an already trimmed text changes nothing |
| `Strings.TrimKeepsTrimmed` | frontend/src/App.jsx:109-110 | A text with no whitespace at either end is its own trim, and is blank only when empty |
| `Strings.ContainsIffOccurs` | frontend/src/App.jsx:62 | `includes` holds exactly when the pattern occurs at some position |
| `Strings.AbsentFirstCharNotContained` | frontend/src/App.jsx:62 | A text that lacks the pattern's first character does not include the pattern |
| `Strings.NatToString` | frontend/src/App.jsx:47 | The status number is rendered as a non-empty run of decimal digits |
| `Strings.LowerIdempotent` | ai_engine/workflow.py:69 | Lower-casing twice is lower-casing once |
| `Strings.LowerEqualsIff` | ai_engine/workflow.py:69 | A text lowers to a lower-case word exactly when it matches that word letter by letter, ignoring case |
| `Strings.Trim` | frontend/src/App.jsx:77 | JavaScript's `trim`; its contract is stated by `TrimShape`, `BlankIffAllWhitespace`, `TrimIdempotent` and `TrimKeepsTrimmed` |
| `Strings.Contains` | frontend/src/App.jsx:62 | JavaScript's `includes`; its contract is stated by `ContainsIffOccurs` and `AbsentFirstCharNotContained` |
| `Strings.Lower` | ai_engine/workflow.py:69 | Python's `lower` on ASCII letters; its contract is stated by `LowerIdempotent` and `LowerEqualsIff` |
| `Strings.Join` | ai_engine/workflow.py:197 | Joining no parts gives the empty text; otherwise the result's length is the parts' total length plus one separator between each pair of neighbours |
| `Strings.JoinSnoc` | ai_engine/workflow.py:197 | Joining one more part onto a non-empty list appends the separator and then that part |
| `Strings.JoinCountsSeparators` | ai_engine/workflow.py:197 | Joining non-empty parts that do not contain `c` with the separator `c` yields exactly one `c` fewer than there are parts |
| `Models.ParseAction` | ai_engine/models.py:6 | Exactly "EXPLAIN", "DEBUG" and "GENERAL" are actions, compared with case, and each parses to the action with that literal |
| `Models.ParseActionName` | ai_engine/models.py:6 | Every action's literal parses back to that action |
| `Models.ValidateRequest` | ai_engine/models.py:4-9 | A request body is accepted exactly when `action` is one of the literals and `thread_id` is present; `code` and `message` pass through as given, absent meaning None; a rejection names exactly the failing fields and no others |
| `Models.RequestRoundTrip` | ai_engine/models.py:6-9 | Every validated request is accepted again from its own body, whatever combination of `code` and `message` it has |
| `Models.ValidateResponse` | ai_engine/models.py:32-37 | A response body is accepted exactly when `response`, `action` and `thread_id` are present; `metadata` is optional and passes through; a rejection names exactly the missing fields and no others |
| `Models.NewChatResponse` | ai_engine/models.py:34-37 | A response built from its three required fields validates and has `metadata` set to None |
| `Workflow.RouteDecision` | ai_engine/workflow.py:67-75 | `_route_decision`; its contract is stated by `RouteDecisionCaseInsensitive` and `RouteOfWireAction` |
| `Workflow.RouteDecisionCaseInsensitive` | ai_engine/workflow.py:67-75 | Routing is total and ignores case: "explain" in any casing goes to explain, "debug" in any casing goes to debug, every other string goes to general |
| `Workflow.RouteOfWireAction` | ai_engine/workflow.py:67-75 | EXPLAIN, DEBUG and GENERAL reach the explain, debug and general nodes |
| `Workflow.ConversationMemory.constructor` | ai_engine/app.py:29 | A new memory holds no messages |
| `Workflow.ConversationMemory.SaveContext` | ai_engine/workflow.py:101-104 | Saving an exchange appends the input as a human message and then the output as an AI message, and keeps every earlier message |
| `Workflow.PySliceFrom` | ai_engine/workflow.py:188 | Python's `s[start:]` gives a suffix of `s`; a start in range drops that many leading elements, a negative start in range keeps that many trailing elements, a start below `-len(s)` gives the whole list and a start beyond `len(s)` gives the empty list |
| `Workflow.RecentAreLast` | ai_engine/workflow.py:187-188 | With a positive bound, the history used is the last `min(bound, length)` messages in their original order, so never more than the bound |
| `Workflow.ZeroBoundKeepsAll` | ai_engine/workflow.py:180-188 | A bound of 0 keeps the whole history, because `messages[-0:]` is the whole list |
| `Workflow.ContextPartsAppend` | ai_engine/workflow.py:190-195 | The lines of a concatenated history are the lines of each part in turn: every message contributes its own line in order |
| `Workflow.ContextPartsBound` | ai_engine/workflow.py:190-197 | There is at most one line per message; there are none exactly when every message is of another kind; each line is non-empty and starts with 'U' or 'A' |
| `Workflow.SpeakersShape` | ai_engine/workflow.py:192-196 | The messages that yield lines are exactly the human and AI messages; when there is no other kind, they are all the messages |
| `Workflow.ContextPartsAreSpeakerLines` | ai_engine/workflow.py:191-196 | The lines are, in order, one per human or AI message: "User: " or "Assistant: " followed by that message's content |
| `Workflow.NewlineFreeParts` | ai_engine/workflow.py:191-196 | A line holds a newline only when its message's content does |
| `Workflow.MemoryContextLineCount` | ai_engine/workflow.py:180-197 | When no recent message's content holds a newline, the context has exactly one line per recent human or AI message, so at most `max_messages` lines; the fallback text is one line |
| `Workflow.MemoryContextShape` | ai_engine/workflow.py:184-197 | The context is "No previous conversation." exactly when no recent message is human or AI (including an empty history); otherwise it joins at most `max_messages` lines |
| `Workflow.GetMemoryContext` | ai_engine/workflow.py:180-197 | The slicing and formatting loop produces exactly the context defined by `MemoryContext` on the memory's messages |
| `Workflow.WorkflowState.constructor` | ai_engine/app.py:54-60 | The state holds the request's action, code, message and thread id, the thread's memory, and no response yet |
| `Workflow.NodeRecords` | ai_engine/workflow.py:77-178 | The model is asked with the history as it was before the call. A completed explain node records "Explain: "+code, a debug node "Debug: "+code, and a general node the raw message, each with the model's text as output. A failed node raised the model's exception, or the general node was given no message |
| `Workflow.FallbackResult` | ai_engine/workflow.py:204-210 | The fallback response is "I encountered an error processing your request. Please try again. Error: " followed by the error text; a missing action reads "UNKNOWN" and a missing thread id reads "unknown" |
| `Workflow.RunOutcomes` | ai_engine/workflow.py:199-210 | A run echoes the action and thread id. Either the node completed and the history gains exactly one human message, the node's recorded input, then one AI message, the response; or the node failed, the history is unchanged and the result is the fallback for the node's error. Earlier history is never changed |
| `Workflow.AssistantWorkflow.constructor` | ai_engine/workflow.py:21-27 | The workflow asks the given language model |
| `Workflow.AssistantWorkflow.RouterNode` | ai_engine/workflow.py:63-65 | The router node returns the same, unchanged state |
| `Workflow.AssistantWorkflow.ExplainNode` | ai_engine/workflow.py:77-107 | The explain node changes only the state's `response` and the memory. On success both match `NodeEffect`; on a raise both are unchanged and the exception text is reported |
| `Workflow.AssistantWorkflow.DebugNode` | ai_engine/workflow.py:109-139 | The same for the debug node |
| `Workflow.AssistantWorkflow.GeneralNode` | ai_engine/workflow.py:141-178 | The same for the general node, which also fails when there is no message to store |
| `Workflow.AssistantWorkflow.Run` | ai_engine/workflow.py:199-210 | The result and the memory's new messages are exactly those given by `RunSpec`: the routed node's outcome, or the fallback |
| `Server.WithThread` | ai_engine/app.py:25-32 | Get-or-create inserts the new entry only when the thread is absent; an existing entry and every other entry are kept, and the keys grow by that one thread at most |
| `Server.WithThreadIdempotent` | ai_engine/app.py:27-32 | A second get-or-create on the same thread changes nothing, and the table grows by at most one entry |
| `Server.WithLastCode` | ai_engine/app.py:34-37 | Updating the last code does nothing for an absent thread. Otherwise it sets only that thread's `last_code` and keeps its memory, every other entry and the key set |
| `Server.InternalError` | ai_engine/app.py:71-72 | An exception in `chat` becomes status 500 whose detail is "Error processing request: " followed by the exception text |
| `Server.AssistantApi.constructor` | ai_engine/app.py:23 | The table starts empty |
| `Server.AssistantApi.GetThreadMemory` | ai_engine/app.py:25-32 | Returns the thread's existing memory with the table unchanged, or a fresh empty memory that is inserted with `last_code` None; each thread keeps a memory object of its own |
| `Server.AssistantApi.UpdateLastCode` | ai_engine/app.py:34-37 | The table becomes `WithLastCode` of its old value |
| `Server.AssistantApi.Chat` | ai_engine/app.py:42-72 | Afterwards the thread exists, and its `last_code` changed only if the request's code is non-empty. Other threads' entries and histories are untouched. The reply echoes the request's action and thread id, with the run's response and the history after the run, both per `RunSpec` |
| `Server.AssistantApi.GetThreadInfo` | ai_engine/app.py:79-90 | Status 404 "Thread not found" exactly for an unknown thread; otherwise the thread id, the memory's message count and `last_code` |
| `Client.CodeRequestTextShape` | frontend/src/App.jsx:85-88 | The user message is the directive, then a Python code block holding the untrimmed code verbatim |
| `Client.ErrorText` | frontend/src/App.jsx:58-64 | The "Cannot connect… http://localhost:8000" text is shown exactly when the error message includes "Failed to fetch"; otherwise the generic "try again" text |
| `Client.NonOkReplyIsGeneric` | frontend/src/App.jsx:46-48 | A non-2xx status always yields the generic text, since "HTTP error! status: N" cannot include "Failed to fetch" |
| `Client.ReplyText` | frontend/src/App.jsx:46-69 | The assistant text of a settled request; its contract is stated by `ReplyTextCases` and `NonOkReplyIsGeneric` |
| `Client.ReplyTextCases` | frontend/src/App.jsx:46-69 | A settled request's assistant text is the body on a 2xx response and otherwise one of the two error texts; for a thrown error, the connection text exactly when its message mentions a failed fetch |
| `Client.BuildPayload` | frontend/src/App.jsx:28-35 | The request body; its contract is stated by `ServerAcceptsPayload` |
| `Client.ServerAcceptsPayload` | frontend/src/App.jsx:28-35 | The service accepts every body the page builds. An EXPLAIN or DEBUG body carries the untrimmed code and no message; a GENERAL body carries the message and no code; every body carries the session's thread id |
| `Client.EnterKeyDispatchesWhileLoading` | frontend/src/components/ChatInput.jsx:6-11 | As written, pressing Enter sends non-blank input while a request is pending, when the send button is disabled |
| `Client.GuardedEnterKeyMatchesButton` | frontend/src/components/ChatInput.jsx:31 | A key guarded like the send button sends exactly when the button is enabled, never while loading, and otherwise agrees with the key as written |
| `Client.EnterWhileLoadingClearsFlagEarly` | frontend/src/components/ChatInput.jsx:6-11 | As written, Enter during a first request starts a second one while the send button is disabled; when the first settles its `finally` clears `isLoading` with the second still in flight |
| `Client.GuardedDispatchKeepsTracking` | frontend/src/App.jsx:17-19 | With Enter guarded like the send button, starting or settling a request keeps `isLoading` raised exactly while one request is in flight |
| `Client.ClickExplain` | frontend/src/components/ActionButtons.jsx:8-10 | A click on the enabled Explain button (not loading, code non-blank after trimming) logs the "Explain this code:" message and sends the EXPLAIN request |
| `Client.ClickDebug` | frontend/src/components/ActionButtons.jsx:24-26 | The same for the enabled Debug button and the DEBUG request |
| `Client.ClickSend` | frontend/src/components/ChatInput.jsx:29-31 | A click on the enabled send button clears the input, logs the trimmed text and sends it as the GENERAL request |
| `Client.Session.constructor` | frontend/src/App.jsx:10-14 | A session starts with the given thread id, an empty log, empty buffers and no action loading |
| `Client.Session.SetCode` | frontend/src/App.jsx:9 | The editor replaces the code buffer |
| `Client.Session.SetInput` | frontend/src/App.jsx:11 | The chat box replaces the input buffer |
| `Client.Session.CallApiBegin` | frontend/src/App.jsx:17-35 | While the request is pending, `isLoading` is true and `currentAction` is the dispatched action. A user message is logged only for non-empty GENERAL input. The body sent is `BuildPayload` with the session's thread id |
| `Client.Session.Settle` | frontend/src/App.jsx:46-73 | On every outcome: exactly one assistant message, `ReplyText(outcome)`, is appended after the unchanged earlier log; then `isLoading` is false and `currentAction` is null |
| `Client.Session.HandleExplain` | frontend/src/App.jsx:76-90 | Blank code appends exactly one assistant hint, sends nothing and leaves the flags idle. Other code appends the "Explain this code:" message before the EXPLAIN request is dispatched |
| `Client.Session.HandleDebug` | frontend/src/App.jsx:92-106 | The same with the debug hint, the "Debug this code:" message and a DEBUG request |
| `Client.Session.HandleChatSend` | frontend/src/App.jsx:108-114 | Blank input changes nothing and sends nothing. Otherwise the input is cleared, and the logged user message and the request's `message` are both the trimmed text |
| `Client.ChatRoundTrip` | frontend/src/App.jsx:108-114 | Sending "What is a list?" and settling with a 2xx answer leaves the log as that question and then that answer, with the session idle |
| `Client.ExplainServerError` | frontend/src/App.jsx:76-90 | Explaining "print(1)" against a status 500 leaves the log as the code message and then the generic error text, with the session idle |

## Left out

- Rendering and styling: the JSX layout (frontend/src/App.jsx:116-144), markdown and syntax highlighting, scrolling and the code editor widget. They only read the state modelled here.
- The Explain, Debug and send components: only their enable conditions are modelled (`CodeButtonsEnabled`, `SendButtonEnabled`); `ClickExplain`, `ClickDebug` and `ClickSend` show that an enabled button meets its handler's `requires !isLoading` and takes its request branch.
- `Client.Session.HandleChatSend`: requires `!isLoading`, although the Enter key can call the handler while a request is pending (see Findings). The session class does not capture two requests in flight at once; only the loading flag and the request count (`Loading`) model that case.
- The network and serialisation: `fetch`, JSON encoding and decoding, headers and CORS. `Settle` receives the transport result as an `Outcome`; a 2xx body is taken to have a string `response` field.
- `async`/`await` and React's batched state updates: each handler runs as sequential steps.
- The thread id's generation from `Date.now()` and `Math.random()` (frontend/src/App.jsx:14): the id is a constructor argument.
- The OpenAI client and the prompt wording (ai_engine/workflow.py:23-27 and the prompt templates): `Prompt` keeps only what each prompt is built from, and the model is a function parameter.
- LangGraph's graph compilation and its copying of the state: routing is a direct call, and the nodes update the one state object.
- `ConversationBufferMemory` internals: the memory is a sequence of human, AI and other messages. The exception raised when a `None` message is stored is a parameter of `AssistantWorkflow` (`noneMessageError`), because that code is not part of this model.
- `Strings.Lower`: lowers ASCII letters only. Python's `str.lower` also maps non-ASCII letters, which this model does not capture.
- `Workflow.MemoryContextShape`: bounds the number of context lines, not the number of newline-separated lines in the text. A message whose content contains a newline adds more than one; `MemoryContextLineCount` bounds the text's lines only for newline-free contents.
- `Workflow.AssistantWorkflow.Run`: the state always has `action` and `thread_id`, so the "UNKNOWN"/"unknown" defaults are stated only in `FallbackResult`.
- `Server.AssistantApi.Chat`: no modelled step inside its `try` raises, so the 500 response appears only as `InternalError`.
- FastAPI's 422 response to an invalid body: only the validation (`ValidateRequest`) is modelled. Nor are field values other than strings and `null` modelled. `metadata` values are modelled as strings.
- Interleaving of concurrent requests in the service, application setup, `uvicorn`, `load_dotenv`, `/health` and `console.error`: plumbing with no logic of its own.

## Findings

| source | as written | input that shows it | evidently intended | confidence | as-written member | corrected member |
|---|---|---|---|---|---|---|
| frontend/src/components/ChatInput.jsx:6-11 | Enter calls the send handler without checking the loading flag, so non-blank input is dispatched while a request is pending. The first request's `finally` then clears `isLoading` while the second is still in flight. | `isLoading` true, input "hi", Enter pressed | Enter is refused while a request is pending, like the disabled send button (ChatInput.jsx:31); the controller's `requires !isLoading` uses this guard | medium, not executed | `Client.EnterWhileLoadingClearsFlagEarly` | `Client.GuardedEnterKeyMatchesButton` |
