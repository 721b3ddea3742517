/**
 * The browser-side session controller (frontend/src/App.jsx): the message
 * log, the fixed thread id, the code and chat input buffers and the loading flags,
 * with the explain, debug and chat handlers. The asynchronous `callAPI` is
 * split into its synchronous start (`CallApiBegin`) and its completion
 * (`Settle`), which receives what `fetch` produced.
 */
module Client {
  import opened Wrappers
  import opened Strings
  import opened Models

  datatype Role = User | Assistant

  /** An entry of the conversation shown to the user. */
  datatype Message = Message(role: Role, content: string)

  const ExplainHint := "Please enter some Python code in the code editor above before clicking Explain."
  const DebugHint := "Please enter some Python code in the code editor above before clicking Debug."
  const GenericErrorText := "Sorry, I encountered an error. Please try again."
  const ConnectErrorText := "Cannot connect to the AI server. Make sure the backend is running on http://localhost:8000"
  const FetchFailure := "Failed to fetch"
  const HttpErrorPrefix := "HTTP error! status: "

  /** The user message for a code action: the directive, then the code in a Python code block. */
  function CodeRequestText(directive: string, code: string): string {
    directive + "\n\n```python\n" + code + "\n```"
  }

  /** The code travels verbatim, between the directive with the block's opening fence and the closing fence. */
  lemma CodeRequestTextShape(directive: string, code: string)
    ensures var r := CodeRequestText(directive, code);
      && |r| == |directive| + |code| + 16
      && r[..|directive|] == directive
      && r[|directive|..|directive| + 12] == "\n\n```python\n"
      && r[|directive| + 12..|r| - 4] == code
      && r[|r| - 4..] == "\n```"
  {
    var r := CodeRequestText(directive, code);
    var fence := "\n\n```python\n";
    assert r == directive + fence + code + "\n```";
    assert r[..|directive|] == directive;
    assert r[|directive|..|directive| + 12] == fence;
    assert r[|directive| + 12..|r| - 4] == code;
  }

  function ExplainText(code: string): string {
    CodeRequestText("Explain this code:", code)
  }

  function DebugText(code: string): string {
    CodeRequestText("Debug this code:", code)
  }

  /** What `fetch` produced: a response with its status and the body's `response` field, or a thrown error's message. */
  datatype Outcome = Response(status: nat, body: string) | Thrown(message: string)

  /** `response.ok`. */
  predicate IsOk(status: nat) {
    200 <= status <= 299
  }

  /** The message of the error thrown for a non-2xx status. */
  function HttpErrorMessage(status: nat): string {
    HttpErrorPrefix + NatToString(status)
  }

  /** The text shown for a caught error: the connection hint exactly when the message mentions a failed fetch. */
  function ErrorText(errorMessage: string): (r: string)
    ensures r == ConnectErrorText <==> Contains(errorMessage, FetchFailure)
    ensures r == GenericErrorText <==> !Contains(errorMessage, FetchFailure)
  {
    if Contains(errorMessage, FetchFailure) then ConnectErrorText else GenericErrorText
  }

  /** The assistant message a settled request appends. */
  function ReplyText(outcome: Outcome): string {
    match outcome
    case Response(status, body) => if IsOk(status) then body else ErrorText(HttpErrorMessage(status))
    case Thrown(message) => ErrorText(message)
  }

  /** A non-2xx status never reads as a connection failure: its error message cannot contain "Failed to fetch". */
  lemma NonOkReplyIsGeneric(status: nat, body: string)
    requires !IsOk(status)
    ensures ReplyText(Response(status, body)) == GenericErrorText
  {
    var m := HttpErrorMessage(status);
    var digits := NatToString(status);
    assert forall k :: 0 <= k < |HttpErrorPrefix| ==> HttpErrorPrefix[k] != 'F';
    assert forall k :: 0 <= k < |m| ==> m[k] != FetchFailure[0] by {
      forall k | 0 <= k < |m| ensures m[k] != 'F' {
        if k >= |HttpErrorPrefix| {
          assert m[k] == digits[k - |HttpErrorPrefix|];
        }
      }
    }
    AbsentFirstCharNotContained(m, FetchFailure);
  }

  /**
   * Every settled request yields one assistant text: the body on a 2xx
   * response, otherwise one of the two error texts, the connection hint only
   * for a thrown error that mentions a failed fetch.
   */
  lemma ReplyTextCases(outcome: Outcome)
    ensures outcome.Response? && IsOk(outcome.status) ==> ReplyText(outcome) == outcome.body
    ensures outcome.Response? && !IsOk(outcome.status) ==> ReplyText(outcome) == GenericErrorText
    ensures outcome.Thrown? ==> (ReplyText(outcome) == ConnectErrorText <==> Contains(outcome.message, FetchFailure))
    ensures outcome.Thrown? ==> ReplyText(outcome) in {ConnectErrorText, GenericErrorText}
  {
    if outcome.Response? && !IsOk(outcome.status) {
      NonOkReplyIsGeneric(outcome.status, outcome.body);
    }
  }

  /** The request body `callAPI` sends: a chat carries the message and no code, a code action the code and no message. */
  function BuildPayload(action: Action, threadId: string, code: string, userInput: string): RawChatRequest {
    RawChatRequest(
      Some(ActionName(action)),
      Some(threadId),
      if action == General then None else Some(code),
      if action == General then Some(userInput) else None)
  }

  /** The service accepts every body the client builds, reading back its action, thread id and code or message. */
  lemma ServerAcceptsPayload(action: Action, threadId: string, code: string, userInput: string)
    ensures ValidateRequest(BuildPayload(action, threadId, code, userInput)) ==
      Ok(if action == General then ChatRequest(action, threadId, None, Some(userInput))
         else ChatRequest(action, threadId, Some(code), None))
  {
    var req := if action == General then ChatRequest(action, threadId, None, Some(userInput))
               else ChatRequest(action, threadId, Some(code), None);
    assert BuildPayload(action, threadId, code, userInput) == RequestBody(req);
    RequestRoundTrip(req);
  }

  /** Whether the Explain and Debug buttons are enabled (`disabled={isLoading || !hasCode}`). */
  predicate CodeButtonsEnabled(isLoading: bool, code: string) {
    !(isLoading || Blank(code))
  }

  /** Whether the send button is enabled (`disabled={isLoading || !input.trim()}`). */
  predicate SendButtonEnabled(isLoading: bool, input: string) {
    !(isLoading || Blank(input))
  }

  /** As written, Enter calls the send handler whatever the loading flag, and the handler dispatches any non-blank input. */
  predicate EnterKeyDispatches(isLoading: bool, input: string) {
    !Blank(input)
  }

  /** Enter pressed during a pending request dispatches a second one, which the disabled send button prevents. */
  lemma EnterKeyDispatchesWhileLoading()
    ensures EnterKeyDispatches(true, "hi") && !SendButtonEnabled(true, "hi")
  {
    assert Trim("hi") == "hi";
  }

  /** Enter guarded like the send button. */
  predicate GuardedEnterKeyDispatches(isLoading: bool, input: string) {
    !isLoading && !Blank(input)
  }

  /** The guarded key dispatches exactly when the send button is enabled, so never while a request is pending. */
  lemma GuardedEnterKeyMatchesButton(isLoading: bool, input: string)
    ensures GuardedEnterKeyDispatches(isLoading, input) <==> SendButtonEnabled(isLoading, input)
    ensures GuardedEnterKeyDispatches(isLoading, input) ==> !isLoading
    ensures !isLoading ==> (GuardedEnterKeyDispatches(isLoading, input) <==> EnterKeyDispatches(isLoading, input))
  {
  }

  /** The loading flag and the number of requests still awaiting their response. */
  datatype Loading = Loading(isLoading: bool, inFlight: nat)

  /** A `callAPI` starts: it raises the flag whatever its value, and one more request is in flight. */
  function BeginRequest(l: Loading): Loading {
    Loading(true, l.inFlight + 1)
  }

  /** A request settles: its `finally` clears the flag, whether or not another request is still in flight. */
  function SettleRequest(l: Loading): Loading
    requires l.inFlight > 0
  {
    Loading(false, l.inFlight - 1)
  }

  /** The flag is raised exactly while one request is in flight. */
  predicate LoadingTracks(l: Loading) {
    l.inFlight == (if l.isLoading then 1 else 0)
  }

  /**
   * As written: Enter during a first request starts a second one, and when
   * the first settles the flag is cleared with the second still in flight.
   */
  lemma EnterWhileLoadingClearsFlagEarly()
    ensures var first := BeginRequest(Loading(false, 0));
      && first.isLoading
      && EnterKeyDispatches(first.isLoading, "hi") && !SendButtonEnabled(first.isLoading, "hi")
      && var after := SettleRequest(BeginRequest(first));
         !after.isLoading && after.inFlight == 1 && !LoadingTracks(after)
  {
    assert Trim("hi") == "hi";
  }

  /** With Enter guarded like the send button, starting and settling requests keep the flag tracking the one in flight. */
  lemma GuardedDispatchKeepsTracking(l: Loading, input: string)
    requires LoadingTracks(l)
    ensures GuardedEnterKeyDispatches(l.isLoading, input) ==> LoadingTracks(BeginRequest(l))
    ensures l.inFlight > 0 ==> LoadingTracks(SettleRequest(l))
  {
  }

  /** The state of one browser session. */
  class Session {
    /** Fixed when the session starts; nothing assigns it afterwards. */
    const threadId: string
    /** The code editor's buffer. */
    var code: string
    /** The conversation, oldest first. */
    var messages: seq<Message>
    /** The chat input buffer. */
    var input: string
    var isLoading: bool
    var currentAction: Option<Action>
    /** The request awaiting its response, if any. */
    ghost var pending: Option<RawChatRequest>

    /** The loading flag, the current action and the pending request go together; a pending request carries this session's id. */
    ghost predicate Valid()
      reads this
    {
      && (isLoading <==> currentAction.Some?)
      && (isLoading <==> pending.Some?)
      && (pending.Some? ==>
            pending.value.action == Some(ActionName(currentAction.value))
            && pending.value.threadId == Some(threadId))
    }

    /** A new session with the given thread id, an empty log and empty buffers. */
    constructor (threadId: string)
      ensures Valid() && this.threadId == threadId
      ensures code == "" && messages == [] && input == "" && !isLoading && currentAction == None
    {
      this.threadId := threadId;
      code := "";
      messages := [];
      input := "";
      isLoading := false;
      currentAction := None;
      pending := None;
    }

    /** The code editor writes its buffer. */
    method SetCode(text: string)
      modifies this`code
      ensures code == text
    {
      code := text;
    }

    /** The chat box writes its buffer. */
    method SetInput(text: string)
      modifies this`input
      ensures input == text
    {
      input := text;
    }

    /** The synchronous part of `callAPI`: raises the flags, logs a chat message, and builds the request it sends. */
    method CallApiBegin(action: Action, userInput: string) returns (payload: RawChatRequest)
      requires Valid() && !isLoading
      modifies this`isLoading, this`currentAction, this`messages, this`pending
      ensures Valid()
      ensures isLoading && currentAction == Some(action) && pending == Some(payload)
      ensures messages == old(messages) + (if userInput != "" && action == General then [Message(User, userInput)] else [])
      ensures payload == BuildPayload(action, threadId, code, userInput)
    {
      isLoading := true;
      currentAction := Some(action);
      if userInput != "" && action == General {
        messages := messages + [Message(User, userInput)];
      }
      payload := BuildPayload(action, threadId, code, userInput);
      pending := Some(payload);
    }

    /** The rest of `callAPI` once `fetch` has an outcome: exactly one assistant message, then both flags cleared. */
    method Settle(outcome: Outcome)
      requires Valid() && isLoading
      modifies this`isLoading, this`currentAction, this`messages, this`pending
      ensures Valid()
      ensures !isLoading && currentAction == None && pending == None
      ensures messages == old(messages) + [Message(Assistant, ReplyText(outcome))]
    {
      var content: string;
      match outcome {
        case Response(status, body) =>
          if IsOk(status) {
            content := body;
          } else {
            content := ErrorText(HttpErrorMessage(status));
          }
        case Thrown(message) =>
          content := ErrorText(message);
      }
      messages := messages + [Message(Assistant, content)];
      isLoading := false;
      currentAction := None;
      pending := None;
    }

    /** `handleExplain`: blank code gets a hint and no request; other code is logged in a code block and sent. */
    method HandleExplain() returns (payload: Option<RawChatRequest>)
      requires Valid() && !isLoading
      modifies this`isLoading, this`currentAction, this`messages, this`pending
      ensures Valid()
      ensures Blank(code) ==>
        && messages == old(messages) + [Message(Assistant, ExplainHint)]
        && payload == None && !isLoading && currentAction == None
      ensures !Blank(code) ==>
        && messages == old(messages) + [Message(User, ExplainText(code))]
        && payload == Some(BuildPayload(Explain, threadId, code, ""))
        && isLoading && currentAction == Some(Explain) && pending == payload
    {
      if Blank(code) {
        messages := messages + [Message(Assistant, ExplainHint)];
        return None;
      }
      messages := messages + [Message(User, ExplainText(code))];
      var sent := CallApiBegin(Explain, "");
      payload := Some(sent);
    }

    /** `handleDebug`: as `handleExplain`, with the debug directive and hint. */
    method HandleDebug() returns (payload: Option<RawChatRequest>)
      requires Valid() && !isLoading
      modifies this`isLoading, this`currentAction, this`messages, this`pending
      ensures Valid()
      ensures Blank(code) ==>
        && messages == old(messages) + [Message(Assistant, DebugHint)]
        && payload == None && !isLoading && currentAction == None
      ensures !Blank(code) ==>
        && messages == old(messages) + [Message(User, DebugText(code))]
        && payload == Some(BuildPayload(Debug, threadId, code, ""))
        && isLoading && currentAction == Some(Debug) && pending == payload
    {
      if Blank(code) {
        messages := messages + [Message(Assistant, DebugHint)];
        return None;
      }
      messages := messages + [Message(User, DebugText(code))];
      var sent := CallApiBegin(Debug, "");
      payload := Some(sent);
    }

    /** `handleChatSend`: blank input changes nothing; otherwise the input is cleared and its trimmed text is logged and sent. */
    method HandleChatSend() returns (payload: Option<RawChatRequest>)
      requires Valid() && !isLoading
      modifies this`input, this`isLoading, this`currentAction, this`messages, this`pending
      ensures Valid()
      ensures Blank(old(input)) ==>
        && input == old(input) && messages == old(messages)
        && payload == None && !isLoading && currentAction == None
      ensures !Blank(old(input)) ==>
        && input == ""
        && messages == old(messages) + [Message(User, Trim(old(input)))]
        && payload == Some(BuildPayload(General, threadId, code, Trim(old(input))))
        && isLoading && currentAction == Some(General) && pending == payload
    {
      if Blank(input) {
        return None;
      }
      var userMessage := Trim(input);
      input := "";
      var sent := CallApiBegin(General, userMessage);
      payload := Some(sent);
    }
  }

  /** A click on the enabled Explain button (`hasCode` is a non-blank trim) takes `handleExplain`'s request branch. */
  method ClickExplain(session: Session) returns (payload: Option<RawChatRequest>)
    requires session.Valid() && CodeButtonsEnabled(session.isLoading, session.code)
    modifies session`isLoading, session`currentAction, session`messages, session`pending
    ensures session.Valid() && session.isLoading && session.currentAction == Some(Explain)
    ensures session.messages == old(session.messages) + [Message(User, ExplainText(session.code))]
    ensures payload == Some(BuildPayload(Explain, session.threadId, session.code, ""))
  {
    payload := session.HandleExplain();
  }

  /** A click on the enabled Debug button takes `handleDebug`'s request branch. */
  method ClickDebug(session: Session) returns (payload: Option<RawChatRequest>)
    requires session.Valid() && CodeButtonsEnabled(session.isLoading, session.code)
    modifies session`isLoading, session`currentAction, session`messages, session`pending
    ensures session.Valid() && session.isLoading && session.currentAction == Some(Debug)
    ensures session.messages == old(session.messages) + [Message(User, DebugText(session.code))]
    ensures payload == Some(BuildPayload(Debug, session.threadId, session.code, ""))
  {
    payload := session.HandleDebug();
  }

  /** A click on the enabled send button sends the trimmed input and clears the box. */
  method ClickSend(session: Session) returns (payload: Option<RawChatRequest>)
    requires session.Valid() && SendButtonEnabled(session.isLoading, session.input)
    modifies session`input, session`isLoading, session`currentAction, session`messages, session`pending
    ensures session.Valid() && session.isLoading && session.currentAction == Some(General) && session.input == ""
    ensures session.messages == old(session.messages) + [Message(User, Trim(old(session.input)))]
    ensures payload == Some(BuildPayload(General, session.threadId, session.code, Trim(old(session.input))))
  {
    payload := session.HandleChatSend();
  }

  /** A chat exchange: the question and then the answer end the log, and the session is idle again. */
  method ChatRoundTrip(threadId: string) returns (session: Session)
    ensures session.Valid() && !session.isLoading && session.currentAction == None
    ensures session.messages == [Message(User, "What is a list?"), Message(Assistant, "A list is an ordered collection.")]
  {
    session := new Session(threadId);
    session.SetInput("What is a list?");
    TrimKeepsTrimmed("What is a list?");
    var payload := session.HandleChatSend();
    assert payload == Some(RawChatRequest(Some("GENERAL"), Some(threadId), None, Some("What is a list?")));
    session.Settle(Response(200, "A list is an ordered collection."));
  }

  /** A server error: the log gains one generic assistant message and the session is idle again. */
  method ExplainServerError(threadId: string) returns (session: Session)
    ensures session.Valid() && !session.isLoading && session.currentAction == None
    ensures session.messages == [Message(User, ExplainText("print(1)")), Message(Assistant, GenericErrorText)]
  {
    session := new Session(threadId);
    session.SetCode("print(1)");
    TrimKeepsTrimmed("print(1)");
    var payload := session.HandleExplain();
    assert payload == Some(RawChatRequest(Some("EXPLAIN"), Some(threadId), Some("print(1)"), None));
    NonOkReplyIsGeneric(500, "");
    session.Settle(Response(500, ""));
  }
}
