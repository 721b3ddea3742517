/**
 * The assistant's workflow (ai_engine/workflow.py): a router that picks a
 * node by action, three nodes that ask the language model and record the
 * exchange in the thread's conversation memory, and `run`, which turns any
 * failure into a fallback result. The language model is a parameter.
 */
module Workflow {
  import opened Wrappers
  import opened Strings
  import Models

  /** The node `_route_decision` selects. */
  datatype Route = Explain | Debug | General

  /** `_route_decision`: the lower-cased action picks explain or debug; every other string picks general. */
  function RouteDecision(action: string): Route {
    var a := Lower(action);
    if a == "explain" then Explain
    else if a == "debug" then Debug
    else General
  }

  /** Routing ignores case: each node is chosen exactly by the letters of its name in any casing. */
  lemma RouteDecisionCaseInsensitive(action: string)
    ensures RouteDecision(action) == Explain <==>
      |action| == 7 && forall k :: 0 <= k < 7 ==> LowerChar(action[k]) == "explain"[k]
    ensures RouteDecision(action) == Debug <==>
      |action| == 5 && forall k :: 0 <= k < 5 ==> LowerChar(action[k]) == "debug"[k]
    ensures RouteDecision(action) == General <==>
      Lower(action) != "explain" && Lower(action) != "debug"
    ensures RouteDecision(Lower(action)) == RouteDecision(action)
  {
    LowerEqualsIff(action, "explain");
    LowerEqualsIff(action, "debug");
    LowerIdempotent(action);
  }

  /** The three wire actions reach their own nodes. */
  lemma RouteOfWireAction(a: Models.Action)
    ensures RouteDecision(Models.ActionName(a)) ==
      match a
      case Explain => Route.Explain
      case Debug => Route.Debug
      case General => Route.General
  {
    var name := Models.ActionName(a);
    match a {
      case Explain =>
        assert forall k :: 0 <= k < 7 ==> LowerChar(name[k]) == "explain"[k];
        LowerEqualsIff(name, "explain");
      case Debug =>
        assert forall k :: 0 <= k < 5 ==> LowerChar(name[k]) == "debug"[k];
        LowerEqualsIff(name, "debug");
      case General =>
        assert Lower(name)[0] == 'g';
    }
  }

  /** An entry of the conversation memory: a human or AI message, or any other kind. */
  datatype MemoryMessage = Human(content: string) | Ai(content: string) | Other(content: string)

  /** A thread's `ConversationBufferMemory`: its chat messages, oldest first. */
  class ConversationMemory {
    var messages: seq<MemoryMessage>

    constructor ()
      ensures messages == []
    {
      messages := [];
    }

    /** `save_context`: the input is stored as a human message, then the output as an AI message. */
    method SaveContext(input: string, output: string)
      modifies this
      ensures messages == old(messages) + [Human(input), Ai(output)]
    {
      messages := messages + [Human(input), Ai(output)];
    }
  }

  const NoHistory := "No previous conversation."
  const DefaultMaxMessages := 6

  /** Python's `s[start:]`: a negative start counts from the end, and both ends are clamped. */
  function PySliceFrom<T>(s: seq<T>, start: int): (r: seq<T>)
    ensures |r| <= |s| && r == s[|s| - |r|..]
    ensures 0 <= start <= |s| ==> |r| == |s| - start
    ensures -|s| <= start < 0 ==> |r| == -start
    ensures start < -|s| ==> r == s
    ensures start > |s| ==> r == []
  {
    var i := if start < 0 then (if |s| + start < 0 then 0 else |s| + start)
             else (if start > |s| then |s| else start);
    s[i..]
  }

  /** The messages `_get_memory_context` formats: `messages[-max_messages:]` when there are more than `max_messages`. */
  function RecentMessages(messages: seq<MemoryMessage>, maxMessages: int): seq<MemoryMessage> {
    if |messages| > maxMessages then PySliceFrom(messages, -maxMessages) else messages
  }

  /** With a positive bound, the recent messages are the last ones, at most `maxMessages` of them, in their order. */
  lemma RecentAreLast(messages: seq<MemoryMessage>, maxMessages: int)
    requires maxMessages >= 1
    ensures var n := if |messages| < maxMessages then |messages| else maxMessages;
      RecentMessages(messages, maxMessages) == messages[|messages| - n..]
    ensures |RecentMessages(messages, maxMessages)| <= maxMessages
  {
  }

  /** A bound of zero keeps every message, since `messages[-0:]` is the whole list. */
  lemma ZeroBoundKeepsAll(messages: seq<MemoryMessage>)
    ensures RecentMessages(messages, 0) == messages
  {
  }

  /** The line one message contributes to the context: none for a kind other than human or AI. */
  function ContextLine(m: MemoryMessage): seq<string> {
    match m
    case Human(c) => ["User: " + c]
    case Ai(c) => ["Assistant: " + c]
    case Other(_) => []
  }

  /** The context lines of `msgs`, in order. */
  function ContextParts(msgs: seq<MemoryMessage>): seq<string> {
    if msgs == [] then [] else ContextParts(msgs[..|msgs| - 1]) + ContextLine(msgs[|msgs| - 1])
  }

  /** The lines of a concatenation are the lines of its parts, so each message contributes its own line in place. */
  lemma {:induction false} ContextPartsAppend(a: seq<MemoryMessage>, b: seq<MemoryMessage>)
    ensures ContextParts(a + b) == ContextParts(a) + ContextParts(b)
    decreases |b|
  {
    if b == [] {
      assert a + b == a;
    } else {
      assert (a + b)[..|a + b| - 1] == a + b[..|b| - 1];
      ContextPartsAppend(a, b[..|b| - 1]);
    }
  }

  /** At most one line per message, and no line at all exactly when every message is of another kind. */
  lemma {:induction false} ContextPartsBound(msgs: seq<MemoryMessage>)
    ensures |ContextParts(msgs)| <= |msgs|
    ensures ContextParts(msgs) == [] <==> forall k :: 0 <= k < |msgs| ==> msgs[k].Other?
    ensures forall k :: 0 <= k < |ContextParts(msgs)| ==>
      |ContextParts(msgs)[k]| > 0 && ContextParts(msgs)[k][0] in {'U', 'A'}
  {
    if msgs != [] {
      var init := msgs[..|msgs| - 1];
      ContextPartsBound(init);
      assert forall k :: 0 <= k < |init| ==> init[k] == msgs[k];
    }
  }

  /** The human and AI messages of `msgs`, in their order. */
  function Speakers(msgs: seq<MemoryMessage>): seq<MemoryMessage> {
    if msgs == [] then [] else (if msgs[0].Other? then [] else [msgs[0]]) + Speakers(msgs[1..])
  }

  /** The speaker label a human or AI message's line starts with. */
  function Label(m: MemoryMessage): string {
    if m.Human? then "User: " else "Assistant: "
  }

  /** The speakers are exactly the human and AI messages; with no other kind present they are all the messages. */
  lemma {:induction false} SpeakersShape(msgs: seq<MemoryMessage>)
    ensures forall m :: m in Speakers(msgs) <==> m in msgs && !m.Other?
    ensures (forall k :: 0 <= k < |msgs| ==> !msgs[k].Other?) ==> Speakers(msgs) == msgs
  {
    if msgs != [] {
      SpeakersShape(msgs[1..]);
      assert msgs == [msgs[0]] + msgs[1..];
      if forall k :: 0 <= k < |msgs| ==> !msgs[k].Other? {
        assert forall k :: 0 <= k < |msgs[1..]| ==> msgs[1..][k] == msgs[k + 1];
      }
    }
  }

  /**
   * The context lines are, in order, one per human or AI message: its speaker
   * label, "User: " or "Assistant: ", followed by its content.
   */
  lemma {:induction false} ContextPartsAreSpeakerLines(msgs: seq<MemoryMessage>)
    ensures |ContextParts(msgs)| == |Speakers(msgs)|
    ensures forall k :: 0 <= k < |ContextParts(msgs)| ==>
      ContextParts(msgs)[k] == Label(Speakers(msgs)[k]) + Speakers(msgs)[k].content
    decreases |msgs|
  {
    if msgs != [] {
      var head, tail := [msgs[0]], msgs[1..];
      assert msgs == head + tail;
      ContextPartsAppend(head, tail);
      assert head[..|head| - 1] == [];
      assert ContextParts(head) == ContextLine(msgs[0]);
      ContextPartsAreSpeakerLines(tail);
    }
  }

  /** `_get_memory_context` as a value: the joined lines of the recent messages, or the fallback text. */
  function MemoryContext(messages: seq<MemoryMessage>, maxMessages: int): string {
    if messages == [] then NoHistory
    else
      var parts := ContextParts(RecentMessages(messages, maxMessages));
      if parts == [] then NoHistory else Join(parts, "\n")
  }

  /** A join begins with its first part. */
  lemma {:induction false} JoinStartsWithFirst(parts: seq<string>, sep: string)
    requires |parts| > 0
    ensures |Join(parts, sep)| >= |parts[0]| && Join(parts, sep)[..|parts[0]|] == parts[0]
  {
  }

  /**
   * The context falls back to the fixed text exactly when no recent message is
   * human or AI; otherwise it joins at most `maxMessages` lines (for a positive
   * bound), one per recent human or AI message.
   */
  lemma MemoryContextShape(messages: seq<MemoryMessage>, maxMessages: int)
    requires maxMessages >= 1
    ensures var recent := RecentMessages(messages, maxMessages);
      MemoryContext(messages, maxMessages) == NoHistory <==> forall k :: 0 <= k < |recent| ==> recent[k].Other?
    ensures |ContextParts(RecentMessages(messages, maxMessages))| <= maxMessages
  {
    var recent := RecentMessages(messages, maxMessages);
    RecentAreLast(messages, maxMessages);
    ContextPartsBound(recent);
    var parts := ContextParts(recent);
    if messages == [] {
      assert recent == [];
    } else if parts != [] {
      JoinStartsWithFirst(parts, "\n");
      var text := Join(parts, "\n");
      assert text[0] == parts[0][0];
      assert NoHistory[0] == 'N';
    }
  }

  /** A line holds a newline only if its message's content does. */
  lemma {:induction false} NewlineFreeParts(msgs: seq<MemoryMessage>)
    requires forall k :: 0 <= k < |msgs| ==> '\n' !in msgs[k].content
    ensures forall k :: 0 <= k < |ContextParts(msgs)| ==> '\n' !in ContextParts(msgs)[k]
    decreases |msgs|
  {
    if msgs != [] {
      var init, last := msgs[..|msgs| - 1], msgs[|msgs| - 1];
      assert forall k :: 0 <= k < |init| ==> init[k] == msgs[k];
      NewlineFreeParts(init);
      assert '\n' !in last.content;
      assert '\n' !in "User: " && '\n' !in "Assistant: ";
    }
  }

  /**
   * When no recent message's content holds a newline, the context has exactly
   * one line per recent human or AI message, hence at most `maxMessages` lines
   * (one more line than it has newlines, the fallback text having none).
   */
  lemma MemoryContextLineCount(messages: seq<MemoryMessage>, maxMessages: int)
    requires maxMessages >= 1
    requires var recent := RecentMessages(messages, maxMessages);
      forall k :: 0 <= k < |recent| ==> '\n' !in recent[k].content
    ensures var parts := ContextParts(RecentMessages(messages, maxMessages));
      MemoryContext(messages, maxMessages) != NoHistory ==>
        CountChar(MemoryContext(messages, maxMessages), '\n') + 1 == |parts|
    ensures CountChar(MemoryContext(messages, maxMessages), '\n') < maxMessages
  {
    var recent := RecentMessages(messages, maxMessages);
    var parts := ContextParts(recent);
    var text := MemoryContext(messages, maxMessages);
    MemoryContextShape(messages, maxMessages);
    if text == NoHistory {
      assert '\n' !in NoHistory;
      CountCharZero(NoHistory, '\n');
    } else {
      assert messages != [] && parts != [];
      assert text == Join(parts, ['\n']);
      NewlineFreeParts(recent);
      JoinCountsSeparators(parts, '\n');
    }
  }

  /** `_get_memory_context`: slices the history, collects the lines in a loop and joins them with newlines. */
  method GetMemoryContext(memory: ConversationMemory, maxMessages: int) returns (r: string)
    ensures r == MemoryContext(memory.messages, maxMessages)
  {
    var messages := memory.messages;
    if messages == [] {
      return NoHistory;
    }
    var recent := if |messages| > maxMessages then PySliceFrom(messages, -maxMessages) else messages;
    var parts: seq<string> := [];
    var i := 0;
    while i < |recent|
      invariant 0 <= i <= |recent|
      invariant parts == ContextParts(recent[..i])
    {
      assert recent[..i + 1][..i] == recent[..i];
      match recent[i] {
        case Human(c) => parts := parts + ["User: " + c];
        case Ai(c) => parts := parts + ["Assistant: " + c];
        case Other(_) =>
      }
      i := i + 1;
    }
    assert recent[..i] == recent;
    r := if parts == [] then NoHistory else Join(parts, "\n");
  }

  /** What a node puts before the language model: its task with the history and the code or message. */
  datatype Prompt =
    | ExplainPrompt(history: string, code: string)
    | DebugPrompt(history: string, code: string)
    | GeneralPrompt(history: string, message: string)

  /** What the language model call yields: the reply's text, or the text of the exception it raised. */
  datatype LlmReply = Reply(text: string) | Raised(error: string)

  /** Python's `str(x)` on an optional string, as an f-string renders it. */
  function PyStr(x: Option<string>): string {
    match x
    case Some(s) => s
    case None => "None"
  }

  /** The `WorkflowState` dictionary a run works on; `response` is absent until a node sets it. */
  class WorkflowState {
    var action: string
    var code: Option<string>
    var message: Option<string>
    const memory: ConversationMemory
    var threadId: string
    var response: Option<string>

    constructor (action: string, code: Option<string>, message: Option<string>, memory: ConversationMemory, threadId: string)
      ensures this.action == action && this.code == code && this.message == message
      ensures this.memory == memory && this.threadId == threadId && response == None
    {
      this.action := action;
      this.code := code;
      this.message := message;
      this.memory := memory;
      this.threadId := threadId;
      response := None;
    }
  }

  /** What the result of running a node is: the recorded input and the reply, or the text of the exception raised. */
  function NodeEffect(llm: Prompt -> LlmReply, noneMessageError: string, route: Route,
                      code: Option<string>, message: Option<string>, history: seq<MemoryMessage>)
    : Result<(string, string), string>
  {
    var context := MemoryContext(history, DefaultMaxMessages);
    match route
    case Explain =>
      (match llm(ExplainPrompt(context, PyStr(code)))
       case Reply(t) => Ok(("Explain: " + PyStr(code), t))
       case Raised(e) => Err(e))
    case Debug =>
      (match llm(DebugPrompt(context, PyStr(code)))
       case Reply(t) => Ok(("Debug: " + PyStr(code), t))
       case Raised(e) => Err(e))
    case General =>
      (match llm(GeneralPrompt(context, PyStr(message)))
       case Reply(t) => if message.Some? then Ok((message.value, t)) else Err(noneMessageError)
       case Raised(e) => Err(e))
  }

  /**
   * Each node asks the model with the history as it was before the call, and
   * when it completes it records `"Explain: " + code`, `"Debug: " + code` or
   * the raw message as input and the model's text as output.
   */
  lemma NodeRecords(llm: Prompt -> LlmReply, noneMessageError: string, route: Route,
                    code: Option<string>, message: Option<string>, history: seq<MemoryMessage>)
    ensures var context := MemoryContext(history, DefaultMaxMessages);
      match NodeEffect(llm, noneMessageError, route, code, message, history)
      case Ok(io) =>
        (match route
         case Explain => io == ("Explain: " + PyStr(code), llm(ExplainPrompt(context, PyStr(code))).text)
         case Debug => io == ("Debug: " + PyStr(code), llm(DebugPrompt(context, PyStr(code))).text)
         case General => message.Some? && io == (message.value, llm(GeneralPrompt(context, message.value)).text))
      case Err(e) =>
        (match route
         case Explain => llm(ExplainPrompt(context, PyStr(code))) == Raised(e)
         case Debug => llm(DebugPrompt(context, PyStr(code))) == Raised(e)
         case General =>
           llm(GeneralPrompt(context, PyStr(message))) == Raised(e)
           || (message.None? && llm(GeneralPrompt(context, "None")).Reply? && e == noneMessageError))
  {
  }

  /** The result `run` returns: the final state's response, action and thread id. */
  datatype RunResult = RunResult(response: string, action: string, threadId: string)

  const FallbackPrefix := "I encountered an error processing your request. Please try again. Error: "

  /** The fallback result of a failed run; a missing `action` or `thread_id` key reads as "UNKNOWN" or "unknown". */
  function FallbackResult(action: Option<string>, threadId: Option<string>, error: string): (r: RunResult)
    ensures |r.response| == |FallbackPrefix| + |error|
    ensures r.response[..|FallbackPrefix|] == FallbackPrefix && r.response[|FallbackPrefix|..] == error
    ensures r.action == (if action.Some? then action.value else "UNKNOWN")
    ensures r.threadId == (if threadId.Some? then threadId.value else "unknown")
  {
    RunResult(FallbackPrefix + error, action.GetOr("UNKNOWN"), threadId.GetOr("unknown"))
  }

  /** What `run` yields on a state, and the thread's history after it. */
  function RunSpec(llm: Prompt -> LlmReply, noneMessageError: string, action: string, threadId: string,
                   code: Option<string>, message: Option<string>, history: seq<MemoryMessage>)
    : (RunResult, seq<MemoryMessage>)
  {
    match NodeEffect(llm, noneMessageError, RouteDecision(action), code, message, history)
    case Ok((input, output)) => (RunResult(output, action, threadId), history + [Human(input), Ai(output)])
    case Err(e) => (FallbackResult(Some(action), Some(threadId), e), history)
  }

  /**
   * A run either completes, answering with the model's text and adding exactly
   * one human message (the node's recorded input) and one AI message (the
   * answer) to the history, or fails, answering with the fallback text for the
   * node's error and leaving the history as it was; it always echoes the
   * action and thread id.
   */
  lemma RunOutcomes(llm: Prompt -> LlmReply, noneMessageError: string, action: string, threadId: string,
                    code: Option<string>, message: Option<string>, history: seq<MemoryMessage>)
    ensures var (result, after) := RunSpec(llm, noneMessageError, action, threadId, code, message, history);
      && result.action == action && result.threadId == threadId
      && (|after| == |history| + 2 || after == history)
      && after[..|history|] == history
      && (after != history ==>
            && after[|history|].Human?
            && after[|history| + 1] == Ai(result.response))
      && (after == history ==> exists e :: result == FallbackResult(Some(action), Some(threadId), e))
    ensures var (result, after) := RunSpec(llm, noneMessageError, action, threadId, code, message, history);
      var effect := NodeEffect(llm, noneMessageError, RouteDecision(action), code, message, history);
      && (after != history <==> effect.Ok?)
      && (effect.Ok? ==> after[|history|] == Human(effect.value.0) && result.response == effect.value.1)
  {
    var (result, after) := RunSpec(llm, noneMessageError, action, threadId, code, message, history);
    var effect := NodeEffect(llm, noneMessageError, RouteDecision(action), code, message, history);
    if effect.Ok? {
      assert |after| == |history| + 2;
    } else {
      assert result == FallbackResult(Some(action), Some(threadId), effect.error);
    }
  }

  /** `PythonAssistantWorkflow`, over a language model given as a function from prompt to reply. */
  class AssistantWorkflow {
    const llm: Prompt -> LlmReply
    /** The text of the exception raised when a `None` message is stored in memory. */
    const noneMessageError: string

    constructor (llm: Prompt -> LlmReply, noneMessageError: string)
      ensures this.llm == llm && this.noneMessageError == noneMessageError
    {
      this.llm := llm;
      this.noneMessageError := noneMessageError;
    }

    /** `_router_node`: passes the state through untouched. */
    method RouterNode(state: WorkflowState) returns (r: WorkflowState)
      ensures r == state
    {
      r := state;
    }

    /** `_explain_node`; `raised` is the text of the exception it raised, if any. */
    method ExplainNode(state: WorkflowState) returns (raised: Option<string>)
      modifies state`response, state.memory
      ensures match NodeEffect(llm, noneMessageError, Explain, state.code, state.message, old(state.memory.messages))
        case Ok((input, output)) =>
          raised == None && state.response == Some(output) && state.memory.messages == old(state.memory.messages) + [Human(input), Ai(output)]
        case Err(e) =>
          raised == Some(e) && state.response == old(state.response) && state.memory.messages == old(state.memory.messages)
    {
      var code := state.code;
      var memory := state.memory;
      var history := GetMemoryContext(memory, DefaultMaxMessages);
      var reply := llm(ExplainPrompt(history, PyStr(code)));
      if reply.Raised? {
        return Some(reply.error);
      }
      memory.SaveContext("Explain: " + PyStr(code), reply.text);
      state.response := Some(reply.text);
      raised := None;
    }

    /** `_debug_node`; `raised` is the text of the exception it raised, if any. */
    method DebugNode(state: WorkflowState) returns (raised: Option<string>)
      modifies state`response, state.memory
      ensures match NodeEffect(llm, noneMessageError, Debug, state.code, state.message, old(state.memory.messages))
        case Ok((input, output)) =>
          raised == None && state.response == Some(output) && state.memory.messages == old(state.memory.messages) + [Human(input), Ai(output)]
        case Err(e) =>
          raised == Some(e) && state.response == old(state.response) && state.memory.messages == old(state.memory.messages)
    {
      var code := state.code;
      var memory := state.memory;
      var history := GetMemoryContext(memory, DefaultMaxMessages);
      var reply := llm(DebugPrompt(history, PyStr(code)));
      if reply.Raised? {
        return Some(reply.error);
      }
      memory.SaveContext("Debug: " + PyStr(code), reply.text);
      state.response := Some(reply.text);
      raised := None;
    }

    /** `_general_node`; storing a `None` message raises after the model has answered. */
    method GeneralNode(state: WorkflowState) returns (raised: Option<string>)
      modifies state`response, state.memory
      ensures match NodeEffect(llm, noneMessageError, General, state.code, state.message, old(state.memory.messages))
        case Ok((input, output)) =>
          raised == None && state.response == Some(output) && state.memory.messages == old(state.memory.messages) + [Human(input), Ai(output)]
        case Err(e) =>
          raised == Some(e) && state.response == old(state.response) && state.memory.messages == old(state.memory.messages)
    {
      var message := state.message;
      var memory := state.memory;
      var history := GetMemoryContext(memory, DefaultMaxMessages);
      var reply := llm(GeneralPrompt(history, PyStr(message)));
      if reply.Raised? {
        return Some(reply.error);
      }
      if message.None? {
        return Some(noneMessageError);
      }
      memory.SaveContext(message.value, reply.text);
      state.response := Some(reply.text);
      raised := None;
    }

    /** `run`: the router, the node it selects, and the fallback result when the node raised. */
    method Run(state: WorkflowState) returns (result: RunResult)
      modifies state`response, state.memory
      ensures (result, state.memory.messages) ==
        RunSpec(llm, noneMessageError, state.action, state.threadId, state.code, state.message, old(state.memory.messages))
    {
      var routed := RouterNode(state);
      var raised: Option<string>;
      match RouteDecision(routed.action) {
        case Explain => raised := ExplainNode(routed);
        case Debug => raised := DebugNode(routed);
        case General => raised := GeneralNode(routed);
      }
      if raised.Some? {
        result := FallbackResult(Some(state.action), Some(state.threadId), raised.value);
      } else {
        result := RunResult(state.response.value, state.action, state.threadId);
      }
    }
  }
}
