/**
 * The HTTP service (ai_engine/app.py): the in-memory table of thread
 * memories, its get-or-create and last-code operations, and the `/chat` and
 * `/threads/{thread_id}/memory` handlers.
 */
module Server {
  import opened Wrappers
  import opened Models
  import opened Workflow

  /** One entry of `thread_memories`: the thread's conversation memory and the last code it was sent. */
  datatype ThreadRecord = ThreadRecord(memory: ConversationMemory, lastCode: Option<string>)

  type Table = map<string, ThreadRecord>

  /** The table after `get_thread_memory(threadId)`, where `created` is the entry it would insert. */
  function WithThread(table: Table, threadId: string, created: ThreadRecord): (r: Table)
    ensures threadId in r
    ensures threadId in table ==> r == table
    ensures threadId !in table ==> r[threadId] == created
    ensures r.Keys == table.Keys + {threadId}
    ensures forall t :: t in table ==> r[t] == table[t]
  {
    if threadId in table then table else table[threadId := created]
  }

  /** Getting a thread twice inserts at most once: the second call finds the entry of the first. */
  lemma WithThreadIdempotent(table: Table, threadId: string, first: ThreadRecord, second: ThreadRecord)
    ensures WithThread(WithThread(table, threadId, first), threadId, second) == WithThread(table, threadId, first)
    ensures |WithThread(table, threadId, first)| <= |table| + 1
  {
    if threadId !in table {
      assert WithThread(table, threadId, first).Keys == table.Keys + {threadId};
    }
  }

  /** The table after `update_last_code(threadId, code)`: only that thread's `last_code` changes, and only if the thread exists. */
  function WithLastCode(table: Table, threadId: string, code: string): (r: Table)
    ensures r.Keys == table.Keys
    ensures forall t :: t in table && t != threadId ==> r[t] == table[t]
    ensures threadId in table ==> r[threadId].memory == table[threadId].memory && r[threadId].lastCode == Some(code)
    ensures threadId !in table ==> r == table
  {
    if threadId in table then table[threadId := table[threadId].(lastCode := Some(code))] else table
  }

  /** An HTTP error response: its status code and `detail`. */
  datatype HttpError = HttpError(status: nat, detail: string)

  const ThreadNotFound := HttpError(404, "Thread not found")

  const ChatErrorPrefix := "Error processing request: "

  /** The 500 response `chat` raises for an exception whose text is `error`. */
  function InternalError(error: string): (r: HttpError)
    ensures r.status == 500
    ensures |r.detail| == |ChatErrorPrefix| + |error|
    ensures r.detail[..|ChatErrorPrefix|] == ChatErrorPrefix && r.detail[|ChatErrorPrefix|..] == error
  {
    HttpError(500, ChatErrorPrefix + error)
  }

  /** The body `get_thread_info` returns. */
  datatype ThreadInfo = ThreadInfo(threadId: string, messageCount: nat, lastCode: Option<string>)

  /** Python's truthiness of an optional string: present and non-empty. */
  predicate Truthy(s: Option<string>) {
    s.Some? && s.value != ""
  }

  /** The state of the service process: `thread_memories` and the shared workflow. */
  class AssistantApi {
    var threadMemories: Table
    const workflow: AssistantWorkflow

    /** The memory objects the table refers to. */
    ghost function Memories(): set<ConversationMemory>
      reads this
    {
      set t | t in threadMemories :: threadMemories[t].memory
    }

    /** Each thread has a memory object of its own. */
    ghost predicate Valid()
      reads this
    {
      forall t, u :: t in threadMemories && u in threadMemories && t != u ==>
        threadMemories[t].memory != threadMemories[u].memory
    }

    constructor (workflow: AssistantWorkflow)
      ensures Valid() && threadMemories == map[] && this.workflow == workflow
    {
      threadMemories := map[];
      this.workflow := workflow;
    }

    /** `get_thread_memory`: the thread's memory, created empty with no last code when the thread is new. */
    method GetThreadMemory(threadId: string) returns (memory: ConversationMemory)
      requires Valid()
      modifies this`threadMemories
      ensures Valid()
      ensures threadMemories == WithThread(old(threadMemories), threadId, ThreadRecord(memory, None))
      ensures memory == threadMemories[threadId].memory
      ensures threadId !in old(threadMemories) ==> fresh(memory) && memory.messages == []
    {
      if threadId !in threadMemories {
        var created := new ConversationMemory();
        threadMemories := threadMemories[threadId := ThreadRecord(created, None)];
      }
      memory := threadMemories[threadId].memory;
    }

    /** `update_last_code`. */
    method UpdateLastCode(threadId: string, code: string)
      requires Valid()
      modifies this`threadMemories
      ensures Valid()
      ensures threadMemories == WithLastCode(old(threadMemories), threadId, code)
    {
      if threadId in threadMemories {
        threadMemories := threadMemories[threadId := threadMemories[threadId].(lastCode := Some(code))];
      }
    }

    /** The history a thread has before a request: empty for a thread not yet in the table. */
    ghost function HistoryOf(threadId: string): seq<MemoryMessage>
      reads this, Memories()
    {
      if threadId in threadMemories then threadMemories[threadId].memory.messages else []
    }

    /**
     * The `/chat` handler. In this model nothing inside its `try` raises (a
     * failed run already yields a fallback result), so it always answers;
     * `InternalError` is the response an exception would produce.
     */
    method Chat(request: ChatRequest) returns (r: Result<ChatResponse, HttpError>)
      requires Valid()
      modifies this`threadMemories, Memories()
      ensures Valid()
      ensures var t := request.threadId;
        && threadMemories.Keys == old(threadMemories).Keys + {t}
        && (t in old(threadMemories) ==> threadMemories[t].memory == old(threadMemories)[t].memory)
        && threadMemories[t].lastCode ==
             (if Truthy(request.code) then request.code
              else if t in old(threadMemories) then old(threadMemories)[t].lastCode else None)
      ensures forall u :: u in old(threadMemories) && u != request.threadId ==>
        threadMemories[u] == old(threadMemories)[u] && threadMemories[u].memory.messages == old(threadMemories[u].memory.messages)
      ensures var (result, after) := RunSpec(workflow.llm, workflow.noneMessageError, ActionName(request.action),
                                             request.threadId, request.code, request.message, old(HistoryOf(request.threadId)));
        && r == Ok(NewChatResponse(result.response, ActionName(request.action), request.threadId))
        && threadMemories[request.threadId].memory.messages == after
    {
      ghost var history := HistoryOf(request.threadId);
      var memory := GetThreadMemory(request.threadId);
      assert memory.messages == history;
      if Truthy(request.code) {
        UpdateLastCode(request.threadId, request.code.value);
      }
      var state := new WorkflowState(ActionName(request.action), request.code, request.message, memory, request.threadId);
      var result := workflow.Run(state);
      r := Ok(NewChatResponse(result.response, ActionName(request.action), request.threadId));
    }

    /** The `/threads/{thread_id}/memory` handler: 404 for an unknown thread, otherwise its message count and last code. */
    method GetThreadInfo(threadId: string) returns (r: Result<ThreadInfo, HttpError>)
      ensures r.Err? <==> threadId !in threadMemories
      ensures r.Err? ==> r.error == ThreadNotFound
      ensures r.Ok? ==>
        && r.value.threadId == threadId
        && r.value.messageCount == |threadMemories[threadId].memory.messages|
        && r.value.lastCode == threadMemories[threadId].lastCode
    {
      if threadId !in threadMemories {
        return Err(ThreadNotFound);
      }
      var entry := threadMemories[threadId];
      r := Ok(ThreadInfo(threadId, |entry.memory.messages|, entry.lastCode));
    }
  }
}
