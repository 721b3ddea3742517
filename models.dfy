/**
 * The wire schema of the `/chat` endpoint (ai_engine/models.py): the closed
 * set of actions, the request body before and after validation, and the
 * response body. A raw body holds, for each key, `None` when the key is
 * absent or `null`, and the string otherwise.
 */
module Models {
  import opened Wrappers

  /** The three request kinds the `action` literal admits. */
  datatype Action = Explain | Debug | General

  /** The literal an action travels as. */
  function ActionName(a: Action): string {
    match a
    case Explain => "EXPLAIN"
    case Debug => "DEBUG"
    case General => "GENERAL"
  }

  /** The action a string denotes, if it is one of the three literals (the match is exact: case matters). */
  function ParseAction(s: string): (r: Option<Action>)
    ensures r.Some? <==> s == "EXPLAIN" || s == "DEBUG" || s == "GENERAL"
    ensures r.Some? ==> ActionName(r.value) == s
  {
    if s == "EXPLAIN" then Some(Explain)
    else if s == "DEBUG" then Some(Debug)
    else if s == "GENERAL" then Some(General)
    else None
  }

  /** Every action's literal parses back to that action. */
  lemma ParseActionName(a: Action)
    ensures ParseAction(ActionName(a)) == Some(a)
  {
  }

  /** A `/chat` request body as received. */
  datatype RawChatRequest = RawChatRequest(
    action: Option<string>,
    threadId: Option<string>,
    code: Option<string>,
    message: Option<string>)

  /** A validated `ChatRequest`: `code` and `message` stay optional, whatever the action. */
  datatype ChatRequest = ChatRequest(
    action: Action,
    threadId: string,
    code: Option<string>,
    message: Option<string>)

  /** The fields that fail validation, in declaration order. */
  function RequestErrors(raw: RawChatRequest): seq<string> {
    (if raw.action.None? || ParseAction(raw.action.value).None? then ["action"] else [])
    + (if raw.threadId.None? then ["thread_id"] else [])
  }

  /** Validation of a request body: `action` must be one of the literals and `thread_id` must be present. */
  function ValidateRequest(raw: RawChatRequest): (r: Result<ChatRequest, seq<string>>)
    ensures r.Ok? <==> raw.action.Some? && ParseAction(raw.action.value).Some? && raw.threadId.Some?
    ensures r.Ok? ==> ActionName(r.value.action) == raw.action.value && r.value.threadId == raw.threadId.value
    ensures r.Ok? ==> r.value.code == raw.code && r.value.message == raw.message
    ensures r.Err? ==> |r.error| > 0
    ensures r.Err? ==> ("action" in r.error <==> raw.action.None? || ParseAction(raw.action.value).None?)
    ensures r.Err? ==> ("thread_id" in r.error <==> raw.threadId.None?)
    ensures r.Err? ==> forall e :: e in r.error ==> e == "action" || e == "thread_id"
  {
    var errors := RequestErrors(raw);
    if errors == [] then
      Ok(ChatRequest(ParseAction(raw.action.value).value, raw.threadId.value, raw.code, raw.message))
    else
      Err(errors)
  }

  /** The body a validated request was read from. */
  function RequestBody(req: ChatRequest): RawChatRequest {
    RawChatRequest(Some(ActionName(req.action)), Some(req.threadId), req.code, req.message)
  }

  /**
   * Every validated request is accepted back from its own body, with any
   * combination of `code` and `message`: no rule ties either one to the action.
   */
  lemma RequestRoundTrip(req: ChatRequest)
    ensures ValidateRequest(RequestBody(req)) == Ok(req)
  {
    ParseActionName(req.action);
  }

  /** Extra response data; its values are modelled as strings. */
  type Metadata = map<string, string>

  /** A `/chat` response body before validation. */
  datatype RawChatResponse = RawChatResponse(
    response: Option<string>,
    action: Option<string>,
    threadId: Option<string>,
    metadata: Option<Metadata>)

  /** A `ChatResponse`: `action` is a plain string here, not the literal set. */
  datatype ChatResponse = ChatResponse(
    response: string,
    action: string,
    threadId: string,
    metadata: Option<Metadata>)

  /** Validation of a response body: `response`, `action` and `thread_id` are required, `metadata` defaults to `None`. */
  function ValidateResponse(raw: RawChatResponse): (r: Result<ChatResponse, seq<string>>)
    ensures r.Ok? <==> raw.response.Some? && raw.action.Some? && raw.threadId.Some?
    ensures r.Ok? ==> r.value.response == raw.response.value && r.value.action == raw.action.value
    ensures r.Ok? ==> r.value.threadId == raw.threadId.value && r.value.metadata == raw.metadata
    ensures r.Err? ==> ("response" in r.error <==> raw.response.None?)
    ensures r.Err? ==> ("action" in r.error <==> raw.action.None?)
    ensures r.Err? ==> ("thread_id" in r.error <==> raw.threadId.None?)
    ensures r.Err? ==> forall e :: e in r.error ==> e == "response" || e == "action" || e == "thread_id"
  {
    var errors :=
      (if raw.response.None? then ["response"] else [])
      + (if raw.action.None? then ["action"] else [])
      + (if raw.threadId.None? then ["thread_id"] else []);
    if errors == [] then
      Ok(ChatResponse(raw.response.value, raw.action.value, raw.threadId.value, raw.metadata))
    else
      Err(errors)
  }

  /** A response built with the keyword arguments alone: `metadata` takes its default. */
  function NewChatResponse(response: string, action: string, threadId: string): (r: ChatResponse)
    ensures r.metadata == None
    ensures ValidateResponse(RawChatResponse(Some(response), Some(action), Some(threadId), None)) == Ok(r)
  {
    ChatResponse(response, action, threadId, None)
  }
}
