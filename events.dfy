/** The values that travel between the controller and its handlers: the
    application event with its kind and processing status, and the payloads an
    event's `request` and `result` can hold. The payload forms that the
    assistant backend produces (the assistant result and the tool-call
    record) live here too, because an event carries them. */
module Events {
  import opened Base

  /** The kinds of application event. The enum in the source declares the
      first twelve; `Zapier` is used by the controller and by the function-name
      mapping but is not declared there (see README, Findings). */
  datatype ApplicationEventType =
    | Start | Synthesize | AiInteract | AiToolReturn | Play | Listen
    | StartRecording | StopRecording | UseSnapshot | Transcribe | GetSnapshot | Exit
    | Zapier

  /** The members the source's enum declares, in declaration order. */
  const DeclaredKinds: seq<ApplicationEventType> :=
    [Start, Synthesize, AiInteract, AiToolReturn, Play, Listen,
     StartRecording, StopRecording, UseSnapshot, Transcribe, GetSnapshot, Exit]

  lemma DeclaredKindsAreTwelveEndingInExit()
    ensures |DeclaredKinds| == 12 && DeclaredKinds[11] == Exit
    ensures forall i, j | 0 <= i < j < |DeclaredKinds| :: DeclaredKinds[i] != DeclaredKinds[j]
    ensures forall k :: k in DeclaredKinds <==> k != Zapier
  {
  }

  datatype ProcessingStatus = Init | Success | Error

  datatype AssistantResultStatus = Success | Error | ActionRequied

  /** One call of the backend's tool-call batch, as the OpenAI client hands it
      over: `call.id`, `call.function.name`, `call.function.arguments`. */
  datatype FunctionToolCall = FunctionToolCall(id: string, name: string, arguments: Payload)

  /** One entry of the `tools` list that `resolve_calls` builds
      (`type`, `args`, `tool_call_id`) and `handle_ai_result` completes with
      an `output`. */
  datatype ToolCall = ToolCall(kind: ApplicationEventType, args: Payload, toolCallId: string, output: Option<Payload>)

  /** The `{tools, run_id, thread_id}` record. */
  datatype PendingAction = PendingAction(tools: seq<ToolCall>, runId: string, threadId: string)

  /** The assistant's answer for one streamed run (spelled `AssitsantResult`
      in the source). */
  datatype AssitsantResult = AssitsantResult(
    status: AssistantResultStatus,
    response: string,
    calls: Option<PendingAction>,
    error: string)

  /** One `{tool_call_id, output}` entry of the webhook dispatcher's results. */
  datatype ToolOutput = ToolOutput(toolCallId: string, output: string)

  /** What an event's `request` or `result` can hold. */
  datatype Payload =
    | Null
    | Text(s: string)
    | Dict(fields: map<string, Payload>)
    | Calls(action: PendingAction)
    | Assistant(answer: AssitsantResult)
    | Outputs(items: seq<ToolOutput>)

  /** The Python class name of a payload, as it appears in error messages. */
  function TypeName(p: Payload): string
  {
    match p
    case Null => "NoneType"
    case Text(_) => "str"
    case Dict(_) => "dict"
    case Calls(_) => "dict"
    case Assistant(_) => "AssitsantResult"
    case Outputs(_) => "list"
  }

  /** Python truthiness of a payload. */
  predicate Truthy(p: Payload)
  {
    match p
    case Null => false
    case Text(s) => s != ""
    case Dict(m) => |m| > 0
    case Calls(_) => true
    case Assistant(_) => true
    case Outputs(items) => |items| > 0
  }

  /** Python truthiness of an optional string (`if self.thread_id:`). */
  predicate IsSet(id: Option<string>)
  {
    id.Some? && id.value != ""
  }

  datatype ApplicationEvent = ApplicationEvent(
    kind: ApplicationEventType,
    status: ProcessingStatus,
    request: Payload,
    result: Payload,
    error: Option<string>)

  /** `ApplicationEvent(type, request=..., result=...)` with the dataclass
      defaults for the fields not given. */
  function NewEvent(kind: ApplicationEventType, request: Payload := Null, result: Payload := Null): (e: ApplicationEvent)
    ensures e.kind == kind && e.request == request && e.result == result
    ensures e.status == ProcessingStatus.Init && e.error == None
  {
    ApplicationEvent(kind, ProcessingStatus.Init, request, result, None)
  }

  datatype Message = Message(id: string, role: string, content: string, status: ProcessingStatus)

  /** `Message(id, role, content)` with the default status. */
  function NewMessage(id: string, role: string, content: string): (m: Message)
    ensures m.id == id && m.role == role && m.content == content
    ensures m.status == ProcessingStatus.Init
  {
    Message(id, role, content, ProcessingStatus.Init)
  }
}
