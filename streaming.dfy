/** The interaction engine (`StreamingManager`): the function-name mapping,
    the packaging of a backend tool-call batch, the fold over one streamed run
    and one whole streamed interaction. The stream is a sequence of event
    variants; the backend's answers to the requests of one interaction are a
    `BackendReply`. */
module Streaming {
  import opened Base
  import opened Events
  import opened Threads

  datatype RequiredAction =
    | SubmitToolOutputs(toolCalls: seq<FunctionToolCall>)
    | UnknownAction   // an action type none of the branches of resolve_calls names

  /** The run object carried by a requires-action event. */
  datatype RunData = RunData(id: string, threadId: string, requiredAction: RequiredAction)

  /** One event of a streamed run. A message delta carries the `text.value`
      of each of its content parts (an empty list when `content` is empty or
      None). */
  datatype StreamEvent =
    | MessageDelta(content: seq<Option<string>>)
    | RequiresAction(data: RunData)
    | RunCompleted
    | RunFailed
    | OtherEvent

  const GenericError := "Generic OpenAI Error"

  /** `func_name_to_application_event`, with the `ZAPIER` member the code
      refers to. */
  function FuncNameToApplicationEvent(name: string): (r: Result<ApplicationEventType>)
    ensures r.Ok? <==> name == "send_text_message"
    ensures r.Ok? ==> r.value == Zapier
    ensures r.Err? ==> r.error == NotImplementedError("func.name='" + name + "'")
  {
    if name == "send_text_message" then Ok(Zapier)
    else Err(NotImplementedError("func.name='" + name + "'"))
  }

  const NoZapierMember := "type object 'ApplicationEventType' has no attribute 'ZAPIER'"

  /** `func_name_to_application_event` as written: the enum has no `ZAPIER`
      member, so the one name it recognises raises too. */
  function FuncNameToApplicationEventAsWritten(name: string): (r: Result<ApplicationEventType>)
    ensures r.Err?
    ensures r.error.AttributeError? <==> name == "send_text_message"
  {
    if name == "send_text_message" then Err(AttributeError(NoZapierMember))
    else Err(NotImplementedError("func.name='" + name + "'"))
  }

  lemma AsWrittenNoFunctionNameMaps(name: string)
    ensures FuncNameToApplicationEventAsWritten(name).Err?
    ensures FuncNameToApplicationEvent(name).Ok? ==>
      FuncNameToApplicationEventAsWritten(name) == Err(AttributeError(NoZapierMember))
  {
  }

  /** The `tools` list built from a batch, or the first exception the
      mapping raises. */
  function ToolCallsOf(calls: seq<FunctionToolCall>, lookup: string -> Result<ApplicationEventType>): (r: Result<seq<ToolCall>>)
    ensures r.Ok? ==> |r.value| == |calls|
    ensures r.Ok? ==> forall i | 0 <= i < |calls| ::
      r.value[i].toolCallId == calls[i].id && r.value[i].args == calls[i].arguments && r.value[i].output.None?
  {
    if calls == [] then Ok([])
    else
      var last := calls[|calls| - 1];
      match ToolCallsOf(calls[..|calls| - 1], lookup)
      case Err(e) => Err(e)
      case Ok(front) =>
        match lookup(last.name)
        case Err(e) => Err(e)
        case Ok(k) => Ok(front + [ToolCall(k, last.arguments, last.id, None)])
  }

  predicate MapsAll(calls: seq<FunctionToolCall>, lookup: string -> Result<ApplicationEventType>, n: nat)
    requires n <= |calls|
  {
    forall j | 0 <= j < n :: lookup(calls[j].name).Ok?
  }

  /** One entry per call, in call order, exactly when every name maps;
      otherwise the exception of the first call whose name does not. */
  lemma {:induction false} ToolCallsOfIsElementwise(calls: seq<FunctionToolCall>, lookup: string -> Result<ApplicationEventType>)
    ensures ToolCallsOf(calls, lookup).Ok? <==> MapsAll(calls, lookup, |calls|)
    ensures ToolCallsOf(calls, lookup).Ok? ==>
      var tools := ToolCallsOf(calls, lookup).value;
      |tools| == |calls| &&
      forall i | 0 <= i < |calls| ::
        tools[i] == ToolCall(lookup(calls[i].name).value, calls[i].arguments, calls[i].id, None)
    ensures forall k | 0 <= k < |calls| && MapsAll(calls, lookup, k) && lookup(calls[k].name).Err? ::
      ToolCallsOf(calls, lookup) == Err(lookup(calls[k].name).error)
  {
    if calls != [] {
      var n := |calls| - 1;
      var front := calls[..n];
      ToolCallsOfIsElementwise(front, lookup);
      assert forall j | 0 <= j < n :: front[j] == calls[j];
      assert MapsAll(calls, lookup, |calls|) <==> MapsAll(front, lookup, n) && lookup(calls[n].name).Ok?;
      forall k | 0 <= k < |calls| && MapsAll(calls, lookup, k) && lookup(calls[k].name).Err?
        ensures ToolCallsOf(calls, lookup) == Err(lookup(calls[k].name).error)
      {
        if k < n {
          assert MapsAll(front, lookup, k);
        } else {
          assert MapsAll(front, lookup, n);
        }
      }
    }
  }

  /** `resolve_calls(event)` for a run's required action. */
  function Resolve(data: RunData, lookup: string -> Result<ApplicationEventType>): (r: Result<Option<PendingAction>>)
    ensures r.Ok? && r.value.Some? ==>
      data.requiredAction.SubmitToolOutputs? &&
      r.value.value.runId == data.id && r.value.value.threadId == data.threadId &&
      |r.value.value.tools| == |data.requiredAction.toolCalls|
    ensures !data.requiredAction.SubmitToolOutputs? ==> r == Ok(None)
  {
    match data.requiredAction
    case UnknownAction => Ok(None)
    case SubmitToolOutputs(calls) =>
      match ToolCallsOf(calls, lookup)
      case Err(e) => Err(e)
      case Ok(tools) => Ok(Some(PendingAction(tools, data.id, data.threadId)))
  }

  /** `resolve_calls(event)`, the loop building the `tools` list. */
  method ResolveCalls(data: RunData) returns (r: Result<Option<PendingAction>>)
    ensures r == Resolve(data, FuncNameToApplicationEvent)
    ensures data.requiredAction.SubmitToolOutputs? && r.Ok? ==>
      r.value.Some? && r.value.value.runId == data.id && r.value.value.threadId == data.threadId
  {
    if data.requiredAction.UnknownAction? {
      return Ok(None);
    }
    var calls := data.requiredAction.toolCalls;
    var tools: seq<ToolCall> := [];
    var i := 0;
    while i < |calls|
      invariant 0 <= i <= |calls|
      invariant ToolCallsOf(calls[..i], FuncNameToApplicationEvent) == Ok(tools)
    {
      var call := calls[i];
      assert calls[..i + 1][..i] == calls[..i];
      var kind := FuncNameToApplicationEvent(call.name);
      if kind.Err? {
        ToolCallsOfIsElementwise(calls, FuncNameToApplicationEvent);
        ToolCallsOfIsElementwise(calls[..i], FuncNameToApplicationEvent);
        assert MapsAll(calls, FuncNameToApplicationEvent, i) by {
          forall j | 0 <= j < i ensures FuncNameToApplicationEvent(calls[j].name).Ok? {
            assert calls[..i][j] == calls[j];
          }
        }
        return Err(kind.error);
      }
      tools := tools + [ToolCall(kind.value, call.arguments, call.id, None)];
      i := i + 1;
    }
    assert calls[..|calls|] == calls;
    return Ok(Some(PendingAction(tools, data.id, data.threadId)));
  }

  /** Every resolved tool call is a webhook call: with the one name the
      mapping knows, each entry of a resolved batch has kind `Zapier`, and
      the entries keep the calls' ids and arguments in order. */
  lemma ResolvedCallsAreZapier(data: RunData)
    requires Resolve(data, FuncNameToApplicationEvent).Ok? && Resolve(data, FuncNameToApplicationEvent).value.Some?
    ensures var action := Resolve(data, FuncNameToApplicationEvent).value.value;
      var calls := data.requiredAction.toolCalls;
      action.runId == data.id && action.threadId == data.threadId &&
      |action.tools| == |calls| &&
      forall i | 0 <= i < |calls| ::
        action.tools[i] == ToolCall(Zapier, calls[i].arguments, calls[i].id, None) &&
        calls[i].name == "send_text_message"
  {
    ToolCallsOfIsElementwise(data.requiredAction.toolCalls, FuncNameToApplicationEvent);
  }

  predicate IsTerminal(e: StreamEvent)
  {
    e.RequiresAction? || e.RunCompleted? || e.RunFailed?
  }

  /** The fragment a delta event appends (`None` counts as ""); every
      other event appends nothing. */
  function DeltaText(e: StreamEvent): string
  {
    if e.MessageDelta? && |e.content| > 0 then
      (if e.content[0].Some? then e.content[0].value else "")
    else ""
  }

  /** The in-order concatenation of the fragments of a stream. */
  function Collected(s: seq<StreamEvent>): string
  {
    if s == [] then "" else DeltaText(s[0]) + Collected(s[1..])
  }

  /** The text after a stream, what `handle_stream` returns (`None` for a
      stream without terminal event) or raises, and whether the run ended by
      completing or failing, which closes the session's interaction. */
  datatype Folded = Folded(text: string, outcome: Result<Option<AssitsantResult>>, ends: bool)

  /** The outcome at a terminal event: the text is kept, and the run ends
      exactly when it completed or failed, each time with a result. */
  function Terminal(e: StreamEvent, text: string): (f: Folded)
    requires IsTerminal(e)
    ensures f.text == text
    ensures f.ends <==> e.RunCompleted? || e.RunFailed?
    ensures f.ends ==> f.outcome.Ok? && f.outcome.value.Some?
    ensures f.outcome.Ok? && f.outcome.value.Some? && f.outcome.value.value.status == AssistantResultStatus.Success ==>
      f.outcome.value.value.response == text
  {
    match e
    case RequiresAction(d) =>
      Folded(text,
             match Resolve(d, FuncNameToApplicationEvent)
             case Err(x) => Err(x)
             case Ok(calls) => Ok(Some(AssitsantResult(AssistantResultStatus.ActionRequied, "", calls, ""))),
             false)
    case RunCompleted => Folded(text, Ok(Some(AssitsantResult(AssistantResultStatus.Success, text, None, ""))), true)
    case RunFailed => Folded(text, Ok(Some(AssitsantResult(AssistantResultStatus.Error, "", None, GenericError))), true)
  }

  /** `handle_stream` over a stream, starting from the manager's text. */
  function Fold(s: seq<StreamEvent>, text: string): Folded
  {
    if s == [] then Folded(text, Ok(None), false)
    else if IsTerminal(s[0]) then Terminal(s[0], text)
    else Fold(s[1..], text + DeltaText(s[0]))
  }

  /** The text only grows, a run that ended has a result, and an answer is
      the text at the end. */
  lemma {:induction false} FoldAnswers(s: seq<StreamEvent>, text: string)
    ensures text <= Fold(s, text).text
    ensures Fold(s, text).ends ==> Fold(s, text).outcome.Ok? && Fold(s, text).outcome.value.Some?
    ensures var f := Fold(s, text);
      f.outcome.Ok? && f.outcome.value.Some? && f.outcome.value.value.status == AssistantResultStatus.Success ==>
        f.ends && f.outcome.value.value.response == f.text
  {
    if s != [] && !IsTerminal(s[0]) {
      FoldAnswers(s[1..], text + DeltaText(s[0]));
    }
  }

  ghost predicate FirstTerminal(s: seq<StreamEvent>, k: int)
  {
    0 <= k < |s| && IsTerminal(s[k]) && forall j | 0 <= j < k :: !IsTerminal(s[j])
  }

  /** The fold stops at the first terminal event, with the fragments before it. */
  lemma {:induction false} FoldStopsAtFirstTerminal(s: seq<StreamEvent>, text: string, k: int)
    requires FirstTerminal(s, k)
    ensures Fold(s, text) == Terminal(s[k], text + Collected(s[..k]))
    decreases k
  {
    if k == 0 {
      assert s[..0] == [] && text + Collected(s[..0]) == text;
    } else {
      assert !IsTerminal(s[0]);
      assert Fold(s, text) == Fold(s[1..], text + DeltaText(s[0]));
      assert FirstTerminal(s[1..], k - 1) by {
        forall j | 0 <= j < k - 1 ensures !IsTerminal(s[1..][j]) {
          assert s[1..][j] == s[j + 1];
        }
      }
      FoldStopsAtFirstTerminal(s[1..], text + DeltaText(s[0]), k - 1);
      assert s[1..][k - 1] == s[k];
      assert s[..k][0] == s[0] && s[..k][1..] == s[1..][..k - 1];
      assert Collected(s[..k]) == DeltaText(s[0]) + Collected(s[1..][..k - 1]);
      assert text + DeltaText(s[0]) + Collected(s[1..][..k - 1]) == text + Collected(s[..k]);
    }
  }

  /** A stream without terminal event returns None and keeps every fragment. */
  lemma {:induction false} FoldWithoutTerminal(s: seq<StreamEvent>, text: string)
    requires forall i | 0 <= i < |s| :: !IsTerminal(s[i])
    ensures Fold(s, text) == Folded(text + Collected(s), Ok(None), false)
  {
    if s != [] {
      assert !IsTerminal(s[0]);
      forall i | 0 <= i < |s| - 1 ensures !IsTerminal(s[1..][i]) {
        assert s[1..][i] == s[i + 1];
      }
      FoldWithoutTerminal(s[1..], text + DeltaText(s[0]));
      assert text + DeltaText(s[0]) + Collected(s[1..]) == text + Collected(s);
    }
  }

  /** The session is closed exactly when the first terminal event is a
      completion or a failure; a completion answers the collected text. */
  lemma FoldOutcomeAtTerminal(s: seq<StreamEvent>, text: string, k: int)
    requires FirstTerminal(s, k)
    ensures Fold(s, text).ends <==> s[k].RunCompleted? || s[k].RunFailed?
    ensures s[k].RunCompleted? ==>
      Fold(s, text).outcome == Ok(Some(AssitsantResult(AssistantResultStatus.Success, text + Collected(s[..k]), None, "")))
    ensures s[k].RunFailed? ==>
      Fold(s, text).outcome == Ok(Some(AssitsantResult(AssistantResultStatus.Error, "", None, GenericError)))
    ensures s[k].RequiresAction? && Resolve(s[k].data, FuncNameToApplicationEvent).Ok? ==>
      Fold(s, text).outcome.Ok? && Fold(s, text).outcome.value.Some? &&
      Fold(s, text).outcome.value.value.status == AssistantResultStatus.ActionRequied &&
      Fold(s, text).outcome.value.value.calls == Resolve(s[k].data, FuncNameToApplicationEvent).value
  {
    FoldStopsAtFirstTerminal(s, text, k);
  }

  const NoTextAttribute := "'StreamingManager' object has no attribute 'text'"
  const NoActionRequired := "type object 'AssistantResultStatus' has no attribute 'ACTION_REQUIRED'"

  /** `handle_stream` as written: `text` is the manager's `text` attribute,
      `None` while it has never been assigned; the requires-action branch
      names `ACTION_REQUIRED`, which the enum does not have, and uses the
      as-written function-name mapping. */
  function FoldAsWritten(s: seq<StreamEvent>, text: Option<string>): (r: Result<Option<AssitsantResult>>)
    ensures r.Ok? && r.value.Some? ==> r.value.value.calls.None?
  {
    if s == [] then Ok(None)
    else
      match s[0]
      case MessageDelta(c) =>
        if |c| == 0 then FoldAsWritten(s[1..], text)
        else if text.None? then Err(AttributeError(NoTextAttribute))
        else FoldAsWritten(s[1..], Some(text.value + DeltaText(s[0])))
      case RequiresAction(d) =>
        (match Resolve(d, FuncNameToApplicationEventAsWritten)
         case Err(e) => Err(e)
         case Ok(_) => Err(AttributeError(NoActionRequired)))
      case RunCompleted =>
        if text.None? then Err(AttributeError(NoTextAttribute))
        else Ok(Some(AssitsantResult(AssistantResultStatus.Success, text.value, None, "")))
      case RunFailed => Ok(Some(AssitsantResult(AssistantResultStatus.Error, "", None, GenericError)))
      case OtherEvent => FoldAsWritten(s[1..], text)
  }

  /** As written, no stream ever yields an action-required result. */
  lemma {:induction false} AsWrittenNeverRequiresAction(s: seq<StreamEvent>, text: Option<string>)
    ensures FoldAsWritten(s, text).Ok? && FoldAsWritten(s, text).value.Some? ==>
      FoldAsWritten(s, text).value.value.status != AssistantResultStatus.ActionRequied
  {
    if s != [] {
      match s[0]
      case MessageDelta(c) =>
        if |c| == 0 {
          AsWrittenNeverRequiresAction(s[1..], text);
        } else if text.Some? {
          AsWrittenNeverRequiresAction(s[1..], Some(text.value + DeltaText(s[0])));
        }
      case OtherEvent => AsWrittenNeverRequiresAction(s[1..], text);
      case _ =>
    }
  }

  /** As written, while `text` has never been assigned no stream can
      succeed: the completion reads the missing attribute. */
  lemma {:induction false} AsWrittenUnsetTextNeverSucceeds(s: seq<StreamEvent>)
    ensures FoldAsWritten(s, None).Ok? && FoldAsWritten(s, None).value.Some? ==>
      FoldAsWritten(s, None).value.value.status == AssistantResultStatus.Error
  {
    if s != [] {
      match s[0]
      case MessageDelta(c) =>
        if |c| == 0 {
          AsWrittenUnsetTextNeverSucceeds(s[1..]);
        }
      case OtherEvent => AsWrittenUnsetTextNeverSucceeds(s[1..]);
      case _ =>
    }
  }

  /** The failing input: a one-fragment answer. */
  lemma AsWrittenAnswerRaises()
    ensures FoldAsWritten([MessageDelta([Some("Done.")]), RunCompleted], None) == Err(AttributeError(NoTextAttribute))
    ensures Fold([MessageDelta([Some("Done.")]), RunCompleted], "").outcome ==
      Ok(Some(AssitsantResult(AssistantResultStatus.Success, "Done.", None, "")))
  {
    var s := [MessageDelta([Some("Done.")]), RunCompleted];
    assert s[1..] == [RunCompleted];
    assert DeltaText(s[0]) == "Done." && "" + "Done." == "Done.";
    assert Fold(s, "") == Fold([RunCompleted], "Done.");
  }

  /** Once `text` holds a string, the as-written fold and the corrected one
      agree on every stream without a requires-action event. */
  lemma {:induction false} AsWrittenAgreesWithoutAction(s: seq<StreamEvent>, text: string)
    requires forall i | 0 <= i < |s| :: !s[i].RequiresAction?
    ensures FoldAsWritten(s, Some(text)) == Fold(s, text).outcome
  {
    if s != [] {
      assert forall i | 0 <= i < |s| - 1 :: s[1..][i] == s[i + 1];
      if !IsTerminal(s[0]) {
        AsWrittenAgreesWithoutAction(s[1..], text + DeltaText(s[0]));
        if s[0].MessageDelta? && |s[0].content| == 0 {
          assert text + DeltaText(s[0]) == text;
        }
        if s[0].OtherEvent? {
          assert text + DeltaText(s[0]) == text;
        }
      }
    }
  }

  /** The backend's answers during one interaction: the id a new thread
      would get (`None` if creating it raises), whether the message send and
      the run start return, and the events the run streams. */
  datatype BackendReply = BackendReply(created: Option<string>, messageSent: bool, streamStarted: bool, stream: seq<StreamEvent>)

  datatype RequestKey = TranscriptionText | SnapshotFileId

  function KeyName(key: RequestKey): string
  {
    match key
    case TranscriptionText => "transcription_text"
    case SnapshotFileId => "snapshot_file_id"
  }

  /** `event.request.get(key)`: a dict lookup with None for a missing key;
      anything but a dict has no `get`. Neither key is one of the tool-call
      record's keys. */
  function RequestGet(request: Payload, key: RequestKey): (r: Result<Payload>)
    ensures request.Dict? ==>
      r == Ok(if KeyName(key) in request.fields then request.fields[KeyName(key)] else Null)
    ensures request.Calls? ==> r == Ok(Null)
    ensures !request.Dict? && !request.Calls? ==>
      r == Err(AttributeError("'" + TypeName(request) + "' object has no attribute 'get'"))
  {
    match request
    case Dict(fields) => Ok(if KeyName(key) in fields then fields[KeyName(key)] else Null)
    case Calls(_) => Ok(Null)
    case _ => Err(AttributeError("'" + TypeName(request) + "' object has no attribute 'get'"))
  }

  /** The content of the one user message: a text part, then an image part
      only when a snapshot id is present. */
  function MessageContent(text: Payload, snapshot: Payload): (c: seq<ContentPart>)
    ensures |c| == (if Truthy(snapshot) then 2 else 1)
    ensures c[0] == TextPart(text)
    ensures |c| == 2 ==> c[1] == ImageFilePart(snapshot, "high")
  {
    var content := [TextPart(text)];
    if Truthy(snapshot) then content + [ImageFilePart(snapshot, "high")] else content
  }

  /** How the interaction's event is completed from `handle_stream`'s
      outcome; `None` when the outcome raised or had no result (both caught). */
  function Finish(event: ApplicationEvent, outcome: Result<Option<AssitsantResult>>): (r: Option<ApplicationEvent>)
    ensures r.Some? <==> outcome.Ok? && outcome.value.Some?
    ensures r.Some? ==> r.value.kind == event.kind && r.value.request == event.request
    ensures r.Some? && outcome.value.value.status == AssistantResultStatus.Error ==>
      r.value == event.(status := ProcessingStatus.Error, error := Some(outcome.value.value.error))
    ensures r.Some? && outcome.value.value.status != AssistantResultStatus.Error ==>
      r.value == event.(status := ProcessingStatus.Success, result := Assistant(outcome.value.value))
  {
    match outcome
    case Err(_) => None
    case Ok(None) => None
    case Ok(Some(answer)) =>
      if answer.status == AssistantResultStatus.Error then
        Some(event.(status := ProcessingStatus.Error, error := Some(answer.error)))
      else
        Some(event.(status := ProcessingStatus.Success, result := Assistant(answer)))
  }

  /** The text a turn starts from: a new user turn starts empty, a tool
      return continues (see README). */
  function StartText(event: ApplicationEvent, text: string): string
  {
    if event.kind == AiInteract then "" else text
  }

  /** The streaming manager's fields and its session's, as a value. */
  datatype AssistantState = AssistantState(text: string, requests: seq<Request>, session: Session)

  /** What an interaction answers, and the state after it. */
  datatype Interaction = Interaction(r: Result<Option<ApplicationEvent>>, after: AssistantState)

  /** The `try` block of `handle_streaming_interaction` from state `s`: the
      message send, the run start, the stream and the completed event. An
      exception in any of them answers None. */
  function Talk(id: string, s: AssistantState, event: ApplicationEvent, content: seq<ContentPart>,
                reply: BackendReply): Interaction
  {
    var requests := s.requests + [MessagesCreate(s.session.threadId, "user", content, [])] +
                    (if reply.messageSent then [RunsCreateAndStream(s.session.threadId, id)] else []);
    if reply.messageSent && reply.streamStarted then
      var f := Fold(reply.stream, s.text);
      Interaction(Ok(Finish(event, f.outcome)),
                  AssistantState(f.text, requests, if f.ends then Closed(s.session) else s.session))
    else Interaction(Ok(None), s.(requests := requests))
  }

  /** `handle_streaming_interaction(event)` from state `s`, for a manager
      with assistant id `id`. A new user turn restarts the text first. */
  function Interact(id: Option<string>, s: AssistantState, event: ApplicationEvent, reply: BackendReply): Interaction
  {
    if !IsSet(id) then Interaction(Ok(None), s)
    else
      var session := if IsSet(s.session.threadId) then s.session else Created(s.session, reply.created);
      var started := AssistantState(StartText(event, s.text), s.requests, session);
      var transcription := RequestGet(event.request, TranscriptionText);
      if transcription.Err? then Interaction(Err(transcription.error), started)
      else
        var content := MessageContent(transcription.value, RequestGet(event.request, SnapshotFileId).value);
        var talked := Talk(id.value, started, event, content, reply);
        Interaction(talked.r, talked.after)
  }


  /** What an interaction does: nothing without an assistant id; the thread
      is kept when usable and otherwise created; a request without `get`
      raises after that; else one user message, the run only when the send
      returned, and the event completed from the fold of the stream, whose
      text the manager keeps. */
  lemma InteractSpec(id: Option<string>, s: AssistantState, event: ApplicationEvent, reply: BackendReply)
    ensures !IsSet(id) ==> Interact(id, s, event, reply) == Interaction(Ok(None), s)
    // the thread: kept when usable, otherwise `create_thread()`, which keeps
    // an unusable id outside an interaction
    ensures var out := Interact(id, s, event, reply);
      var kept := IsSet(s.session.threadId) || (s.session.threadId.Some? && !s.session.inProgress);
      IsSet(id) ==>
        out.after.session.threadId ==
          (if kept then s.session.threadId else if reply.created.Some? then reply.created else s.session.threadId) &&
        out.after.session.requests == s.session.requests + (if kept then [] else [ThreadsCreate])
    ensures var out := Interact(id, s, event, reply);
      IsSet(id) && RequestGet(event.request, TranscriptionText).Err? ==>
        out.r == Err(RequestGet(event.request, TranscriptionText).error) &&
        out.after.requests == s.requests && out.after.text == StartText(event, s.text)
    ensures var out := Interact(id, s, event, reply);
      IsSet(id) && RequestGet(event.request, TranscriptionText).Ok? ==>
        var content := MessageContent(RequestGet(event.request, TranscriptionText).value,
                                      RequestGet(event.request, SnapshotFileId).value);
        var streamed := reply.messageSent && reply.streamStarted;
        var f := Fold(reply.stream, StartText(event, s.text));
        var thread := out.after.session.threadId;
        out.after.requests == s.requests + [MessagesCreate(thread, "user", content, [])] +
                              (if reply.messageSent then [RunsCreateAndStream(thread, id.value)] else []) &&
        out.r == Ok(if streamed then Finish(event, f.outcome) else None) &&
        out.after.text == (if streamed then f.text else StartText(event, s.text))
    // the interaction is over, with the idle timer re-armed, exactly when
    // the streamed run completes or fails; otherwise flag and timers stay
    ensures var before, after := s.session, Interact(id, s, event, reply).after.session;
      var closes := IsSet(id) && RequestGet(event.request, TranscriptionText).Ok? &&
                    reply.messageSent && reply.streamStarted &&
                    Fold(reply.stream, StartText(event, s.text)).ends;
      (closes ==>
         !after.inProgress && after.resetTimer == Some(before.timersStarted) &&
         after.liveTimers == {before.timersStarted} && after.timersStarted == before.timersStarted + 1) &&
      (!closes ==>
         after.inProgress == before.inProgress && after.resetTimer == before.resetTimer &&
         after.liveTimers == before.liveTimers && after.timersStarted == before.timersStarted)
  {
  }

  class StreamingManager {
    const threads: ThreadManager
    const assistantId: Option<string>
    var text: string
    var requests: seq<Request>

    function State(): AssistantState
      reads this, threads
    {
      AssistantState(text, requests, threads.State())
    }

    /** The text starts empty: see README, Findings. */
    constructor(threads: ThreadManager, assistantId: Option<string>)
      ensures this.threads == threads && this.assistantId == assistantId
      ensures text == "" && requests == []
    {
      this.threads := threads;
      this.assistantId := assistantId;
      text := "";
      requests := [];
    }

    /** `handle_stream(stream)`. */
    method HandleStream(stream: seq<StreamEvent>) returns (r: Result<Option<AssitsantResult>>)
      requires threads.Valid()
      modifies this`text, threads
      ensures threads.Valid()
      ensures r == Fold(stream, old(text)).outcome && text == Fold(stream, old(text)).text
      ensures threads.State() == if Fold(stream, old(text)).ends then Closed(old(threads.State())) else old(threads.State())
      ensures !Fold(stream, old(text)).ends ==> unchanged(threads)
    {
      var i := 0;
      while i < |stream|
        invariant 0 <= i <= |stream|
        invariant Fold(stream, old(text)) == Fold(stream[i..], text)
        invariant unchanged(threads)
      {
        var event := stream[i];
        assert stream[i..][0] == event && stream[i..][1..] == stream[i + 1..];
        if event.MessageDelta? && |event.content| > 0 {
          var delta := event.content[0];
          text := text + (if delta.Some? then delta.value else "");
          i := i + 1;
          continue;
        }
        if event.RequiresAction? {
          var calls := ResolveCalls(event.data);
          if calls.Err? {
            return Err(calls.error);
          }
          return Ok(Some(AssitsantResult(AssistantResultStatus.ActionRequied, "", calls.value, "")));
        }
        if event.RunCompleted? {
          threads.interactionInProgress := false;
          threads.EndOfInteraction();
          return Ok(Some(AssitsantResult(AssistantResultStatus.Success, text, None, "")));
        }
        if event.RunFailed? {
          threads.interactionInProgress := false;
          threads.EndOfInteraction();
          return Ok(Some(AssitsantResult(AssistantResultStatus.Error, "", None, GenericError)));
        }
        assert DeltaText(event) == "" && text + DeltaText(event) == text;
        i := i + 1;
      }
      return Ok(None);
    }

    /** `handle_streaming_interaction(event)`. The request is read before the
        `try`, so a request without `get` raises out of the method; every
        exception after that is caught and answers None. */
    method HandleStreamingInteraction(event: ApplicationEvent, reply: BackendReply)
      returns (r: Result<Option<ApplicationEvent>>)
      requires threads.Valid()
      modifies this`text, this`requests, threads
      ensures threads.Valid()
      ensures Interaction(r, State()) == Interact(assistantId, old(State()), event, reply)
    {
      if !IsSet(assistantId) {
        return Ok(None);
      }
      if event.kind == AiInteract {
        text := "";
      }
      if !IsSet(threads.threadId) {
        var _ := threads.CreateThread(reply.created);
      }
      var transcription := RequestGet(event.request, TranscriptionText);
      if transcription.Err? {
        return Err(transcription.error);
      }
      var content := [TextPart(transcription.value)];
      var snapshot := RequestGet(event.request, SnapshotFileId);
      if Truthy(snapshot.value) {
        content := content + [ImageFilePart(snapshot.value, "high")];
      }
      assert content == MessageContent(transcription.value, snapshot.value);
      var answered := Converse(event, content, reply);
      return Ok(answered);
    }

    /** The `try` block of `handle_streaming_interaction`. */
    method Converse(event: ApplicationEvent, content: seq<ContentPart>, reply: BackendReply)
      returns (r: Option<ApplicationEvent>)
      requires threads.Valid() && IsSet(assistantId)
      modifies this`text, this`requests, threads
      ensures threads.Valid()
      ensures Interaction(Ok(r), State()) == Talk(assistantId.value, old(State()), event, content, reply)
    {
      requests := requests + [MessagesCreate(threads.threadId, "user", content, [])];
      if !reply.messageSent {
        return None;
      }
      requests := requests + [RunsCreateAndStream(threads.threadId, assistantId.value)];
      if !reply.streamStarted {
        return None;
      }
      var result := HandleStream(reply.stream);
      return Finish(event, result);
    }
  }
}
