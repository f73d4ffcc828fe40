/** The controller: the keyword routing, the result-to-next-event mapping,
    the snapshot step, and `MainController` with its trampoline `run`. The
    collaborators (speech synthesis, playback, the word detector, the
    transcriber, the image upload and the backend behind the streaming
    manager) are the functions of an `Env`, consulted with the number of
    `process_event` calls made so far; camera captures are logged. */
module Controller {
  import opened Base
  import opened Events
  import opened Zapier
  import opened Streaming

  const Greeting := "Hello! How can I assist you today?"
  const RecordedAudio := "recorded_audio.wav"
  const UploadFailed := "Image upload failed."

  /** Python's `p in container` for a string `p`: a substring test on a
      string, a key test on a dict, and never true on the list of result
      dicts; the other payloads are not iterable. */
  function PyIn(p: string, container: Payload): (r: Result<bool>)
    ensures r.Err? <==> container.Null? || container.Assistant?
    ensures container.Text? ==> r == Ok(Contains(container.s, p))
    ensures container.Dict? ==> r == Ok(p in container.fields)
  {
    match container
    case Text(s) => Ok(Contains(s, p))
    case Dict(fields) => Ok(p in fields)
    case Calls(_) => Ok(p in {"tools", "run_id", "thread_id"})
    case Outputs(_) => Ok(false)
    case _ => Err(TypeError("argument of type '" + TypeName(container) + "' is not iterable"))
  }

  predicate Says(word: Payload, p: string)
  {
    PyIn(p, word) == Ok(true)
  }

  /** The event kind `handle_detected_word` answers, and whether it first
      captured an image and waited for it. */
  datatype Routed = Routed(next: ApplicationEventType, captured: bool)

  /** `handle_detected_word(word)` with the recording flag `recording`. */
  function WordRoute(word: Payload, recording: bool): (r: Result<Routed>)
    ensures r.Err? <==> word.Null? || word.Assistant?
    ensures r.Err? ==> r.error == TypeError("argument of type '" + TypeName(word) + "' is not iterable")
    ensures r.Ok? ==> (r.value.next == ApplicationEventType.StartRecording <==> Says(word, "computer") && !recording)
    ensures r.Ok? ==>
      (r.value.next == ApplicationEventType.GetSnapshot <==>
         !(Says(word, "computer") && !recording) && Says(word, "snapshot"))
    ensures r.Ok? ==>
      (r.value.next == ApplicationEventType.StopRecording <==>
         !(Says(word, "computer") && !recording) && !Says(word, "snapshot") && Says(word, "reply") && recording)
    ensures r.Ok? ==>
      (r.value.next == Listen <==>
         !(Says(word, "computer") && !recording) && !Says(word, "snapshot") && !(Says(word, "reply") && recording))
    ensures r.Ok? ==> (r.value.captured <==> r.value.next == ApplicationEventType.GetSnapshot)
  {
    match PyIn("computer", word)
    case Err(e) => Err(e)
    case Ok(computer) =>
      if computer && !recording then Ok(Routed(ApplicationEventType.StartRecording, false))
      else if PyIn("snapshot", word).value then Ok(Routed(ApplicationEventType.GetSnapshot, true))
      else if PyIn("reply", word).value && recording then Ok(Routed(ApplicationEventType.StopRecording, false))
      else Ok(Routed(Listen, false))
  }

  /** A pattern with a character the phrase lacks does not occur in it. */
  lemma AbsentCharacter(s: string, p: string, c: char)
    requires c in p && c !in s
    ensures !Contains(s, p)
  {
    ContainsIsOccurrence(s, p);
  }

  /** Any phrase with the wake word starts recording while not recording. */
  lemma WakeWordStartsRecording(a: string, b: string)
    ensures WordRoute(Text(a + "computer" + b), false) == Ok(Routed(ApplicationEventType.StartRecording, false))
  {
    ContainsBetween(a, "computer", b);
  }

  /** While recording, any phrase with "snapshot" captures and asks for the
      snapshot, whatever else it says ("reply" included). */
  lemma SnapshotWhileRecording(a: string, b: string)
    ensures WordRoute(Text(a + "snapshot" + b), true) == Ok(Routed(ApplicationEventType.GetSnapshot, true))
  {
    ContainsBetween(a, "snapshot", b);
  }

  /** "reply" stops a recording, and only a recording. */
  lemma ReplyStopsOnlyRecording(a: string, b: string)
    requires !Contains(a + "reply" + b, "snapshot") && !Contains(a + "reply" + b, "computer")
    ensures WordRoute(Text(a + "reply" + b), true) == Ok(Routed(ApplicationEventType.StopRecording, false))
    ensures WordRoute(Text(a + "reply" + b), false) == Ok(Routed(Listen, false))
  {
    ContainsBetween(a, "reply", b);
  }

  lemma ReplyPhraseStopsRecording()
    ensures WordRoute(Text("please " + "reply" + " now"), true) == Ok(Routed(ApplicationEventType.StopRecording, false))
  {
    var s := "please " + "reply" + " now";
    AbsentCharacter(s, "computer", 'c');
    AbsentCharacter(s, "snapshot", 'h');
    ReplyStopsOnlyRecording("please ", " now");
  }

  /** `f"{p}"` for the payloads whose rendering the snapshot text uses;
      other payload renderings are a parameter. */
  function Show(p: Payload, render: Payload -> string): string
  {
    match p
    case Null => "None"
    case Text(s) => s
    case _ => render(p)
  }

  /** `get_snapshot(event)` when the upload answers `fileId`: only the
      result changes. */
  function WithSnapshot(event: ApplicationEvent, fileId: Option<string>, render: Payload -> string): (r: ApplicationEvent)
    ensures r == event.(result := r.result)
    ensures IsSet(fileId) ==> r.result == Text(Show(event.request, render) + "\n\nImage File ID: " + fileId.value)
    ensures !IsSet(fileId) ==> r.result == Text(UploadFailed)
  {
    if IsSet(fileId) then event.(result := Text(Show(event.request, render) + "\n\nImage File ID: " + fileId.value))
    else event.(result := Text(UploadFailed))
  }

  /** What `process_result(event)` does next. */
  datatype Next =
    | Unchanged                       // the event itself is returned
    | Goto(event: ApplicationEvent)   // a new event
    | DetectWord(word: Payload)       // `handle_detected_word(event.result)`
    | AiResult(result: Payload)       // `handle_ai_result(event.result)`
    | Nowhere                         // no branch matches: None

  /** The branch of `process_result` an event takes: the detected word and
      the assistant result are the event's own `result`. */
  function ResultRoute(e: ApplicationEvent): (n: Next)
    ensures n.DetectWord? <==> e.status != ProcessingStatus.Init && e.kind == Listen
    ensures n.DetectWord? ==> n.word == e.result
    ensures n.AiResult? <==> e.status != ProcessingStatus.Init && (e.kind == AiInteract || e.kind == AiToolReturn)
    ensures n.AiResult? ==> n.result == e.result
  {
    if e.status == ProcessingStatus.Init then Unchanged
    else
      match e.kind
      case Synthesize => Goto(NewEvent(Play, request := e.result))
      case Play => Goto(NewEvent(Listen))
      case Listen => DetectWord(e.result)
      case Transcribe => Goto(NewEvent(AiInteract, request := e.result))
      case GetSnapshot => Goto(NewEvent(AiInteract, request := e.result))
      case AiInteract => AiResult(e.result)
      case AiToolReturn => AiResult(e.result)
      case _ => Nowhere
  }

  /** Every event `process_result` builds is new, so in the `INIT` status,
      and carries the previous result as its request where it carries one. */
  lemma ResultRouteMapping(e: ApplicationEvent)
    ensures e.status == ProcessingStatus.Init <==> ResultRoute(e).Unchanged?
    ensures ResultRoute(e).Goto? ==>
      ResultRoute(e).event.status == ProcessingStatus.Init && ResultRoute(e).event.result == Null &&
      (ResultRoute(e).event.kind == Play || ResultRoute(e).event.kind == Listen || ResultRoute(e).event.kind == AiInteract) &&
      (ResultRoute(e).event.kind != Listen ==> ResultRoute(e).event.request == e.result)
    ensures e.status != ProcessingStatus.Init && e.kind == Synthesize ==> ResultRoute(e) == Goto(NewEvent(Play, request := e.result))
    ensures e.status != ProcessingStatus.Init && e.kind == Play ==> ResultRoute(e) == Goto(NewEvent(Listen))
    ensures e.status != ProcessingStatus.Init && e.kind == Transcribe ==> ResultRoute(e) == Goto(NewEvent(AiInteract, request := e.result))
    ensures ResultRoute(e).Nowhere? <==>
      e.status != ProcessingStatus.Init &&
      e.kind in {Start, StartRecording, StopRecording, UseSnapshot, Exit, Zapier}
  {
  }

  /** `get_snapshot` never sets the status, so a fresh `GET_SNAPSHOT` event
      comes back from `process_result` unchanged and is processed again: the
      snapshot never reaches the assistant. */
  lemma SnapshotNeverAdvances(e: ApplicationEvent, fileId: Option<string>, render: Payload -> string)
    requires e.kind == ApplicationEventType.GetSnapshot && e.status == ProcessingStatus.Init
    ensures WithSnapshot(e, fileId, render).kind == ApplicationEventType.GetSnapshot
    ensures ResultRoute(WithSnapshot(e, fileId, render)).Unchanged?
  {
  }

  function NoAttribute(p: Payload, attr: string): Exception
  {
    AttributeError("'" + TypeName(p) + "' object has no attribute '" + attr + "'")
  }

  const NotCallable := TypeError("'NotImplementedType' object is not callable")
  const NotSubscriptable := TypeError("'NoneType' object is not subscriptable")

  /** `process_func_trigger(event)` applied to what `process_event`
      returned. */
  function ProcessFuncTrigger(produced: Option<ApplicationEvent>): (r: Result<ApplicationEvent>)
    ensures produced.None? ==> r == Err(NoAttribute(Null, "result"))
    ensures produced.Some? ==>
      r.Ok? && r.value.kind == Exit && r.value.result == produced.value.result &&
      r.value.status == ProcessingStatus.Init && r.value.request == Null && r.value.error == None
  {
    if produced.None? then Err(NoAttribute(Null, "result"))
    else Ok(NewEvent(Exit, result := produced.value.result))
  }

  /** The tool calls with the output of each call's nested run filled in. */
  function Filled(tools: seq<ToolCall>, exits: seq<ApplicationEvent>): (r: seq<ToolCall>)
    requires |exits| == |tools|
    ensures |r| == |tools|
    ensures forall i | 0 <= i < |r| :: r[i] == tools[i].(output := Some(exits[i].result))
  {
    seq(|tools|, i requires 0 <= i < |tools| => tools[i].(output := Some(exits[i].result)))
  }

  /** Filling one more tool call's output. */
  lemma FilledExtends(tools: seq<ToolCall>, i: nat, exits: seq<ApplicationEvent>, done: ApplicationEvent)
    requires i < |tools| && |exits| == i
    ensures Filled(tools[..i + 1], exits + [done]) ==
      Filled(tools[..i], exits) + [tools[i].(output := Some(done.result))]
  {
    assert Filled(tools[..i + 1], exits + [done])[..i] == Filled(tools[..i], exits);
  }

  function ErrorText(error: Option<string>): string
  {
    if error.Some? then error.value else "None"
  }

  datatype Capture = CaptureAsync | CaptureAndWait

  /** The collaborators, each consulted with the number of `process_event`
      calls made before the call that consults it. */
  datatype Env = Env(
    synthesize: (nat, ApplicationEvent) -> ApplicationEvent,
    play: (nat, ApplicationEvent) -> ApplicationEvent,
    listen: (nat, ApplicationEvent) -> ApplicationEvent,
    transcribe: (nat, ApplicationEvent) -> ApplicationEvent,
    uploadImage: nat -> Option<string>,
    backend: nat -> BackendReply,
    parseJson: string -> Result<Json>,
    webhookStatus: nat -> int,
    render: Payload -> string)

  /** `run`'s `process_result` argument: the controller's own, or
      `process_func_trigger`. */
  datatype ResultHandler = ProcessResultHandler | FuncTriggerHandler

  function Rank(handler: ResultHandler): nat
  {
    if handler.ProcessResultHandler? then 1 else 0
  }

  /** How `run` ends: it returns the `EXIT` event, an exception escapes, or
      the bound on `process_event` calls is reached. */
  datatype RunResult = Exited(event: ApplicationEvent) | Raised(error: Exception) | OutOfFuel

  predicate IsAi(kind: ApplicationEventType)
  {
    kind == AiInteract || kind == AiToolReturn
  }

  /** The controller's fields and the streaming manager's state, as a value. */
  datatype Ctl = Ctl(isRecording: bool, tick: nat, captures: seq<Capture>, assistant: AssistantState)

  /** What one handler call answers, whether that is its argument (updated
      in place), and the state after it. */
  datatype Stepped = Stepped(r: Result<Option<ApplicationEvent>>, same: bool, after: Ctl)

  function Interacted(t: Ctl, i: Interaction): Stepped
  {
    Stepped(i.r, i.r.Ok? && i.r.value.Some?, t.(assistant := i.after))
  }

  /** `process_event(event)` from state `s`, the streaming manager holding
      the assistant id `id`. The collaborators are consulted with the count
      `s.tick` of the calls made before this one. */
  function Step(env: Env, id: Option<string>, s: Ctl, event: ApplicationEvent): (st: Stepped)
    ensures st.same ==> st.r.Ok? && st.r.value.Some?
  {
    var now := s.tick;
    var t := s.(tick := now + 1);
    match event.kind
    case Start => Stepped(Ok(Some(NewEvent(Synthesize, request := Text(Greeting)))), false, t)
    case Synthesize => Stepped(Ok(Some(env.synthesize(now, event))), false, t)
    case Play => Stepped(Ok(Some(env.play(now, event))), false, t)
    case Listen => Stepped(Ok(Some(env.listen(now, event))), false, t)
    case StartRecording => Stepped(Ok(Some(NewEvent(Listen))), false, t.(isRecording := true))
    case UseSnapshot =>
      Stepped(Ok(Some(NewEvent(ApplicationEventType.GetSnapshot))), false, t.(captures := s.captures + [CaptureAsync]))
    case StopRecording =>
      Stepped(Ok(Some(NewEvent(Transcribe, request := Text(RecordedAudio)))), false, t.(isRecording := false))
    case Transcribe => Stepped(Ok(Some(env.transcribe(now, event))), false, t)
    case GetSnapshot => Stepped(Ok(Some(WithSnapshot(event, env.uploadImage(now), env.render))), true, t)
    case AiInteract | AiToolReturn => Interacted(t, Interact(id, s.assistant, event, env.backend(now)))
    // `ApplicationEvent` has no `data` attribute (see `HandleMessage`)
    case Zapier => Stepped(Ok(Some(event.(error := Some(NoDataAttribute), status := ProcessingStatus.Error))), true, t)
    case Exit => Stepped(Ok(None), false, t)
  }

  /** `process_event` counts the call; it changes the recording flag only
      for the two recording kinds, logs a capture only for `USE_SNAPSHOT`,
      and touches the assistant only for its two kinds, as one streaming
      interaction; it returns its argument exactly for the snapshot, the
      webhook and an answered assistant turn. */
  lemma StepFrame(env: Env, id: Option<string>, s: Ctl, event: ApplicationEvent)
    ensures var st := Step(env, id, s, event);
      && st.after.tick == s.tick + 1
      && (event.kind != ApplicationEventType.StartRecording && event.kind != ApplicationEventType.StopRecording ==>
            st.after.isRecording == s.isRecording)
      && (event.kind != UseSnapshot ==> st.after.captures == s.captures)
      && (!IsAi(event.kind) ==> st.after.assistant == s.assistant)
      && (IsAi(event.kind) ==> Interaction(st.r, st.after.assistant) == Interact(id, s.assistant, event, env.backend(s.tick)))
      && (st.same <==> event.kind == ApplicationEventType.GetSnapshot || event.kind == Zapier ||
                       (IsAi(event.kind) && st.r.Ok? && st.r.value.Some?))
  {
  }

  /** `process_func_trigger` applied to what `process_event` returned. */
  function Triggers(s: Ctl, produced: Option<ApplicationEvent>): Stepped
  {
    match ProcessFuncTrigger(produced)
    case Err(e) => Stepped(Err(e), false, s)
    case Ok(x) => Stepped(Ok(Some(x)), false, s)
  }

  /** What `run(event, process_func_trigger)` returns or raises, and the
      state after it. */
  datatype Triggered = Triggered(r: Result<ApplicationEvent>, after: Ctl)

  /** `run(event, process_func_trigger)` from state `s`: one call of
      `process_event`, the error check on the event, then `EXIT` with the
      result. */
  function TriggerRun(env: Env, id: Option<string>, s: Ctl, event: ApplicationEvent): (t: Triggered)
    ensures event.kind == Exit ==> t == Triggered(Ok(event), s)
    ensures event.kind != Exit && t.r.Ok? ==>
      var st := Step(env, id, s, event);
      st.r.Ok? && st.r.value.Some? && t.r.value == NewEvent(Exit, result := st.r.value.value.result)
    ensures t.r.Ok? ==> t.r.value.kind == Exit
    ensures event.kind == Zapier ==> t.r == Err(RuntimeError(NoDataAttribute))
  {
    if event.kind == Exit then Triggered(Ok(event), s)
    else
      var st := Step(env, id, s, event);
      if st.r.Err? then Triggered(Err(st.r.error), st.after)
      else
        var seen := if st.same then st.r.value.value else event;
        if seen.status == ProcessingStatus.Error then Triggered(Err(RuntimeError(ErrorText(seen.error))), st.after)
        else Triggered(ProcessFuncTrigger(st.r.value), st.after)
  }

  /** The event a tool call's nested run starts from. */
  function ToolEvent(tool: ToolCall): ApplicationEvent
  {
    NewEvent(tool.kind, request := tool.args)
  }

  /** The nested runs of a batch's tool calls so far: the `EXIT` events they
      returned, the exception that stopped them, and the state after them. */
  datatype Nested = Nested(exits: seq<ApplicationEvent>, failure: Option<Exception>, after: Ctl)

  /** The tool calls run in list order, each from the state the previous
      one left; the first exception stops the batch. */
  function NestedRuns(env: Env, id: Option<string>, s: Ctl, tools: seq<ToolCall>): (n: Nested)
    ensures n.failure.None? ==>
      |n.exits| == |tools| &&
      forall i | 0 <= i < |tools| :: tools[i].kind != Zapier && n.exits[i].kind == Exit
  {
    if tools == [] then Nested([], None, s)
    else
      var last := |tools| - 1;
      var before := NestedRuns(env, id, s, tools[..last]);
      if before.failure.Some? then before
      else
        var ran := TriggerRun(env, id, before.after, ToolEvent(tools[last]));
        if ran.r.Err? then Nested(before.exits, Some(ran.r.error), ran.after)
        else Nested(before.exits + [ran.r.value], None, ran.after)
  }

  /** One more tool call after the first `i`. */
  lemma NestedStep(env: Env, id: Option<string>, s: Ctl, tools: seq<ToolCall>, i: nat)
    requires i < |tools|
    ensures var before := NestedRuns(env, id, s, tools[..i]);
      var ran := TriggerRun(env, id, before.after, ToolEvent(tools[i]));
      NestedRuns(env, id, s, tools[..i + 1]) ==
        if before.failure.Some? then before
        else if ran.r.Err? then Nested(before.exits, Some(ran.r.error), ran.after)
        else Nested(before.exits + [ran.r.value], None, ran.after)
  {
    assert tools[..i + 1][..i] == tools[..i];
  }

  /** Once a nested run has raised, the later tool calls are not run. */
  lemma {:induction false} NestedAbortIsFinal(env: Env, id: Option<string>, s: Ctl, tools: seq<ToolCall>, k: nat)
    requires k <= |tools| && NestedRuns(env, id, s, tools[..k]).failure.Some?
    ensures NestedRuns(env, id, s, tools) == NestedRuns(env, id, s, tools[..k])
    decreases |tools| - k
  {
    if k < |tools| {
      NestedStep(env, id, s, tools, k);
      NestedAbortIsFinal(env, id, s, tools, k + 1);
    } else {
      assert tools[..k] == tools;
    }
  }

  /** A webhook call reached without an earlier failure raises the
      `RuntimeError` of the nested run's error check, and so does the batch. */
  lemma FirstWebhookRaises(env: Env, id: Option<string>, s: Ctl, tools: seq<ToolCall>, z: nat)
    requires z < |tools| && tools[z].kind == Zapier
    requires NestedRuns(env, id, s, tools[..z]).failure.None?
    ensures NestedRuns(env, id, s, tools).failure == Some(RuntimeError(NoDataAttribute))
  {
    NestedStep(env, id, s, tools, z);
    NestedAbortIsFinal(env, id, s, tools, z + 1);
  }

  /** What `handle_ai_result(result)` returns or raises, and the state after
      the nested runs. */
  datatype AiOut = AiOut(r: Result<ApplicationEvent>, after: Ctl)

  /** `handle_ai_result(result)` from state `s`. */
  function AiOutcome(env: Env, id: Option<string>, s: Ctl, result: Payload): AiOut
  {
    if !result.Assistant? then AiOut(Err(NoAttribute(result, "status")), s)
    else if result.answer.status == AssistantResultStatus.Success then
      AiOut(Ok(NewEvent(Synthesize, request := Text(result.answer.response))), s)
    else if result.answer.status != AssistantResultStatus.ActionRequied then AiOut(Err(NotCallable), s)
    else if result.answer.calls.None? then AiOut(Err(NotSubscriptable), s)
    else
      var action := result.answer.calls.value;
      var n := NestedRuns(env, id, s, action.tools);
      if n.failure.Some? then AiOut(Err(n.failure.value), n.after)
      else AiOut(Ok(NewEvent(AiToolReturn, request := Calls(action.(tools := Filled(action.tools, n.exits))))), n.after)
  }

  /** `SUCCESS` gives `SYNTHESIZE` of the response; action-required returns
      `AI_TOOL_RETURN` with the same record, each tool call's output filled
      in, and succeeds only when no call is a webhook call; `calls` of
      `None` raises `TypeError`, and so does any other status, since
      `NotImplemented` is not callable; a result without `status` raises
      `AttributeError`. */
  lemma AiOutcomeSpec(env: Env, id: Option<string>, s: Ctl, result: Payload)
    ensures !result.Assistant? ==> AiOutcome(env, id, s, result) == AiOut(Err(NoAttribute(result, "status")), s)
    ensures result.Assistant? && result.answer.status == AssistantResultStatus.Success ==>
      AiOutcome(env, id, s, result) == AiOut(Ok(NewEvent(Synthesize, request := Text(result.answer.response))), s)
    ensures result.Assistant? && result.answer.status == AssistantResultStatus.Error ==> AiOutcome(env, id, s, result) == AiOut(Err(NotCallable), s)
    ensures result.Assistant? && result.answer.status == AssistantResultStatus.ActionRequied ==>
      var calls := result.answer.calls;
      (calls.None? ==> AiOutcome(env, id, s, result) == AiOut(Err(NotSubscriptable), s)) &&
      (calls.Some? && AiOutcome(env, id, s, result).r.Ok? ==>
         AiOutcome(env, id, s, result).r.value.kind == AiToolReturn && AiOutcome(env, id, s, result).r.value.request.Calls? &&
         AiOutcome(env, id, s, result).r.value.request.action.runId == calls.value.runId &&
         AiOutcome(env, id, s, result).r.value.request.action.threadId == calls.value.threadId &&
         |AiOutcome(env, id, s, result).r.value.request.action.tools| == |calls.value.tools| &&
         NestedRuns(env, id, s, calls.value.tools).failure.None? &&
         forall i | 0 <= i < |calls.value.tools| ::
           calls.value.tools[i].kind != Zapier &&
           AiOutcome(env, id, s, result).r.value.request.action.tools[i] ==
             calls.value.tools[i].(output := Some(NestedRuns(env, id, s, calls.value.tools).exits[i].result))) &&
      (calls.Some? && AiOutcome(env, id, s, result).r.Err? ==>
         NestedRuns(env, id, s, calls.value.tools).failure == Some(AiOutcome(env, id, s, result).r.error))
  {
  }

  /** `process_result(event)` from state `s`, applied to what
      `process_event` returned. */
  function ResultStep(env: Env, id: Option<string>, s: Ctl, produced: Option<ApplicationEvent>): (st: Stepped)
    ensures st.same ==> produced.Some? && st.r == Ok(produced)
    // the `print` reads `event.type` first
    ensures produced.None? ==> st == Stepped(Err(NoAttribute(Null, "type")), false, s)
    ensures produced.Some? && !ResultRoute(produced.value).DetectWord? && !ResultRoute(produced.value).AiResult? ==>
      st.after == s
  {
    if produced.None? then Stepped(Err(NoAttribute(Null, "type")), false, s)
    else
      match ResultRoute(produced.value)
      case Unchanged => Stepped(Ok(produced), true, s)
      case Goto(next) => Stepped(Ok(Some(next)), false, s)
      case Nowhere => Stepped(Ok(None), false, s)
      case DetectWord(word) =>
        (match WordRoute(word, s.isRecording)
         case Err(e) => Stepped(Err(e), false, s)
         case Ok(routed) =>
           Stepped(Ok(Some(NewEvent(routed.next))), false,
                   s.(captures := s.captures + (if routed.captured then [CaptureAndWait] else []))))
      case AiResult(result) =>
        var a := AiOutcome(env, id, s, result);
        Stepped(if a.r.Err? then Err(a.r.error) else Ok(Some(a.r.value)), false, a.after)
  }

  /** How a run ends: its outcome, the `process_event` calls it made,
      whether the error check raised, and the state after it. */
  datatype Ran = Ran(r: RunResult, calls: nat, checkFailed: bool, after: Ctl)

  /** One turn of `run`'s loop: it stops with an exception (`checkFailed`
      when the error check raised it), or goes on with the next event. */
  datatype Turn =
    | Stop(error: Exception, checkFailed: bool, after: Ctl)
    | Go(after: Ctl, next: ApplicationEvent, aliased: bool, initial: ApplicationEvent)

  /** One turn of `run` on `current`: `process_event`, the error check on the
      initial event object (whose state is `initial`; `aliased` says
      `current` is that object), then the result handler. */
  function Advance(env: Env, id: Option<string>, handler: ResultHandler, s: Ctl,
                   current: ApplicationEvent, aliased: bool, initial: ApplicationEvent): (t: Turn)
    ensures t.Stop? && t.checkFailed ==> t.error.RuntimeError?
    ensures t.Go? ==> t.aliased ==> aliased
    ensures t.Go? && !aliased ==> t.initial == initial
  {
    var st := Step(env, id, s, current);
    if st.r.Err? then Stop(st.r.error, false, st.after)
    else
      var seen := if aliased && st.same then st.r.value.value else initial;
      if seen.status == ProcessingStatus.Error then Stop(RuntimeError(ErrorText(seen.error)), true, st.after)
      else
        var next := if handler.ProcessResultHandler? then ResultStep(env, id, st.after, st.r.value)
                    else Triggers(st.after, st.r.value);
        if next.r.Err? then Stop(next.r.error, false, next.after)
        else if next.r.value.None? then Stop(NoAttribute(Null, "type"), false, next.after)
        else Go(next.after, next.r.value.value, aliased && st.same && next.same, seen)
  }

  /** `run` continued after `calls` calls of `process_event`, bounded by
      `fuel`: `current` is the event in hand, `aliased` says it is still the
      initial event object, and `initial` is that object's state. */
  function RunFrom(env: Env, id: Option<string>, handler: ResultHandler, fuel: nat, calls: nat, s: Ctl,
                   current: ApplicationEvent, aliased: bool, initial: ApplicationEvent): Ran
    requires calls <= fuel
    decreases fuel - calls
  {
    if current.kind == Exit then Ran(Exited(current), calls, false, s)
    else if calls == fuel then Ran(OutOfFuel, calls, false, s)
    else
      match Advance(env, id, handler, s, current, aliased, initial)
      case Stop(e, checkFailed, after) => Ran(Raised(e), calls + 1, checkFailed, after)
      case Go(after, next, stillAliased, seen) => RunFrom(env, id, handler, fuel, calls + 1, after, next, stillAliased, seen)
  }

  /** A whole run from `event`. */
  function RunOf(env: Env, id: Option<string>, handler: ResultHandler, fuel: nat, s: Ctl, event: ApplicationEvent): Ran
  {
    RunFrom(env, id, handler, fuel, 0, s, event, true, event)
  }

  /** A run returns only an `EXIT` event, makes at most `fuel` calls, runs
      out only after all of them, and a failing error check raises a
      `RuntimeError`. */
  lemma {:induction false} RunShape(env: Env, id: Option<string>, handler: ResultHandler, fuel: nat, calls: nat, s: Ctl,
                                    current: ApplicationEvent, aliased: bool, initial: ApplicationEvent)
    requires calls <= fuel
    ensures var o := RunFrom(env, id, handler, fuel, calls, s, current, aliased, initial);
      && calls <= o.calls <= fuel
      && (o.r.Exited? ==> o.r.event.kind == Exit)
      && (o.r.OutOfFuel? ==> o.calls == fuel)
      && (o.checkFailed ==> o.r.Raised? && o.r.error.RuntimeError?)
    decreases fuel - calls
  {
    if current.kind != Exit && calls < fuel {
      var t := Advance(env, id, handler, s, current, aliased, initial);
      if t.Go? {
        assert RunFrom(env, id, handler, fuel, calls, s, current, aliased, initial)
            == RunFrom(env, id, handler, fuel, calls + 1, t.after, t.next, t.aliased, t.initial);
        RunShape(env, id, handler, fuel, calls + 1, t.after, t.next, t.aliased, t.initial);
      } else {
        assert RunFrom(env, id, handler, fuel, calls, s, current, aliased, initial)
            == Ran(Raised(t.error), calls + 1, t.checkFailed, t.after);
      }
    }
  }

  /** With `process_func_trigger`, `run` is `TriggerRun`: one call of
      `process_event` (none for `EXIT`), and never out of fuel. */
  lemma TriggerRunIsRun(env: Env, id: Option<string>, s: Ctl, event: ApplicationEvent)
    ensures var o := RunOf(env, id, FuncTriggerHandler, 1, s, event);
      var t := TriggerRun(env, id, s, event);
      && o.after == t.after
      && o.calls == (if event.kind == Exit then 0 else 1)
      && (o.r.Exited? <==> t.r.Ok?)
      && (o.r.Exited? ==> o.r.event == t.r.value)
      && (o.r.Raised? ==> o.r.error == t.r.error)
  {
    if event.kind != Exit {
      var t := Advance(env, id, FuncTriggerHandler, s, event, true, event);
      if t.Go? {
        assert t.next.kind == Exit;
        assert RunFrom(env, id, FuncTriggerHandler, 1, 0, s, event, true, event)
            == RunFrom(env, id, FuncTriggerHandler, 1, 1, t.after, t.next, t.aliased, t.initial)
            == Ran(Exited(t.next), 1, false, t.after);
      } else {
        assert RunFrom(env, id, FuncTriggerHandler, 1, 0, s, event, true, event)
            == Ran(Raised(t.error), 1, t.checkFailed, t.after);
      }
    }
  }

  /** Once the current event is no longer the initial object, the error
      check reads a state that no longer changes. */
  lemma {:induction false} UnaliasedCheckNeverFails(env: Env, id: Option<string>, handler: ResultHandler, fuel: nat, calls: nat,
                                                    s: Ctl, current: ApplicationEvent, initial: ApplicationEvent)
    requires calls <= fuel && initial.status != ProcessingStatus.Error
    ensures !RunFrom(env, id, handler, fuel, calls, s, current, false, initial).checkFailed
    decreases fuel - calls
  {
    if current.kind != Exit && calls < fuel {
      var t := Advance(env, id, handler, s, current, false, initial);
      if t.Go? {
        assert RunFrom(env, id, handler, fuel, calls, s, current, false, initial)
            == RunFrom(env, id, handler, fuel, calls + 1, t.after, t.next, t.aliased, t.initial);
        UnaliasedCheckNeverFails(env, id, handler, fuel, calls + 1, t.after, t.next, initial);
      }
    }
  }

  /** A run started with a `START` event not in `ERROR` never raises from the
      error check: `process_event` answers a new event, so the check keeps
      reading the `START` event. */
  lemma StartRunNeverFailsCheck(env: Env, id: Option<string>, handler: ResultHandler, fuel: nat, s: Ctl, event: ApplicationEvent)
    requires event.kind == Start && event.status != ProcessingStatus.Error
    ensures !RunOf(env, id, handler, fuel, s, event).checkFailed
  {
    if fuel > 0 {
      var t := Advance(env, id, handler, s, event, true, event);
      if t.Go? {
        UnaliasedCheckNeverFails(env, id, handler, fuel, 1, t.after, t.next, event);
      }
    }
  }

  /** A run of a webhook event raises at once: the handler records `ERROR`
      on the event itself, which the error check reads. */
  lemma WebhookRunRaises(env: Env, id: Option<string>, handler: ResultHandler, fuel: nat, s: Ctl, event: ApplicationEvent)
    requires event.kind == Zapier && fuel > 0
    ensures RunOf(env, id, handler, fuel, s, event) ==
      Ran(Raised(RuntimeError(NoDataAttribute)), 1, true, s.(tick := s.tick + 1))
  {
  }

  /** A fresh `GET_SNAPSHOT` event is processed again and again: each call
      uploads a snapshot into the same event, which stays `INIT`, so the run
      returns nothing before its bound. */
  lemma {:induction false} SnapshotRunSpins(env: Env, id: Option<string>, fuel: nat, calls: nat, s: Ctl,
                                            current: ApplicationEvent, initial: ApplicationEvent)
    requires calls <= fuel
    requires current.kind == ApplicationEventType.GetSnapshot && current.status == ProcessingStatus.Init
    ensures var o := RunFrom(env, id, ProcessResultHandler, fuel, calls, s, current, true, initial);
      o.r == OutOfFuel && o.calls == fuel && o.after.tick == s.tick + (fuel - calls)
    decreases fuel - calls
  {
    if calls < fuel {
      var next := WithSnapshot(current, env.uploadImage(s.tick), env.render);
      SnapshotRunSpins(env, id, fuel, calls + 1, s.(tick := s.tick + 1), next, next);
    }
  }

  class MainController {
    var isRecording: bool
    var tick: nat
    var captures: seq<Capture>
    const assistant: StreamingManager
    const env: Env

    ghost predicate Valid()
      reads assistant.threads
    {
      assistant.threads.Valid()
    }

    function State(): Ctl
      reads this, assistant, assistant.threads
    {
      Ctl(isRecording, tick, captures, assistant.State())
    }

    constructor(assistant: StreamingManager, env: Env)
      requires assistant.threads.Valid()
      ensures Valid()
      ensures this.assistant == assistant && this.env == env
      ensures !isRecording && tick == 0 && captures == []
    {
      this.assistant := assistant;
      this.env := env;
      isRecording := false;
      tick := 0;
      captures := [];
    }

    /** `start_recording()`: the flag only. */
    method StartRecording()
      modifies this`isRecording
      ensures isRecording
    {
      isRecording := true;
    }

    /** `stop_recording()`: the flag only. */
    method StopRecording()
      modifies this`isRecording
      ensures !isRecording
    {
      isRecording := false;
    }

    /** `process_event(event)`. Besides the outcome it says whether the
        handler returned its argument (updated in place). */
    method ProcessEvent(event: ApplicationEvent) returns (r: Result<Option<ApplicationEvent>>, same: bool)
      requires Valid()
      modifies this`isRecording, this`tick, this`captures, assistant, assistant.threads
      ensures Valid()
      ensures Stepped(r, same, State()) == Step(env, assistant.assistantId, old(State()), event)
    {
      var now := tick;
      tick := tick + 1;
      same := false;
      match event.kind
      case Start =>
        r := Ok(Some(NewEvent(Synthesize, request := Text(Greeting))));
      case Synthesize =>
        r := Ok(Some(env.synthesize(now, event)));
      case Play =>
        r := Ok(Some(env.play(now, event)));
      case Listen =>
        r := Ok(Some(env.listen(now, event)));
      case StartRecording =>
        StartRecording();
        r := Ok(Some(NewEvent(Listen)));
      case UseSnapshot =>
        captures := captures + [CaptureAsync];
        r := Ok(Some(NewEvent(ApplicationEventType.GetSnapshot)));
      case StopRecording =>
        StopRecording();
        r := Ok(Some(NewEvent(Transcribe, request := Text(RecordedAudio))));
      case Transcribe =>
        r := Ok(Some(env.transcribe(now, event)));
      case GetSnapshot =>
        r := Ok(Some(WithSnapshot(event, env.uploadImage(now), env.render)));
        same := true;
      case AiInteract | AiToolReturn =>
        r := assistant.HandleStreamingInteraction(event, env.backend(now));
        same := r.Ok? && r.value.Some?;
      case Zapier =>
        var handled, _ := HandleMessage(event, None, env.parseJson, env.webhookStatus);
        r := Ok(Some(handled));
        same := true;
      case Exit =>
        r := Ok(None);
    }

    /** `handle_detected_word(word)`, including its capture. */
    method HandleDetectedWord(word: Payload) returns (r: Result<ApplicationEvent>)
      modifies this`captures
      ensures WordRoute(word, isRecording).Err? ==>
        r == Err(WordRoute(word, isRecording).error) && captures == old(captures)
      ensures WordRoute(word, isRecording).Ok? ==>
        r == Ok(NewEvent(WordRoute(word, isRecording).value.next)) &&
        captures == old(captures) + (if WordRoute(word, isRecording).value.captured then [CaptureAndWait] else [])
    {
      var routed := WordRoute(word, isRecording);
      if routed.Err? {
        return Err(routed.error);
      }
      if routed.value.captured {
        captures := captures + [CaptureAndWait];
      }
      return Ok(NewEvent(routed.value.next));
    }

    /** `process_result(event)` applied to what `process_event` returned;
        `same` says it returned that very event. */
    method ProcessResult(produced: Option<ApplicationEvent>) returns (r: Result<Option<ApplicationEvent>>, same: bool)
      requires Valid()
      modifies this, assistant, assistant.threads
      decreases 1, 2
      ensures Valid()
      ensures Stepped(r, same, State()) == ResultStep(env, assistant.assistantId, old(State()), produced)
    {
      same := false;
      if produced.None? {
        return Err(NoAttribute(Null, "type")), false;
      }
      var event := produced.value;
      match ResultRoute(event)
      case Unchanged =>
        r, same := Ok(Some(event)), true;
      case Goto(next) =>
        r := Ok(Some(next));
      case Nowhere =>
        r := Ok(None);
      case DetectWord(word) =>
        var detected := HandleDetectedWord(word);
        r := if detected.Err? then Err(detected.error) else Ok(Some(detected.value));
      case AiResult(result) =>
        var handled := HandleAiResult(result);
        r := if handled.Err? then Err(handled.error) else Ok(Some(handled.value));
    }

    /** `handle_ai_result(result)`. For an action-required result every tool
        call runs, in list order, as a nested `run` with
        `process_func_trigger`, and its output is that run's result. */
    method HandleAiResult(result: Payload) returns (r: Result<ApplicationEvent>)
      requires Valid()
      modifies this, assistant, assistant.threads
      decreases 1, 1
      ensures Valid()
      ensures AiOut(r, State()) == AiOutcome(env, assistant.assistantId, old(State()), result)
    {
      if !result.Assistant? {
        return Err(NoAttribute(result, "status"));
      }
      var answer := result.answer;
      if answer.status == AssistantResultStatus.Success {
        return Ok(NewEvent(Synthesize, request := Text(answer.response)));
      }
      if answer.status != AssistantResultStatus.ActionRequied {
        return Err(NotCallable);
      }
      if answer.calls.None? {
        return Err(NotSubscriptable);
      }
      var action := answer.calls.value;
      var filled := RunTools(action.tools);
      if filled.Err? {
        return Err(filled.error);
      }
      return Ok(NewEvent(AiToolReturn, request := Calls(action.(tools := filled.value))));
    }

    /** The loop of `handle_ai_result` over the tool calls: each runs as a
        nested `run` with `process_func_trigger`, and its output is that
        run's result. */
    method RunTools(tools: seq<ToolCall>) returns (r: Result<seq<ToolCall>>)
      requires Valid()
      modifies this, assistant, assistant.threads
      decreases 1, 0
      ensures Valid()
      ensures var n := NestedRuns(env, assistant.assistantId, old(State()), tools);
        State() == n.after &&
        r == if n.failure.Some? then Err(n.failure.value) else Ok(Filled(tools, n.exits))
    {
      var filled: seq<ToolCall> := [];
      ghost var exits: seq<ApplicationEvent> := [];
      var i := 0;
      while i < |tools|
        invariant Valid()
        invariant 0 <= i <= |tools| && |filled| == i && |exits| == i
        invariant NestedRuns(env, assistant.assistantId, old(State()), tools[..i]) == Nested(exits, None, State())
        invariant filled == Filled(tools[..i], exits)
      {
        NestedStep(env, assistant.assistantId, old(State()), tools, i);
        var outcome := RunTool(tools[i]);
        if outcome.Err? {
          NestedAbortIsFinal(env, assistant.assistantId, old(State()), tools, i + 1);
          return Err(outcome.error);
        }
        var done := outcome.value;
        FilledExtends(tools, i, exits, done);
        filled := filled + [tools[i].(output := Some(done.result))];
        exits := exits + [done];
        i := i + 1;
      }
      assert tools[..|tools|] == tools;
      return Ok(filled);
    }

    /** The nested `run` of one tool call, with `process_func_trigger`. */
    method RunTool(tool: ToolCall) returns (r: Result<ApplicationEvent>)
      requires Valid()
      modifies this, assistant, assistant.threads
      decreases 0, 4
      ensures Valid()
      ensures Triggered(r, State()) == TriggerRun(env, assistant.assistantId, old(State()), ToolEvent(tool))
    {
      TriggerRunIsRun(env, assistant.assistantId, State(), ToolEvent(tool));
      var outcome, _ := Run(ToolEvent(tool), FuncTriggerHandler, 1);
      r := if outcome.Raised? then Err(outcome.error) else Ok(outcome.event);
    }

    /** `run(event, process_result)`, bounded by `fuel` calls of
        `process_event`. The error check after each call reads the initial
        event object: `initialState` is that object's state, which changes
        only while the current event is still that same object and a handler
        updates and returns it. */
    method Run(event: ApplicationEvent, handler: ResultHandler, fuel: nat) returns (r: RunResult, calls: nat)
      requires Valid()
      modifies this, assistant, assistant.threads
      decreases Rank(handler), 3
      ensures Valid()
      ensures var o := RunOf(env, assistant.assistantId, handler, fuel, old(State()), event);
        r == o.r && calls == o.calls && State() == o.after
    {
      var current := event;
      var aliased := true;
      var initialState := event;
      calls := 0;
      while current.kind != Exit
        invariant Valid()
        invariant calls <= fuel
        invariant RunOf(env, assistant.assistantId, handler, fuel, old(State()), event) ==
                  RunFrom(env, assistant.assistantId, handler, fuel, calls, State(), current, aliased, initialState)
        decreases fuel - calls
      {
        if calls == fuel {
          r := OutOfFuel;
          return;
        }
        var produced, same := ProcessEvent(current);
        calls := calls + 1;
        if produced.Err? {
          r := Raised(produced.error);
          return;
        }
        if aliased && same {
          initialState := produced.value.value;
        }
        if initialState.status == ProcessingStatus.Error {
          r := Raised(RuntimeError(ErrorText(initialState.error)));
          return;
        }
        var next: Result<Option<ApplicationEvent>>;
        var nextSame := false;
        if handler.ProcessResultHandler? {
          next, nextSame := ProcessResult(produced.value);
        } else {
          var trigger := ProcessFuncTrigger(produced.value);
          next := if trigger.Err? then Err(trigger.error) else Ok(Some(trigger.value));
        }
        if next.Err? {
          r := Raised(next.error);
          return;
        }
        if next.value.None? {
          r := Raised(NoAttribute(Null, "type"));
          return;
        }
        aliased := aliased && same && nextSame;
        current := next.value.value;
      }
      r := Exited(current);
    }
  }
}
