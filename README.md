# heddy voice assistant: controller, conversation session and tool dispatch in Dafny

This project models the orchestration core of heddy, a voice assistant. It has
three parts:

- **`MainController`.** A trampoline loop turns each `ApplicationEvent` into the
  next one: greeting, synthesis, playback, wake-word listening, recording,
  transcription, snapshots, assistant turns and tool calls. It works the same
  way for every event.
- **The conversation session.** `ThreadManager` holds the backend thread id, an
  in-progress flag and one re-armable idle timer. `StreamingManager` folds one
  streamed assistant run into an answer, or into a batch of tool calls to run.
- **The webhook tool dispatcher.** `send_text_message` and
  `ZapierManager.handle_message` run the tool calls.

## Modules

- `base.dfy` (`Base`): `Option`, and a `Result` that carries a Python exception.
  It also has Python's substring `in` (`Contains`) and `str()` of integers.
- `events.dfy` (`Events`): the event kinds, processing statuses, the
  `ApplicationEvent` and `Message` records with their defaults, and the payloads
  an event can carry.
- `threads.dfy` (`Threads`): the `ThreadManager` class.
  - The backend client is represented by the log of requests sent to it. The id
    a new thread would get is a parameter.
  - Timers are numbered. `resetTimer` holds the last one started, `liveTimers`
    holds those neither cancelled nor fired, and `FireTimer` is the expiry step.
- `zapier.dfy` (`Zapier`): the webhook tool and the dispatcher.
  - The POST for the `i`-th call is represented by the status code `status(i)`
    it answers.
  - `json.loads` is an abstract parse.
  - The dispatcher's loop is specified by the function `RunCalls`.
- `streaming.dfy` (`Streaming`):
  - the function-name mapping;
  - the packaging of a tool-call batch into the `{tools, run_id, thread_id}`
    record;
  - the stream fold `Fold`, with a stream given as a sequence of event variants;
  - the `StreamingManager` class.

  The backend's answers in one interaction are a `BackendReply`.
- `controller.dfy` (`Controller`):
  - keyword routing (`WordRoute`), the result-to-next-event map (`ResultRoute`)
    and the snapshot step (`WithSnapshot`);
  - the `MainController` class, whose `Run`, `ProcessResult` and
    `HandleAiResult` methods are mutually recursive, as in the source. A nested
    `run` with `process_func_trigger` resolves each tool call.

  The collaborators are the functions of an `Env` record: synthesizer, player,
  word detector, transcriber, image upload and the backend. Each is consulted
  with the number of `process_event` calls made so far.

## How the source's behaviour is represented

- **Events are values.** A handler that updates its argument and returns it
  becomes a method that returns the updated value plus a `same` flag.
- **The error check in `run`** (main_controller.py:189) reads the initial
  `event`, not `result`. The run functions (`RunFrom`, through `Advance`)
  therefore track whether the current event is still that initial object, and
  the state of that object, which is what the check sees.
  - A run started with `START` never fires the check unless `START` itself had
    status `ERROR`.
  - A nested tool-call run fires it as soon as the handler updates its event to
    `ERROR`.
- **`ZapierManager.handle_message` reads `event.data`** (zapier_manager.py:27).
  `ApplicationEvent` has no such attribute, so the controller's call always
  records `ERROR` with the `AttributeError` text.
  - That is modelled as written: `HandleMessage` takes the tool calls as an
    `Option`, and the controller passes `None`.
  - Because of the check above, every nested run of a webhook tool call raises
    `RuntimeError`. `HandleAiResult` therefore raises for every batch that holds
    such a call, and `ResolvedCallsAreZapier` shows that every resolved call is
    one.
- **`get_snapshot` never sets the status.** A fresh `GET_SNAPSHOT` event comes
  back from `process_result` unchanged (`SnapshotNeverAdvances`), so the loop
  runs it again. This is modelled as written.
- **`handle_detected_word`** accepts any payload. `in` is Python's:
  - a substring test on a string;
  - a key test on a dict;
  - a `TypeError` on `None`.
- **Where one might expect otherwise, the model follows the code:**
  - "snapshot" routes to `GET_SNAPSHOT`, not back to `LISTEN`.
  - Only status 200 is a webhook success, not every 2xx code.
  - The event kinds have no `ERROR` member.
  - The controller's error check reads the initial event.
  - `AI_TOOL_RETURN` goes back through `handle_streaming_interaction` as a new
    user message. It does not submit the tool outputs to the run:
    `submit_tool_calls_and_stream` is never called.
  - No "session expired during turn" error exists.
- **Python `str()` of a caught exception** is the exception's message.

## Model

| member | source | states |
|---|---|---|
| Events.DeclaredKindsAreTwelveEndingInExit | heddy/heddy/application_event.py:5-17 | the declared event kinds are twelve distinct kinds ending in `EXIT`, with no `ZAPIER` |
| Events.NewEvent | heddy/heddy/application_event.py:24-30 | a new event has status `INIT` and `None` request, result and error unless given |
| Events.NewMessage | heddy/heddy/application_event.py:32-37 | a new message has status `INIT` |
| Base.ContainsIsOccurrence | heddy/heddy/main_controller.py:169-176 | the substring test used for `in` on strings holds exactly when the pattern occurs at some position |
| Zapier.MessageArgument | heddy/heddy/ai_backend/zapier_manager.py:9-13 | string arguments are JSON-decoded first, dict arguments are used as they are, a missing `message` gives "", a value without `get` raises `AttributeError` |
| Zapier.BuildPayload | heddy/heddy/ai_backend/zapier_manager.py:15 | the body has exactly the key `text`, holding the message |
| Zapier.SendTextMessage | heddy/heddy/ai_backend/zapier_manager.py:5-22 | a body is POSTed exactly when the message can be read; the call returns "Success!" exactly when the POST answers 200, and otherwise raises `RuntimeError` carrying the code |
| Zapier.PayloadIgnoresOtherArguments | heddy/heddy/ai_backend/zapier_manager.py:13-15 | two dict arguments with the same `message` entry give the same POST and outcome |
| Zapier.OnlyExactly200Succeeds | heddy/heddy/ai_backend/zapier_manager.py:19-22 | every 2xx code other than 200 raises, with a message different from the success token |
| Zapier.SuccessOutputsAreSuccessTokens | heddy/heddy/ai_backend/zapier_manager.py:29-34 | a successful batch has at most one result per call, each the success token |
| Zapier.OtherCallsAreSkipped | heddy/heddy/ai_backend/zapier_manager.py:30 | calls with another function name contribute no result |
| Zapier.WebhookCallsGiveOneResultEach | heddy/heddy/ai_backend/zapier_manager.py:29-34 | a batch of webhook calls gives one `{tool_call_id, output}` entry per call, in call order |
| Zapier.AbortIsFinal | heddy/heddy/ai_backend/zapier_manager.py:28-37 | once a prefix of the batch has raised, later calls change nothing |
| Zapier.BatchWithoutFailure | heddy/heddy/ai_backend/zapier_manager.py:28-36 | without a failing call, the batch yields the per-call success entries and POSTs every webhook body, in order |
| Zapier.FailsAtIsRaising | heddy/heddy/ai_backend/zapier_manager.py:30-32 | a call fails exactly when it is a webhook call whose `send_text_message` raises |
| Zapier.RunCalls | heddy/heddy/ai_backend/zapier_manager.py:28-39 | a batch gives at most one result and one POST per call, and every result is the success token |
| Zapier.BatchUpToFirstFailure | heddy/heddy/ai_backend/zapier_manager.py:28-37 | the batch up to the first failing call keeps the earlier results, POSTs up to that call and records its exception |
| Zapier.FirstFailureAborts | heddy/heddy/ai_backend/zapier_manager.py:28-39 | the first failing call aborts the whole batch with its exception; later calls are not attempted |
| Zapier.HandleMessage | heddy/heddy/ai_backend/zapier_manager.py:24-40 | never raises; without `event.data` it records `ERROR` with the attribute error; otherwise `SUCCESS` with the batch's results, or `ERROR` with `str(e)` of the first failure and the result untouched; kind and request never change |
| Threads.AtMostOneLive | heddy/heddy/ai_backend/assistant_manager.py:113-119 | with the slot holding the only timer that can be live, at most one is live |
| Threads.ThreadManager.constructor | heddy/heddy/ai_backend/assistant_manager.py:38-42 | no thread, no interaction in progress, no timer |
| Threads.ThreadManager.CreateThread | heddy/heddy/ai_backend/assistant_manager.py:44-56 | returns the existing id, with no backend call, exactly when an id is set and no interaction is in progress; otherwise asks the backend once, stores and returns a new id, or returns `None` and leaves the id unchanged |
| Threads.ThreadManager.AddMessageToThread | heddy/heddy/ai_backend/assistant_manager.py:58-88 | no backend call without a thread id or while an interaction is in progress; otherwise exactly one user message with one text part, with the file id as the only attachment exactly when one is given |
| Threads.ThreadManager.HandleInteraction | heddy/heddy/ai_backend/assistant_manager.py:90-96 | a thread is requested only when none is set (or while the interaction runs without a usable id); the user message is sent only when no interaction was in progress and an id is then set; ends in progress with a freshly armed timer as the only live one |
| Threads.ThreadManager.ResetThread | heddy/heddy/ai_backend/assistant_manager.py:98-101 | clears the thread id and the in-progress flag |
| Threads.ThreadManager.ResetLastInteractionTime | heddy/heddy/ai_backend/assistant_manager.py:103-119 | cancels the live timer, then arms a new one, which is the only live timer |
| Threads.ThreadManager.EndOfInteraction | heddy/heddy/ai_backend/assistant_manager.py:121-123 | re-arms the timer, as above |
| Threads.ThreadManager.FireTimer | heddy/heddy/ai_backend/assistant_manager.py:105-107 | the expiry of a live timer resets the thread and leaves no live timer |
| Streaming.FuncNameToApplicationEvent | heddy/heddy/ai_backend/assistant_manager.py:139-143 | "send_text_message" maps to `ZAPIER`; every other name raises `NotImplementedError` naming it |
| Streaming.AsWrittenNoFunctionNameMaps | heddy/heddy/ai_backend/assistant_manager.py:141 | as written, every name raises, the known one with an `AttributeError` |
| Streaming.FuncNameToApplicationEventAsWritten | heddy/heddy/ai_backend/assistant_manager.py:139-143 | as written, every name raises: an `AttributeError` exactly for "send_text_message", whose `ZAPIER` member is missing, and `NotImplementedError` for the rest |
| Streaming.ToolCallsOfIsElementwise | heddy/heddy/ai_backend/assistant_manager.py:149-157 | the `tools` list has one `{type, args, tool_call_id}` entry per call, in call order, exactly when every name maps; otherwise the first unmapped name's exception is raised |
| Streaming.ToolCallsOf | heddy/heddy/ai_backend/assistant_manager.py:149-157 | a built `tools` list has one entry per call, each with the call's id and arguments and no output yet |
| Streaming.ResolveCalls | heddy/heddy/ai_backend/assistant_manager.py:145-163 | its loop computes `Resolve`; for `submit_tool_outputs` it copies `run_id` and `thread_id` from the run |
| Streaming.ResolvedCallsAreZapier | heddy/heddy/ai_backend/assistant_manager.py:139-163 | every entry of a resolved batch has kind `ZAPIER` and the call's id and arguments, in call order |
| Streaming.Resolve | heddy/heddy/ai_backend/assistant_manager.py:145-163 | a resolved batch comes only from a `submit_tool_outputs` action, carries the run's `run_id` and `thread_id` and one entry per tool call; any other action resolves to `None` |
| Streaming.FoldStopsAtFirstTerminal | heddy/heddy/ai_backend/assistant_manager.py:194-222 | the stream's outcome is decided by its first terminal event, with the text being the in-order concatenation of the earlier delta fragments (`None` counting as "") |
| Streaming.FoldWithoutTerminal | heddy/heddy/ai_backend/assistant_manager.py:195-200 | a stream without terminal event returns `None`, keeps every fragment and closes nothing |
| Streaming.FoldOutcomeAtTerminal | heddy/heddy/ai_backend/assistant_manager.py:201-222 | completed and failed close the interaction, requires-action does not; completed answers the collected text, failed the generic error, requires-action the resolved calls |
| Streaming.Terminal | heddy/heddy/ai_backend/assistant_manager.py:201-222 | a terminal event keeps the text; completed and failed end the interaction, each with a result; a success answers the text |
| Streaming.FoldAnswers | heddy/heddy/ai_backend/assistant_manager.py:194-222 | the text only grows; a run that ended has a result; a success answer is the final text and ends the run |
| Streaming.AsWrittenNeverRequiresAction | heddy/heddy/ai_backend/assistant_manager.py:201-206 | as written, no stream ever yields an action-required result |
| Streaming.AsWrittenUnsetTextNeverSucceeds | heddy/heddy/ai_backend/assistant_manager.py:197-214 | as written, with `text` never assigned, no stream yields a success |
| Streaming.AsWrittenAnswerRaises | heddy/heddy/ai_backend/assistant_manager.py:197-214 | as written, a one-fragment answer raises `AttributeError`, where the corrected fold answers the fragment |
| Streaming.AsWrittenAgreesWithoutAction | heddy/heddy/ai_backend/assistant_manager.py:194-222 | with `text` assigned, the as-written and corrected folds agree on every stream without a requires-action event |
| Streaming.FoldAsWritten | heddy/heddy/ai_backend/assistant_manager.py:194-222 | as written, no result ever carries tool calls |
| Streaming.RequestGet | heddy/heddy/ai_backend/assistant_manager.py:236-243 | `request.get(key)` looks the key up in a dict, is `None` on the tool-call record and raises `AttributeError` on anything without `get` |
| Streaming.MessageContent | heddy/heddy/ai_backend/assistant_manager.py:233-244 | one text part, followed by exactly one high-detail image part exactly when a snapshot id is present |
| Streaming.Finish | heddy/heddy/ai_backend/assistant_manager.py:259-269 | no event for an exception or a missing result; an `ERROR` result sets status `ERROR` and the error text; any other result sets `SUCCESS` and the result; kind and request never change |
| Streaming.InteractSpec | heddy/heddy/ai_backend/assistant_manager.py:224-269 | nothing happens without an assistant id; the thread id is kept when it is truthy, or when it is not `None` and no interaction is in progress (so `Some("")` too), otherwise `threads.create` is asked once; a request without `get` raises with no message sent; otherwise one user message with `MessageContent`, then the run only if the send returned; the answer is `Finish` of the fold exactly when the send returned and the run started, and the new text is the fold's; a completed or failed run ends the interaction and re-arms the timer, otherwise flag and timers are unchanged |
| Streaming.StreamingManager.constructor | heddy/heddy/ai_backend/assistant_manager.py:129-134 | keeps the session and assistant id; the text starts empty (part of the correction of the second finding) and no requests are sent yet |
| Streaming.StreamingManager.HandleStream | heddy/heddy/ai_backend/assistant_manager.py:194-222 | its loop returns `Fold`'s outcome and text; completed and failed clear the in-progress flag and re-arm the timer, otherwise the session is untouched |
| Streaming.StreamingManager.HandleStreamingInteraction | heddy/heddy/ai_backend/assistant_manager.py:224-269 | its answer and its new text, request log and session are those of `Interact` on the old state, whose properties `InteractSpec` states |
| Streaming.StreamingManager.Converse | heddy/heddy/ai_backend/assistant_manager.py:248-269 | its answer and new state are those of `Talk`: the user message, the run only when the send returned, the event completed by `Finish` from the fold, the fold's text, and the session closed exactly when the run completed or failed |
| Controller.PyIn | heddy/heddy/main_controller.py:169-176 | Python `in`: a substring test on strings, a key test on dicts, `TypeError` on `None` and on non-iterables |
| Controller.WordRoute | heddy/heddy/main_controller.py:168-178 | "computer" while not recording gives `START_RECORDING`, tried first; then "snapshot" gives `GET_SNAPSHOT` with a capture, whatever the recording state; then "reply" gives `STOP_RECORDING` only while recording; anything else gives `LISTEN` |
| Controller.WakeWordStartsRecording | heddy/heddy/main_controller.py:169-170 | any phrase containing "computer" starts recording when not recording |
| Controller.SnapshotWhileRecording | heddy/heddy/main_controller.py:171-175 | while recording, any phrase containing "snapshot" captures and gives `GET_SNAPSHOT`, even when it also says "reply" |
| Controller.ReplyStopsOnlyRecording | heddy/heddy/main_controller.py:176-178 | "reply" without the other keywords stops a recording and otherwise stays in `LISTEN` |
| Controller.ReplyPhraseStopsRecording | heddy/heddy/main_controller.py:176-177 | "please reply now" while recording gives `STOP_RECORDING` |
| Controller.WithSnapshot | heddy/heddy/main_controller.py:144-153 | only the result changes: request, a blank line and the file id when the upload answers one, otherwise "Image upload failed."; the status is left as it was |
| Controller.ResultRouteMapping | heddy/heddy/main_controller.py:84-112 | an `INIT` event is returned unchanged; `SYNTHESIZE` → `PLAY` with request=result, `PLAY` → `LISTEN`, `TRANSCRIBE` and `GET_SNAPSHOT` → `AI_INTERACT` with request=result, all new and `INIT`; kinds without a branch give `None` |
| Controller.ResultRoute | heddy/heddy/main_controller.py:84-112 | the word branch is taken exactly for a non-`INIT` `LISTEN` event, the assistant branch exactly for a non-`INIT` `AI_INTERACT` or `AI_TOOL_RETURN`, each handing on the event's `result` |
| Controller.SnapshotNeverAdvances | heddy/heddy/main_controller.py:86-87 | a fresh `GET_SNAPSHOT` event comes back from `process_result` unchanged after `get_snapshot` |
| Controller.ProcessFuncTrigger | heddy/heddy/main_controller.py:138-142 | a new `EXIT` event carrying the handler's result; `None` raises `AttributeError` |
| Controller.StepFrame | heddy/heddy/main_controller.py:47-82 | `process_event` counts one call; only the recording kinds change the recording flag, only `USE_SNAPSHOT` logs a capture, only the assistant kinds change the streaming manager, as one `Interact` turn; it returns its argument exactly for the snapshot, the webhook and an answered assistant turn |
| Controller.ResultStep | heddy/heddy/main_controller.py:84-112 | a `None` result raises `AttributeError` on `type`, which the `print` reads first; the argument is handed back only as itself; branches other than the word and the assistant result leave the state unchanged |
| Controller.TriggerRun | heddy/heddy/main_controller.py:180-193 | with `process_func_trigger`, an `EXIT` event is returned at once; otherwise only `EXIT` is returned, carrying the result of the one `process_event` call; a webhook event raises the `RuntimeError` of the error check |
| Controller.NestedRuns | heddy/heddy/main_controller.py:124-130 | without a failure there is one `EXIT` event per tool call, and no call is a webhook call |
| Controller.NestedAbortIsFinal | heddy/heddy/main_controller.py:124-130 | once a nested run has raised, the later tool calls are not run |
| Controller.FirstWebhookRaises | heddy/heddy/main_controller.py:124-130 | a webhook call reached without an earlier failure makes the whole batch raise the nested run's `RuntimeError` |
| Controller.AiOutcomeSpec | heddy/heddy/main_controller.py:116-136 | `SUCCESS` gives `SYNTHESIZE` of the response; action-required runs the nested runs and returns `AI_TOOL_RETURN` with the same record, each tool call's output set to the `result` of its nested run's `EXIT` event, succeeding only when no nested run raised and no call is a webhook call, and otherwise raising the first nested run's exception; `calls` of `None` raises `TypeError`, and so does any other status, since `NotImplemented` is not callable; a result without `status` raises `AttributeError` |
| Controller.RunShape | heddy/heddy/main_controller.py:180-193 | a run returns only an `EXIT` event, makes at most `fuel` calls, runs out of fuel only after all of them, and a failing error check raises `RuntimeError` |
| Controller.TriggerRunIsRun | heddy/heddy/main_controller.py:180-193 | a run with `process_func_trigger` and one call of fuel is `TriggerRun`: the same state, `EXIT` exactly when `TriggerRun` succeeds, and the same exception otherwise |
| Controller.UnaliasedCheckNeverFails | heddy/heddy/main_controller.py:187-192 | once the current event is no longer the initial object, an initial event not in `ERROR` never fails the check |
| Controller.StartRunNeverFailsCheck | heddy/heddy/main_controller.py:180-192 | a run started with a `START` event not in `ERROR` never raises from the error check |
| Controller.WebhookRunRaises | heddy/heddy/main_controller.py:180-192 | a run of a webhook event raises `RuntimeError` on its first call, its only change being the counted call |
| Controller.SnapshotRunSpins | heddy/heddy/main_controller.py:180-192 | a fresh `GET_SNAPSHOT` event is processed again and again: the run uses all its fuel and returns nothing |
| Controller.MainController.constructor | heddy/heddy/main_controller.py:30-45 | not recording, no calls made, no captures |
| Controller.MainController.StartRecording | heddy/heddy/main_controller.py:162-165 | sets the recording flag |
| Controller.MainController.StopRecording | heddy/heddy/main_controller.py:156-159 | clears the recording flag |
| Controller.MainController.ProcessEvent | heddy/heddy/main_controller.py:47-82 | its answer, whether it returned its argument, and its new state are those of `Step` on the old state: `START` → greeting `SYNTHESIZE`; `START_RECORDING` sets the flag and gives `LISTEN`; `STOP_RECORDING` clears it and gives `TRANSCRIBE` of "recorded_audio.wav"; `USE_SNAPSHOT` starts a capture and gives `GET_SNAPSHOT`, all new and `INIT`; the assistant kinds are one `Interact` turn, including its new text and session; the webhook and snapshot handlers return their updated argument; collaborator results are passed on; `EXIT` gives `None` |
| Controller.MainController.HandleDetectedWord | heddy/heddy/main_controller.py:168-178 | returns a new event of `WordRoute`'s kind, logging a capture-and-wait exactly for the snapshot branch |
| Controller.MainController.ProcessResult | heddy/heddy/main_controller.py:84-112 | its answer, whether it returned its argument, and its new state are those of `ResultStep` |
| Controller.MainController.HandleAiResult | heddy/heddy/main_controller.py:116-136 | its answer and the state after the nested runs are those of `AiOutcome`, whose properties `AiOutcomeSpec` states |
| Controller.MainController.RunTools | heddy/heddy/main_controller.py:124-130 | its loop computes `NestedRuns`: the tool calls with their outputs filled in from the `EXIT` events, or the first exception, with the state after the runs |
| Controller.MainController.RunTool | heddy/heddy/main_controller.py:125-129 | one nested run of a tool call is `TriggerRun` of the tool's event |
| Controller.MainController.Run | heddy/heddy/main_controller.py:180-193 | its outcome, its number of `process_event` calls and its new state are those of `RunOf` on the old state, about which `RunShape`, `TriggerRunIsRun`, `StartRunNeverFailsCheck`, `WebhookRunRaises` and `SnapshotRunSpins` state the source's promises |

## Left out

- I/O: audio playback, the sound effects and `print` logging are left out.
  `initialize()` and the `__main__` block are left out as well.
- Collaborators: the speech-to-text, text-to-speech, word-detector and camera
  subprocesses are results of `Env` functions. So are the OpenAI client, the
  stream transport and `requests.post`.
- Module state: the `StateManager.last_interaction_time` global is not part of
  this model (its module is not part of the source shown).
- Concurrency: the timer thread and the capture thread are not modelled.
  - Timer expiry is the explicit `FireTimer` step.
  - A capture is an entry in the `captures` log.
  - The race between the idle timer's expiry and a turn in flight is not modelled.
- Vision module: heddy/vision_module.py and heddy/heddy/vision_module.py are
  not part of this model, beyond "capture" and "upload answers an optional id".
- `resolve_calls`: its `upload_image` and `snapshot` branches are left out.
  - They read a file, and they call a `vision_module` that `StreamingManager`
    never sets.
  - `upload_image_to_openai` and `handle_snapshot` are left out with them.
  - An action of any other type resolves to `None`.
- `submit_tool_calls_and_stream` is left out: nothing calls it.
- `set_event_handler`, `event_handler`, `eleven_labs_manager`, and the
  controller's unused class attributes `last_thread_id`, `transcription` and
  `processed_messages` are left out: nothing reads them.
- `word_detector.clear()` at `STOP_RECORDING` is left out: it belongs to the
  word detector.
- Message deltas: only the first content part's `text.value` is modelled.
  Content parts without `text` are not modelled.
- Controller.MainController.Run: `run` may loop forever (the conversation loop,
  and `GET_SNAPSHOT` as above). `Run` stops after `fuel` calls of
  `process_event` with `OutOfFuel`. Nested tool-call runs get one call, which
  is all they can make.
- Controller.MainController.ProcessEvent: the results of the synthesizer,
  player, word detector and transcriber are treated as new objects.
  - Whether those collaborators update their argument in place is not modelled.
  - Exceptions they raise are not modelled.
- Controller.Show: `str()` of a payload other than `None` or a string is a
  parameter.
- Streaming.StreamingManager.HandleStreamingInteraction: the details of the
  backend's exceptions are not modelled.
  - That thread creation fails is `created == None`.
  - Whether the message send and the run start return are the two flags of
    `BackendReply`.
- Streaming.StreamingManager.constructor: an `openai_client` is taken as
  given. Without one, assistant_manager.py:133 reads `os.getenv`, but the file
  never imports `os`, so the constructor raises `NameError`; that is not
  modelled. The text starts as "", which is part of the correction listed under Findings.
- Python's `repr` quoting of the name in `NotImplementedError(f"{func.name=}")`
  is written with single quotes whatever the name contains.

## Findings

| source | as written | input that shows it | evidently intended | confidence | as-written member | corrected member |
|---|---|---|---|---|---|---|
| heddy/heddy/ai_backend/assistant_manager.py:205 | the requires-action branch names `AssistantResultStatus.ACTION_REQUIRED`, but the enum (assistant_manager.py:24) declares `ACTION_REQUIED`, so it raises `AttributeError` | a stream whose first terminal event is requires-action, e.g. `[RequiresAction(run with no tool calls)]` | return the action-required result that main_controller.py:123 tests for | not executed | Streaming.AsWrittenNeverRequiresAction | Streaming.FoldOutcomeAtTerminal |
| heddy/heddy/ai_backend/assistant_manager.py:199,212 | `self.text` is never assigned before `+=` and `response=self.text` read it, so any non-empty delta or a completion raises `AttributeError` | `[MessageDelta("Done."), RunCompleted]` on a fresh manager | start with empty text and start each new user turn with empty text, as oldassistantmanager.py:131 does; `Streaming.StreamingManager.constructor` sets the empty text and `StartText` resets it | not executed | Streaming.AsWrittenAnswerRaises | Streaming.StreamingManager.HandleStreamingInteraction |
| heddy/heddy/ai_backend/assistant_manager.py:141 | `ApplicationEventType.ZAPIER` does not exist (application_event.py:5-17), so the one known function name raises `AttributeError` | a tool call named "send_text_message" | map the name to a `ZAPIER` event kind, which main_controller.py:81 dispatches | not executed | Streaming.AsWrittenNoFunctionNameMaps | Streaming.FuncNameToApplicationEvent |
