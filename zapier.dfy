/** The webhook tool: `send_text_message` turns one tool call's arguments
    into a webhook payload and maps the POST's status code to success or a
    RuntimeError; `ZapierManager.handle_message` runs a batch of tool calls and
    records the outcome on the event. `json.loads` is an abstract parse and the
    POST is represented by the status code it answers. */
module Zapier {
  import opened Base
  import opened Events

  /** What `json.loads` produced: a JSON object, or some other JSON value
      (identified by its Python type name). */
  datatype Json = Object(fields: map<string, Payload>) | NotObject(typeName: string)

  /** The body of the webhook POST. */
  type Body = map<string, Payload>

  /** The outcome of one `send_text_message` call: the body it POSTed, if it
      got that far, and what it returned or raised. */
  datatype Sent = Sent(posted: Option<Body>, outcome: Result<string>)

  const ToolName := "send_text_message"
  const SuccessToken := "Success!"

  function NoGet(typeName: string): Exception
  {
    AttributeError("'" + typeName + "' object has no attribute 'get'")
  }

  /** `arguments.get('message', '')` after a string argument has been decoded. */
  function MessageArgument(arguments: Payload, parse: string -> Result<Json>): (r: Result<Payload>)
    ensures arguments.Dict? ==>
      r == Ok(if "message" in arguments.fields then arguments.fields["message"] else Text(""))
    ensures arguments.Text? ==>
      r == match parse(arguments.s)
           case Err(e) => Err(e)
           case Ok(Object(f)) => Ok(if "message" in f then f["message"] else Text(""))
           case Ok(NotObject(t)) => Err(NoGet(t))
    ensures arguments.Calls? ==> r == Ok(Text(""))
    ensures arguments.Null? || arguments.Assistant? || arguments.Outputs? ==> r == Err(NoGet(TypeName(arguments)))
  {
    match arguments
    case Text(s) =>
      (match parse(s)
       case Err(e) => Err(e)
       case Ok(Object(f)) => Ok(if "message" in f then f["message"] else Text(""))
       case Ok(NotObject(t)) => Err(NoGet(t)))
    case Dict(f) => Ok(if "message" in f then f["message"] else Text(""))
    // the tool-call record is a dict with keys tools, run_id and thread_id
    case Calls(_) => Ok(Text(""))
    case _ => Err(NoGet(TypeName(arguments)))
  }

  /** The webhook body for a message value. */
  function BuildPayload(message: Payload): (body: Body)
    ensures body.Keys == {"text"} && body["text"] == message
  {
    map["text" := message]
  }

  function StatusFailure(status: int): Exception
  {
    RuntimeError("Failed with response.status_code=" + IntToString(status))
  }

  /** `send_text_message(arguments)` when the POST would answer `status`. */
  function SendTextMessage(arguments: Payload, parse: string -> Result<Json>, status: int): (r: Sent)
    ensures r.posted.Some? <==> MessageArgument(arguments, parse).Ok?
    ensures r.posted.Some? ==> r.posted.value == BuildPayload(MessageArgument(arguments, parse).value)
    ensures r.posted.None? ==> r.outcome == Err(MessageArgument(arguments, parse).error)
    ensures r.outcome.Ok? <==> r.posted.Some? && status == 200
    ensures r.outcome.Ok? ==> r.outcome.value == SuccessToken
    ensures r.posted.Some? && status != 200 ==> r.outcome == Err(StatusFailure(status))
  {
    match MessageArgument(arguments, parse)
    case Err(e) => Sent(None, Err(e))
    case Ok(m) =>
      var body := BuildPayload(m);
      if status == 200 then Sent(Some(body), Ok(SuccessToken))
      else Sent(Some(body), Err(StatusFailure(status)))
  }

  /** The body depends on the arguments only through their `message` value. */
  lemma PayloadIgnoresOtherArguments(a: map<string, Payload>, b: map<string, Payload>, parse: string -> Result<Json>, status: int)
    requires ("message" in a <==> "message" in b) && ("message" in a ==> a["message"] == b["message"])
    ensures SendTextMessage(Dict(a), parse, status) == SendTextMessage(Dict(b), parse, status)
  {
  }

  /** A 2xx code other than 200 is still a failure. */
  lemma OnlyExactly200Succeeds(arguments: Payload, parse: string -> Result<Json>, status: int)
    requires MessageArgument(arguments, parse).Ok?
    requires 200 <= status < 300 && status != 200
    ensures SendTextMessage(arguments, parse, status).outcome == Err(StatusFailure(status))
    ensures SendTextMessage(arguments, parse, status).outcome.error.message != SendTextMessage(arguments, parse, 200).outcome.value
  {
    var st := IntToString(status);
    assert "Failed with response.status_code=" + st != SuccessToken by {
      assert ("Failed with response.status_code=" + st)[0] == 'F';
    }
  }

  predicate Named(c: FunctionToolCall)
  {
    c.name == ToolName
  }

  /** Call `i` of the batch is a webhook call whose attempt raises, the POST
      for call `i` answering `status(i)`. */
  predicate FailsAt(calls: seq<FunctionToolCall>, parse: string -> Result<Json>, status: nat -> int, i: nat)
    requires i < |calls|
  {
    Named(calls[i]) && (MessageArgument(calls[i].arguments, parse).Err? || status(i) != 200)
  }

  /** The results of a batch in which no call fails: one entry per webhook
      call, in call order. */
  function SuccessOutputs(calls: seq<FunctionToolCall>): seq<ToolOutput>
  {
    if calls == [] then []
    else
      var last := calls[|calls| - 1];
      SuccessOutputs(calls[..|calls| - 1]) + (if Named(last) then [ToolOutput(last.id, SuccessToken)] else [])
  }

  /** The bodies POSTed while running the calls, in order. */
  function Posts(calls: seq<FunctionToolCall>, parse: string -> Result<Json>): seq<Body>
  {
    if calls == [] then []
    else
      var last := calls[|calls| - 1];
      var message := MessageArgument(last.arguments, parse);
      Posts(calls[..|calls| - 1], parse) + (if Named(last) && message.Ok? then [BuildPayload(message.value)] else [])
  }

  /** Every result entry is the success token. */
  lemma {:induction false} SuccessOutputsAreSuccessTokens(calls: seq<FunctionToolCall>)
    ensures |SuccessOutputs(calls)| <= |calls|
    ensures forall o | o in SuccessOutputs(calls) :: o.output == SuccessToken
  {
    if calls != [] {
      SuccessOutputsAreSuccessTokens(calls[..|calls| - 1]);
    }
  }

  /** Calls with another function name contribute nothing. */
  lemma {:induction false} OtherCallsAreSkipped(calls: seq<FunctionToolCall>)
    requires forall i | 0 <= i < |calls| :: !Named(calls[i])
    ensures SuccessOutputs(calls) == []
  {
    if calls != [] {
      OtherCallsAreSkipped(calls[..|calls| - 1]);
    }
  }

  /** When every call is a webhook call, there is one result per call, in order. */
  lemma {:induction false} WebhookCallsGiveOneResultEach(calls: seq<FunctionToolCall>)
    requires forall i | 0 <= i < |calls| :: Named(calls[i])
    ensures |SuccessOutputs(calls)| == |calls|
    ensures forall i | 0 <= i < |calls| :: SuccessOutputs(calls)[i] == ToolOutput(calls[i].id, SuccessToken)
  {
    if calls != [] {
      WebhookCallsGiveOneResultEach(calls[..|calls| - 1]);
    }
  }

  /** The state of a batch run after some calls: the results collected,
      the bodies POSTed and the exception that aborted it, if any. */
  datatype Batch = Batch(results: seq<ToolOutput>, posted: seq<Body>, failure: Option<Exception>)

  /** The batch loop of `handle_message` over `calls`, the POST for call `i`
      answering `status(i)`: once a call raises, later calls are not run. */
  function RunCalls(calls: seq<FunctionToolCall>, parse: string -> Result<Json>, status: nat -> int): (b: Batch)
    ensures |b.results| <= |calls| && |b.posted| <= |calls|
    ensures forall o | o in b.results :: o.output == SuccessToken
  {
    if calls == [] then Batch([], [], None)
    else
      var n := |calls| - 1;
      var before := RunCalls(calls[..n], parse, status);
      var last := calls[n];
      if before.failure.Some? || !Named(last) then before
      else
        var sent := SendTextMessage(last.arguments, parse, status(n));
        Batch(before.results + (if sent.outcome.Ok? then [ToolOutput(last.id, sent.outcome.value)] else []),
              before.posted + (if sent.posted.Some? then [sent.posted.value] else []),
              if sent.outcome.Err? then Some(sent.outcome.error) else None)
  }

  /** One call after an aborted prefix changes nothing. */
  lemma AbortedPrefixStays(calls: seq<FunctionToolCall>, parse: string -> Result<Json>, status: nat -> int)
    requires |calls| > 0 && RunCalls(calls[..|calls| - 1], parse, status).failure.Some?
    ensures RunCalls(calls, parse, status) == RunCalls(calls[..|calls| - 1], parse, status)
  {
  }

  /** An aborted prefix decides the whole batch. */
  lemma {:induction false} AbortIsFinal(calls: seq<FunctionToolCall>, parse: string -> Result<Json>, status: nat -> int, k: nat)
    requires k <= |calls| && RunCalls(calls[..k], parse, status).failure.Some?
    ensures RunCalls(calls, parse, status) == RunCalls(calls[..k], parse, status)
    decreases |calls| - k
  {
    if k < |calls| {
      var longer := calls[..k + 1];
      assert longer[..|longer| - 1] == calls[..k];
      AbortedPrefixStays(longer, parse, status);
      AbortIsFinal(calls, parse, status, k + 1);
    } else {
      assert calls[..k] == calls;
    }
  }

  /** Without a failing call, the batch yields one success entry per webhook
      call and POSTs every webhook body. */
  lemma {:induction false} BatchWithoutFailure(calls: seq<FunctionToolCall>, parse: string -> Result<Json>, status: nat -> int)
    requires forall i | 0 <= i < |calls| :: !FailsAt(calls, parse, status, i)
    ensures RunCalls(calls, parse, status) == Batch(SuccessOutputs(calls), Posts(calls, parse), None)
  {
    if calls != [] {
      var n := |calls| - 1;
      var front := calls[..n];
      forall i | 0 <= i < n ensures !FailsAt(front, parse, status, i) {
        assert front[i] == calls[i] && !FailsAt(calls, parse, status, i);
      }
      BatchWithoutFailure(front, parse, status);
      var last := calls[n];
      if Named(last) {
        assert !FailsAt(calls, parse, status, n);
        assert SendTextMessage(last.arguments, parse, status(n)).outcome == Ok(SuccessToken);
      } else {
        assert SuccessOutputs(calls) == SuccessOutputs(front) + [];
        assert Posts(calls, parse) == Posts(front, parse) + [];
      }
    }
  }

  /** A call fails exactly when its `send_text_message` attempt raises. */
  lemma FailsAtIsRaising(calls: seq<FunctionToolCall>, parse: string -> Result<Json>, status: nat -> int, i: nat)
    requires i < |calls|
    ensures FailsAt(calls, parse, status, i) <==>
      Named(calls[i]) && SendTextMessage(calls[i].arguments, parse, status(i)).outcome.Err?
  {
  }

  /** One more call of the batch. */
  lemma RunCallsStep(calls: seq<FunctionToolCall>, parse: string -> Result<Json>, status: nat -> int, i: nat)
    requires i < |calls|
    ensures var before := RunCalls(calls[..i], parse, status);
      var sent := SendTextMessage(calls[i].arguments, parse, status(i));
      RunCalls(calls[..i + 1], parse, status) ==
        if before.failure.Some? || !Named(calls[i]) then before
        else Batch(before.results + (if sent.outcome.Ok? then [ToolOutput(calls[i].id, sent.outcome.value)] else []),
                   before.posted + (if sent.posted.Some? then [sent.posted.value] else []),
                   if sent.outcome.Err? then Some(sent.outcome.error) else None)
  {
    assert calls[..i + 1][..i] == calls[..i];
  }

  /** One more call's POST. */
  lemma PostsStep(calls: seq<FunctionToolCall>, parse: string -> Result<Json>, i: nat)
    requires i < |calls|
    ensures var message := MessageArgument(calls[i].arguments, parse);
      Posts(calls[..i + 1], parse) ==
        Posts(calls[..i], parse) + (if Named(calls[i]) && message.Ok? then [BuildPayload(message.value)] else [])
  {
    assert calls[..i + 1][..i] == calls[..i];
  }

  /** The batch up to and including the first failing call. */
  lemma BatchUpToFirstFailure(calls: seq<FunctionToolCall>, parse: string -> Result<Json>, status: nat -> int, k: nat)
    requires k < |calls| && FailsAt(calls, parse, status, k)
    requires forall j | 0 <= j < k :: !FailsAt(calls, parse, status, j)
    ensures RunCalls(calls[..k + 1], parse, status) ==
      Batch(SuccessOutputs(calls[..k]), Posts(calls[..k + 1], parse),
            Some(SendTextMessage(calls[k].arguments, parse, status(k)).outcome.error))
  {
    var front := calls[..k];
    forall j | 0 <= j < k ensures !FailsAt(front, parse, status, j) {
      assert front[j] == calls[j] && !FailsAt(calls, parse, status, j);
    }
    BatchWithoutFailure(front, parse, status);
    var sent := SendTextMessage(calls[k].arguments, parse, status(k));
    assert Named(calls[k]) && sent.outcome.Err?;
    var posted := if sent.posted.Some? then [sent.posted.value] else [];
    RunCallsStep(calls, parse, status, k);
    assert RunCalls(calls[..k + 1], parse, status) ==
      Batch(SuccessOutputs(front) + [], Posts(front, parse) + posted, Some(sent.outcome.error));
    PostsStep(calls, parse, k);
    assert Posts(calls[..k + 1], parse) == Posts(front, parse) + posted;
    assert SuccessOutputs(front) + [] == SuccessOutputs(front);
  }

  /** The first failing call aborts the batch with its exception: the
      results of the calls before it are kept aside, its own body was POSTed
      if it got that far, and later calls are not attempted. */
  lemma {:induction false} FirstFailureAborts(calls: seq<FunctionToolCall>, parse: string -> Result<Json>, status: nat -> int, k: nat)
    requires k < |calls| && FailsAt(calls, parse, status, k)
    requires forall j | 0 <= j < k :: !FailsAt(calls, parse, status, j)
    ensures RunCalls(calls, parse, status) ==
      Batch(SuccessOutputs(calls[..k]), Posts(calls[..k + 1], parse),
            Some(SendTextMessage(calls[k].arguments, parse, status(k)).outcome.error))
  {
    if |calls| == k + 1 {
      BatchUpToFirstFailure(calls, parse, status, k);
      assert calls[..k + 1] == calls;
    } else {
      var n := |calls| - 1;
      var front := calls[..n];
      assert front[k] == calls[k] && front[..k] == calls[..k] && front[..k + 1] == calls[..k + 1];
      forall j | 0 <= j < k ensures !FailsAt(front, parse, status, j) {
        assert front[j] == calls[j] && !FailsAt(calls, parse, status, j);
      }
      FirstFailureAborts(front, parse, status, k);
      AbortedPrefixStays(calls, parse, status);
    }
  }

  const NoDataAttribute := "'ApplicationEvent' object has no attribute 'data'"

  /** The event `handle_message` returns after a batch. */
  function Recorded(event: ApplicationEvent, batch: Batch): ApplicationEvent
  {
    if batch.failure.Some? then event.(error := Some(batch.failure.value.message), status := ProcessingStatus.Error)
    else event.(result := Outputs(batch.results), status := ProcessingStatus.Success)
  }

  /** `ZapierManager.handle_message(event)`. `data` stands for `event.data`:
      `None` when the event has no such attribute (the case of every
      `ApplicationEvent`, which declares none), else the tool calls found at
      `event.data.required_action.submit_tool_outputs.tool_calls`. Besides the
      updated event it returns the webhook bodies POSTed, in order. Every
      exception is caught, so the method always returns an event. */
  method HandleMessage(event: ApplicationEvent, data: Option<seq<FunctionToolCall>>,
                       parse: string -> Result<Json>, status: nat -> int)
    returns (r: ApplicationEvent, posted: seq<Body>)
    ensures r.kind == event.kind && r.request == event.request
    ensures data.None? ==>
      r == event.(error := Some(NoDataAttribute), status := ProcessingStatus.Error) && posted == []
    ensures data.Some? ==>
      r == Recorded(event, RunCalls(data.value, parse, status)) && posted == RunCalls(data.value, parse, status).posted
  {
    if data.None? {
      r := event.(error := Some(NoDataAttribute), status := ProcessingStatus.Error);
      posted := [];
      return;
    }
    var calls := data.value;
    var results: seq<ToolOutput> := [];
    posted := [];
    var i := 0;
    while i < |calls|
      invariant 0 <= i <= |calls|
      invariant RunCalls(calls[..i], parse, status) == Batch(results, posted, None)
    {
      var call := calls[i];
      RunCallsStep(calls, parse, status, i);
      if call.name == ToolName {
        var sent := SendTextMessage(call.arguments, parse, status(i));
        if sent.posted.Some? {
          posted := posted + [sent.posted.value];
        }
        if sent.outcome.Err? {
          AbortIsFinal(calls, parse, status, i + 1);
          r := event.(error := Some(sent.outcome.error.message), status := ProcessingStatus.Error);
          return;
        }
        results := results + [ToolOutput(call.id, sent.outcome.value)];
      }
      i := i + 1;
    }
    assert calls[..|calls|] == calls;
    r := event.(result := Outputs(results), status := ProcessingStatus.Success);
  }
}
