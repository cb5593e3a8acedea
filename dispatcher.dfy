/**
 * The main process: `executeFunctionCall` turns one decoded call into one request to the
 * calendar and task client, and the `gemini-request` handler runs every call of a reply
 * in turn, catching each failure so that every call yields exactly one result.
 */
module Dispatcher {
  import opened Wrappers
  import opened Strings
  import opened DataModel
  import opened PromptComposer
  import opened GeminiService

  /** A request to the calendar and task client, with the arguments as the call gave them. */
  datatype Request =
    | CreateEvent(title: Option<string>, description: Option<string>, startTime: Option<string>, endTime: Option<string>)
    | CreateTask(title: Option<string>, notes: Option<string>, dueDate: Option<string>)
    | CompleteTask(taskId: Option<string>, taskListId: Option<string>)
    | DeleteTask(taskId: Option<string>, taskListId: Option<string>)

  /** The client, as an oracle: the outcome of the last request of the list (the value it
      resolves to, or the message of the error it throws), given every request sent before
      it in the same batch, so that the client may keep state. */
  type Client = seq<Request> -> Result<string, string>

  /** What one call yields: `{success: true, function, result, message}`, or
      `{success: false, error, function}` when it throws. */
  datatype FunctionResult =
    | Succeeded(functionName: string, result: string, message: string)
    | Failed(error: string, failedName: Option<string>)

  /** The request the `switch` of `executeFunctionCall` sends for a call, or `None` for the
      `default` case. */
  function RequestOf(c: Call): Option<Request>
    requires c.Call?
  {
    if c.name == Some("createCalendarEvent") then
      Some(CreateEvent(Param(c, "title"), Param(c, "description"), Param(c, "startTime"), Param(c, "endTime")))
    else if c.name == Some("createTask") then
      Some(CreateTask(Param(c, "title"), if Truthy(Param(c, "notes")) then Param(c, "notes") else Param(c, "description"), Param(c, "dueDate")))
    else if c.name == Some("completeTask") then
      Some(CompleteTask(Param(c, "taskId"), Param(c, "taskListId")))
    else if c.name == Some("deleteTask") then
      Some(DeleteTask(Param(c, "taskId"), Param(c, "taskListId")))
    else None
  }

  /** The `case` label that sends a request. */
  function FunctionName(r: Request): string
  {
    match r
    case CreateEvent(_, _, _, _) => "createCalendarEvent"
    case CreateTask(_, _, _) => "createTask"
    case CompleteTask(_, _) => "completeTask"
    case DeleteTask(_, _) => "deleteTask"
  }

  function SuccessMessage(r: Request): string
  {
    match r
    case CreateEvent(title, _, _, _) => "Event \"" + Show(title) + "\" created successfully"
    case CreateTask(title, _, _) => "Task \"" + Show(title) + "\" created successfully"
    case CompleteTask(_, _) => "Task completed successfully"
    case DeleteTask(_, _) => "Task deleted successfully"
  }

  /** What each case puts before the message of the client's error when it rethrows it. */
  function ErrorPrefix(r: Request): string
  {
    match r
    case CreateEvent(_, _, _, _) => "Failed to create calendar event: "
    case CreateTask(_, _, _) => "Failed to create task: "
    case CompleteTask(_, _) => "Failed to complete task: "
    case DeleteTask(_, _) => "Failed to delete task: "
  }

  /** `executeFunctionCall(functionCall)`, given the requests sent before it: the success
      record, or the message of the error it throws. */
  function ExecuteFunctionCall(c: Call, client: Client, sent: seq<Request>): (r: Result<FunctionResult, string>)
    requires c.Call?
    ensures r.Success? ==> r.value.Succeeded? && Some(r.value.functionName) == c.name
  {
    match RequestOf(c)
    case None => Failure("Unknown function: " + Show(c.name))
    case Some(req) =>
      match client(sent + [req])
      case Success(v) => Success(Succeeded(FunctionName(req), v, SuccessMessage(req)))
      case Failure(e) => Failure(ErrorPrefix(req) + e)
  }

  /** The `catch` around each call: a thrown error becomes a failure record naming the call. */
  function Caught(c: Call, r: Result<FunctionResult, string>): FunctionResult
    requires c.Call?
  {
    match r
    case Success(v) => v
    case Failure(e) => Failed(e, c.name)
  }

  /** Every call of the batch is an object, so that its properties can be read. */
  predicate AllObjects(calls: seq<Call>) {
    forall k :: 0 <= k < |calls| ==> calls[k].Call?
  }

  /** The requests a batch of calls sends, in order: one per call with a known name. */
  function Sent(calls: seq<Call>): seq<Request>
    requires AllObjects(calls)
  {
    if calls == [] then []
    else
      assert AllObjects(calls[..|calls| - 1]);
      var last := RequestOf(calls[|calls| - 1]);
      Sent(calls[..|calls| - 1]) + (if last.Some? then [last.value] else [])
  }

  /** The results of a batch, one per call, each given the requests the calls before it
      sent. */
  function Dispatched(calls: seq<Call>, client: Client): (rs: seq<FunctionResult>)
    requires AllObjects(calls)
    ensures |rs| == |calls|
  {
    if calls == [] then []
    else
      var n := |calls| - 1;
      assert AllObjects(calls[..n]);
      Dispatched(calls[..n], client) + [Caught(calls[n], ExecuteFunctionCall(calls[n], client, Sent(calls[..n])))]
  }

  /** Result `k` is call `k`'s outcome given only the requests the calls before it sent: so
      a failing call does not stop the ones after it, and a later call never changes an
      earlier result. */
  lemma {:induction false} DispatchedAt(calls: seq<Call>, client: Client, k: nat)
    requires AllObjects(calls) && k < |calls|
    ensures Dispatched(calls, client)[k] == Caught(calls[k], ExecuteFunctionCall(calls[k], client, Sent(calls[..k])))
    decreases |calls|
  {
    var n := |calls| - 1;
    var init := calls[..n];
    assert AllObjects(init);
    assert Dispatched(calls, client)
        == Dispatched(init, client) + [Caught(calls[n], ExecuteFunctionCall(calls[n], client, Sent(init)))];
    if k < n {
      DispatchedAt(init, client, k);
      assert init[..k] == calls[..k] && init[k] == calls[k];
    }
  }

  /** The message of the `TypeError` that reading a property of `null` throws. */
  const NullCallError := "Cannot read properties of null (reading 'function')"

  /** What the handler's loop produces: one result per call when every call is an object;
      otherwise the error of reading `functionCall.function` of the first `null` call, which
      the `catch` reads again and so throws out of the loop, losing every result. */
  function Batch(calls: seq<Call>, client: Client): Result<seq<FunctionResult>, string>
  {
    if AllObjects(calls) then Success(Dispatched(calls, client)) else Failure(NullCallError)
  }

  /** The `for (const functionCall of response.functionCalls)` loop of the handler. */
  method RunFunctionCalls(calls: seq<Call>, client: Client) returns (outcome: Result<seq<FunctionResult>, string>)
    ensures outcome == Batch(calls, client)
  {
    var functionResults: seq<FunctionResult> := [];
    var sent: seq<Request> := [];
    var i := 0;
    while i < |calls|
      invariant 0 <= i <= |calls|
      invariant AllObjects(calls[..i])
      invariant functionResults == Dispatched(calls[..i], client)
      invariant sent == Sent(calls[..i])
    {
      var functionCall := calls[i];
      if functionCall.NullCall? {
        // the log line reads `functionCall.function`, and so does the `catch`
        return Failure(NullCallError);
      }
      assert AllObjects(calls[..i + 1]);
      var result := ExecuteFunctionCall(functionCall, client, sent);
      assert calls[..i + 1][..i] == calls[..i];
      match result {
        case Success(v) =>
          functionResults := functionResults + [v];
        case Failure(e) =>
          functionResults := functionResults + [Failed(e, functionCall.name)];
      }
      var req := RequestOf(functionCall);
      if req.Some? {
        sent := sent + [req.value];
      }
      i := i + 1;
    }
    assert calls[..i] == calls;
    outcome := Success(functionResults);
  }

  /** A call with an unknown name, or with no name, fails with `Unknown function: <name>`
      and no other prefix, without reaching the client. */
  lemma UnknownFunction(calls: seq<Call>, client: Client, k: nat)
    requires AllObjects(calls) && k < |calls| && RequestOf(calls[k]).None?
    ensures Dispatched(calls, client)[k] == Failed("Unknown function: " + Show(calls[k].name), calls[k].name)
    ensures Sent(calls[..k + 1]) == Sent(calls[..k])
  {
    DispatchedAt(calls, client, k);
    assert calls[..k + 1][..k] == calls[..k];
  }

  /** Every success record names the case that produced it, which is the call's own name,
      and carries that case's fixed message; every failure record names its call. */
  lemma ResultsNameTheirCall(calls: seq<Call>, client: Client, k: nat)
    requires AllObjects(calls) && k < |calls|
    ensures Dispatched(calls, client)[k].Succeeded? ==>
      && RequestOf(calls[k]).Some?
      && Some(Dispatched(calls, client)[k].functionName) == calls[k].name
      && Dispatched(calls, client)[k].message == SuccessMessage(RequestOf(calls[k]).value)
    ensures Dispatched(calls, client)[k].Failed? ==> Dispatched(calls, client)[k].failedName == calls[k].name
  {
    DispatchedAt(calls, client, k);
  }

  /** A call with a known name sends its request after those of the earlier calls; the
      client's value becomes the success record, and the client's error the failure record
      with that case's prefix. */
  lemma KnownFunction(calls: seq<Call>, client: Client, k: nat)
    requires AllObjects(calls) && k < |calls| && RequestOf(calls[k]).Some?
    ensures Sent(calls[..k + 1]) == Sent(calls[..k]) + [RequestOf(calls[k]).value]
    ensures var req := RequestOf(calls[k]).value;
      var outcome := client(Sent(calls[..k]) + [req]);
      && (outcome.Success? ==> Dispatched(calls, client)[k] == Succeeded(FunctionName(req), outcome.value, SuccessMessage(req)))
      && (outcome.Failure? ==> Dispatched(calls, client)[k] == Failed(ErrorPrefix(req) + outcome.error, calls[k].name))
  {
    DispatchedAt(calls, client, k);
    assert calls[..k + 1][..k] == calls[..k];
  }

  /** The request a known call sends carries the call's parameters unchanged, except that a
      task's notes fall back to its description when they are empty or missing; and the
      request's case is the one the call names. */
  lemma RequestForwardsParameters(c: Call)
    requires c.Call? && RequestOf(c).Some?
    ensures Some(FunctionName(RequestOf(c).value)) == c.name
    ensures RequestOf(c).value.CreateEvent? ==>
      RequestOf(c).value == CreateEvent(Param(c, "title"), Param(c, "description"), Param(c, "startTime"), Param(c, "endTime"))
    ensures RequestOf(c).value.CreateTask? ==>
      && RequestOf(c).value.title == Param(c, "title")
      && RequestOf(c).value.dueDate == Param(c, "dueDate")
      && (Truthy(Param(c, "notes")) ==> RequestOf(c).value.notes == Param(c, "notes"))
      && (!Truthy(Param(c, "notes")) ==> RequestOf(c).value.notes == Param(c, "description"))
    ensures (RequestOf(c).value.CompleteTask? || RequestOf(c).value.DeleteTask?) ==>
      RequestOf(c).value.taskId == Param(c, "taskId") && RequestOf(c).value.taskListId == Param(c, "taskListId")
  {
  }

  /** The reply of the `gemini-request` handler. */
  datatype HandlerReply =
    | Answered(response: string)
    | AnsweredWithCalls(response: string, functionCalls: seq<Call>, functionResults: seq<FunctionResult>)
    | Error(error: string)

  /** The handler's reply for what `generateResponse` produced. */
  function Handled(g: Result<Reply, string>, client: Client): HandlerReply
  {
    match g
    case Failure(e) => Error(e)
    case Success(Html(html)) => Answered(html)
    case Success(WithCalls(response, calls)) =>
      match Batch(calls, client)
      case Success(functionResults) => AnsweredWithCalls(response, calls, functionResults)
      case Failure(e) => Error(e)
  }

  /** `ipcMain.handle('gemini-request', …)`. */
  method HandleRequest(message: string, history: seq<Message>, ctx: MemoryContext, fmt: Formatters,
                       svc: Services, client: Client) returns (reply: HandlerReply)
    ensures reply == Handled(Answer(SystemPrompt(message, history, ctx, fmt), svc), client)
  {
    var response := GenerateResponse(message, history, ctx, fmt, svc);
    reply := ReplyTo(response, client);
  }

  /** The handler after `generateResponse` has returned or thrown. */
  method ReplyTo(response: Result<Reply, string>, client: Client) returns (reply: HandlerReply)
    ensures reply == Handled(response, client)
  {
    match response {
      case Failure(e) =>
        reply := Error(e);
      case Success(Html(html)) =>
        reply := Answered(html);
      case Success(WithCalls(visible, calls)) =>
        var outcome := RunFunctionCalls(calls, client);
        match outcome {
          case Success(functionResults) =>
            reply := AnsweredWithCalls(visible, calls, functionResults);
          case Failure(e) =>
            reply := Error(e);
        }
    }
  }

  /** The handler answers with calls exactly when `generateResponse` returned calls that are
      all objects, and then with one result per call; an error `generateResponse` throws,
      or one a `null` call throws, becomes the error reply. */
  lemma HandlerShape(g: Result<Reply, string>, client: Client)
    ensures Handled(g, client).Error? <==>
      g.Failure? || (g.value.WithCalls? && !AllObjects(g.value.functionCalls))
    ensures Handled(g, client).AnsweredWithCalls? <==>
      g.Success? && g.value.WithCalls? && AllObjects(g.value.functionCalls)
    ensures g.Failure? ==> Handled(g, client) == Error(g.error)
    ensures Handled(g, client).AnsweredWithCalls? ==>
      && Handled(g, client).functionCalls == g.value.functionCalls
      && |Handled(g, client).functionResults| == |Handled(g, client).functionCalls|
    ensures Handled(g, client).Answered? ==> Handled(g, client).response == g.value.html
  {
  }

  /** A `null` call anywhere among the calls makes the whole reply the error of reading its
      `function` property, so the results of the other calls never reach the renderer. */
  lemma NullCallFailsReply(response: string, calls: seq<Call>, client: Client, k: nat)
    requires k < |calls| && calls[k].NullCall?
    ensures Handled(Success(WithCalls(response, calls)), client) == Error(NullCallError)
  {
  }
}
