/**
 * Routes tool calls from Gemini to the OpenClaw bridge, keeps the in-flight
 * tasks keyed by call id, and builds the `toolResponse` envelope.
 *
 * A Swift `Task` is a record in `tasks`, identified by its index; the
 * dictionary `inFlightTasks` maps a call id to one of those indices. A task's
 * body runs later, when its owner calls `RunTask`.
 */
module ToolCallRouter {
  import opened Wrappers
  import opened Json
  import opened ToolCallModels
  import opened OpenClawBridge
  import GeminiConfig

  /** What a tool call asks the bridge to do. */
  datatype BridgeRequest =
    | Delegate(task: string, deliver: bool, channel: Option<string>, timeoutSeconds: int)
    | Invoke(tool: string, action: string, args: Object)

  /** The task text of a `send_message` call: the fixed words around the three arguments. */
  function SendMessageTask(channel: string, to: string, message: string): (t: string)
    ensures |t| == |channel| + |to| + |message| + 28
  {
    "Send a " + channel + " message to " + to + " saying: " + message
  }

  /**
   * The switch on the tool name. `describeArgs` stands for Swift's
   * `String(describing:)` of the argument dictionary.
   */
  function Route(name: string, args: Object, describeArgs: Object -> string): (req: BridgeRequest)
    ensures name == "delegate_task" ==>
      req == Delegate(StringField(args, "task").GetOr(""), BoolField(args, "deliver").GetOr(false),
                      StringField(args, "channel"), DefaultTimeoutSeconds)
    ensures name == "send_message" ==>
      req == Delegate(SendMessageTask(StringField(args, "channel").GetOr("last"),
                                      StringField(args, "to").GetOr(""),
                                      StringField(args, "message").GetOr("")),
                      false, None, 30)
    ensures name == "web_search" ==>
      req == Invoke("web_search", "json", map["query" := JStr(StringField(args, "query").GetOr(""))])
    ensures name !in {"delegate_task", "send_message", "web_search"} ==>
      req == Delegate("Execute tool '" + name + "' with args: " + describeArgs(args),
                      false, None, DefaultTimeoutSeconds)
  {
    match name
    case "delegate_task" =>
      Delegate(StringField(args, "task").GetOr(""), BoolField(args, "deliver").GetOr(false),
               StringField(args, "channel"), DefaultTimeoutSeconds)
    case "send_message" =>
      Delegate(SendMessageTask(StringField(args, "channel").GetOr("last"),
                               StringField(args, "to").GetOr(""),
                               StringField(args, "message").GetOr("")),
               false, None, 30)
    case "web_search" =>
      Invoke("web_search", "json", map["query" := JStr(StringField(args, "query").GetOr(""))])
    case _ =>
      Delegate("Execute tool '" + name + "' with args: " + describeArgs(args),
               false, None, DefaultTimeoutSeconds)
  }

  /** Properties of the routing that hold across all tool names. */
  lemma RouteInvariants(name: string, args: Object, describeArgs: Object -> string)
    ensures Route(name, args, describeArgs).Invoke? <==> name == "web_search"
    ensures var req := Route(name, args, describeArgs);
      req.Delegate? && req.deliver ==> name == "delegate_task" && args["deliver"] == JBool(true)
    ensures var req := Route(name, args, describeArgs);
      req.Delegate? && req.channel.Some? ==> name == "delegate_task" && args["channel"] == JStr(req.channel.value)
    ensures var req := Route(name, args, describeArgs);
      req.Delegate? ==> (req.timeoutSeconds == 30 <==> name == "send_message")
  {
  }

  /** The `send_message` text starts with the fixed phrase and ends with the message. */
  lemma SendMessageTaskShape(channel: string, to: string, message: string)
    ensures "Send a " + channel <= SendMessageTask(channel, to, message)
    ensures var t := SendMessageTask(channel, to, message);
      |t| >= |message| && t[|t| - |message|..] == message
  {
    var t := SendMessageTask(channel, to, message);
    var p := "Send a " + channel + " message to " + to + " saying: ";
    assert t == p + message;
    assert (p + message)[|p|..] == message;
    assert t == ("Send a " + channel) + (" message to " + to + " saying: " + message);
  }

  /** `buildToolResponse(callId:name:result:)` */
  function BuildToolResponse(callId: string, name: string, result: ToolResult): (r: Json)
    ensures r.JObj? && r.fields.Keys == {"toolResponse"}
    ensures var inner := r.fields["toolResponse"];
      && inner.JObj? && inner.fields.Keys == {"functionResponses"}
      && inner.fields["functionResponses"].JArr?
      && |inner.fields["functionResponses"].items| == 1
      && inner.fields["functionResponses"].items[0].JObj?
      && inner.fields["functionResponses"].items[0].fields.Keys == {"id", "name", "response"}
  {
    JObj(map["toolResponse" := JObj(map["functionResponses" := JArr([
      JObj(map["id" := JStr(callId), "name" := JStr(name), "response" := JObj(ResponseValue(result))])
    ])])])
  }

  /** Reads back the single function response of a `toolResponse` message. */
  function DecodeToolResponse(j: Json): Option<(string, string, ToolResult)>
  {
    if !j.JObj? then None
    else match ObjectField(j.fields, "toolResponse")
      case None => None
      case Some(tr) =>
        if "functionResponses" in tr && tr["functionResponses"].JArr?
           && |tr["functionResponses"].items| == 1 && tr["functionResponses"].items[0].JObj?
        then
          var entry := tr["functionResponses"].items[0].fields;
          match (StringField(entry, "id"), StringField(entry, "name"), ObjectField(entry, "response"))
          case (Some(id), Some(n), Some(resp)) =>
            (match ResultOfResponse(resp)
             case Some(r) => Some((id, n, r))
             case None => None)
          case _ => None
        else None
  }

  /** The envelope carries exactly one response, and the id, name and result can be read back. */
  lemma BuildToolResponseRoundTrip(callId: string, name: string, result: ToolResult)
    ensures DecodeToolResponse(BuildToolResponse(callId, name, result)) == Some((callId, name, result))
  {
    ResponseValueRoundTrip(result);
  }

  /** A Swift `Task` created by `handleToolCall`. */
  datatype ToolTask = ToolTask(call: FunctionCall, cancelled: bool, finished: bool)

  function CancelTask(tasks: seq<ToolTask>, h: nat): (r: seq<ToolTask>)
    requires h < |tasks|
    ensures |r| == |tasks|
    ensures forall k :: 0 <= k < |r| ==> r[k].call == tasks[k].call && r[k].finished == tasks[k].finished
    ensures forall k :: 0 <= k < |r| ==> r[k].cancelled == (tasks[k].cancelled || k == h)
  {
    tasks[h := tasks[h].(cancelled := true)]
  }

  /** The tasks that `inFlight` holds for the given ids. */
  function HandlesOf(inFlight: map<string, nat>, ids: seq<string>): set<nat>
  {
    set id | id in ids && id in inFlight :: inFlight[id]
  }

  class Router {
    const bridge: Bridge
    var inFlightTasks: map<string, nat>
    var tasks: seq<ToolTask>
    /** Every message passed to `sendResponse`, in order. */
    ghost var responses: seq<Json>

    /** Every in-flight entry names a task created for that call id. */
    ghost predicate Valid()
      reads this
    {
      forall id :: id in inFlightTasks ==>
        inFlightTasks[id] < |tasks| && tasks[inFlightTasks[id]].call.id == id
    }

    constructor (bridge: Bridge)
      ensures this.bridge == bridge && Valid()
      ensures inFlightTasks == map[] && tasks == [] && responses == []
    {
      this.bridge := bridge;
      inFlightTasks := map[];
      tasks := [];
      responses := [];
    }

    /** `handleToolCall(_:sendResponse:)`: create the task and record it under the call id. */
    method HandleToolCall(call: FunctionCall) returns (handle: nat)
      requires Valid()
      modifies this
      ensures Valid()
      ensures handle == old(|tasks|)
      ensures tasks == old(tasks) + [ToolTask(call, false, false)]
      ensures inFlightTasks == old(inFlightTasks)[call.id := handle]
      ensures responses == old(responses)
    {
      handle := |tasks|;
      tasks := tasks + [ToolTask(call, false, false)];
      inFlightTasks := inFlightTasks[call.id := handle];
    }

    /**
     * The body of task `handle`: route, call the bridge, and unless the task
     * was cancelled, send the response and drop the call id from
     * `inFlightTasks` (whichever task that entry names by now).
     */
    method RunTask(handle: nat, urlOk: bool, exchange: HttpExchange,
                   serialize: Json -> Result<string, string>, describeArgs: Object -> string)
      returns (result: ToolResult)
      requires Valid() && handle < |tasks| && !tasks[handle].finished
      modifies this, bridge
      ensures Valid()
      ensures var call := old(tasks[handle].call);
        var req := Route(call.name, call.args, describeArgs);
        Outcome(result, bridge.lastToolCallStatus) ==
          (if req.Delegate? then DelegateOutcome(urlOk, exchange)
           else InvokeOutcome(req.tool, urlOk, exchange, serialize))
      ensures var call := old(tasks[handle].call);
        var req := Route(call.name, call.args, describeArgs);
        && bridge.statusHistory == old(bridge.statusHistory) +
             [Executing(if req.Delegate? then DelegateTaskTool else req.tool), bridge.lastToolCallStatus]
        && bridge.requests == old(bridge.requests) +
             (if !urlOk then []
              else if req.Delegate?
              then [HttpRequest(HookURL(), GeminiConfig.OpenClawHookToken,
                                DelegateBody(req.task, req.deliver, req.channel, req.timeoutSeconds))]
              else [HttpRequest(InvokeURL(), GeminiConfig.OpenClawHookToken,
                                InvokeBody(req.tool, req.action, req.args))])
      ensures tasks == old(tasks)[handle := old(tasks[handle]).(finished := true)]
      ensures old(tasks[handle].cancelled) ==>
        inFlightTasks == old(inFlightTasks) && responses == old(responses)
      ensures !old(tasks[handle].cancelled) ==>
        var call := old(tasks[handle].call);
        && inFlightTasks == old(inFlightTasks) - {call.id}
        && responses == old(responses) + [BuildToolResponse(call.id, call.name, result)]
    {
      var call := tasks[handle].call;
      var req := Route(call.name, call.args, describeArgs);
      if req.Delegate? {
        result := bridge.DelegateTask(req.task, req.deliver, req.channel, req.timeoutSeconds, urlOk, exchange);
      } else {
        result := bridge.InvokeTool(req.tool, req.action, req.args, urlOk, exchange, serialize);
      }
      var cancelled := tasks[handle].cancelled;
      tasks := tasks[handle := tasks[handle].(finished := true)];
      if cancelled {
        return;
      }
      responses := responses + [BuildToolResponse(call.id, call.name, result)];
      inFlightTasks := inFlightTasks - {call.id};
    }

    /** `cancelToolCalls(ids:)` */
    method CancelToolCalls(ids: seq<string>)
      requires Valid()
      modifies this, bridge
      ensures Valid()
      ensures inFlightTasks == old(inFlightTasks) - (set id | id in ids)
      ensures |tasks| == old(|tasks|)
      ensures forall h :: 0 <= h < |tasks| ==>
        && tasks[h].call == old(tasks[h].call) && tasks[h].finished == old(tasks[h].finished)
        && tasks[h].cancelled == (old(tasks[h].cancelled) || h in HandlesOf(old(inFlightTasks), ids))
      ensures responses == old(responses)
      ensures bridge.lastToolCallStatus == Cancelled(if |ids| > 0 then ids[0] else "unknown")
      ensures bridge.statusHistory == old(bridge.statusHistory) + [bridge.lastToolCallStatus]
      ensures bridge.requests == old(bridge.requests)
    {
      for i := 0 to |ids|
        invariant Valid()
        invariant inFlightTasks == old(inFlightTasks) - (set id | id in ids[..i])
        invariant |tasks| == old(|tasks|)
        invariant forall h :: 0 <= h < |tasks| ==>
          && tasks[h].call == old(tasks[h].call) && tasks[h].finished == old(tasks[h].finished)
          && tasks[h].cancelled == (old(tasks[h].cancelled) || h in HandlesOf(old(inFlightTasks), ids[..i]))
        invariant responses == old(responses)
        invariant bridge.statusHistory == old(bridge.statusHistory)
        invariant bridge.requests == old(bridge.requests)
      {
        assert ids[..i + 1] == ids[..i] + [ids[i]];
        var id := ids[i];
        if id in inFlightTasks {
          var h := inFlightTasks[id];
          tasks := CancelTask(tasks, h);
          inFlightTasks := inFlightTasks - {id};
        }
      }
      assert ids[..|ids|] == ids;
      bridge.SetStatus(Cancelled(if |ids| > 0 then ids[0] else "unknown"));
    }

    /** `cancelAll()`: cancel every recorded task and empty the dictionary. */
    method CancelAll()
      requires Valid()
      modifies this
      ensures Valid()
      ensures inFlightTasks == map[]
      ensures |tasks| == old(|tasks|)
      ensures forall h :: 0 <= h < |tasks| ==>
        && tasks[h].call == old(tasks[h].call) && tasks[h].finished == old(tasks[h].finished)
        && tasks[h].cancelled == (old(tasks[h].cancelled) || h in old(inFlightTasks).Values)
      ensures responses == old(responses)
    {
      var remaining := inFlightTasks.Keys;
      while remaining != {}
        invariant remaining <= inFlightTasks.Keys
        invariant inFlightTasks == old(inFlightTasks) && |tasks| == old(|tasks|)
        invariant Valid()
        invariant forall h :: 0 <= h < |tasks| ==>
          && tasks[h].call == old(tasks[h].call) && tasks[h].finished == old(tasks[h].finished)
          && tasks[h].cancelled == (old(tasks[h].cancelled) ||
               h in (set id | id in inFlightTasks.Keys - remaining :: inFlightTasks[id]))
        invariant responses == old(responses)
        decreases remaining
      {
        var id :| id in remaining;
        tasks := CancelTask(tasks, inFlightTasks[id]);
        remaining := remaining - {id};
      }
      assert old(inFlightTasks).Values == (set id | id in inFlightTasks.Keys :: inFlightTasks[id]);
      inFlightTasks := map[];
    }
  }
}
