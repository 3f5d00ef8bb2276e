/**
 * The OpenClaw gateway bridge: builds the request body for a delegated task
 * or a tool invocation, sends it, and turns the HTTP outcome into a
 * `ToolResult` while updating the status the UI shows.
 *
 * The network exchange itself is an input: either the transport threw, or a
 * response arrived with an optional HTTP status code (absent when the
 * response is not an `HTTPURLResponse`), the body decoded as UTF-8 (absent
 * when it is not valid UTF-8) and the body parsed as JSON (absent when it is
 * not valid JSON).
 */
module OpenClawBridge {
  import opened Wrappers
  import opened Json
  import opened ToolCallModels
  import GeminiConfig

  datatype HttpExchange =
    | TransportError(description: string)
    | Response(statusCode: Option<int>, bodyText: Option<string>, json: Option<Json>)

  /** A POST sent to the gateway: URL, bearer token and JSON body. */
  datatype HttpRequest = HttpRequest(url: string, bearerToken: string, body: Object)

  /** The result a bridge call returns together with the status it leaves. */
  datatype Outcome = Outcome(result: ToolResult, status: ToolCallStatus)

  const DelegateTaskTool: string := "delegate_task"
  const DefaultTimeoutSeconds: int := 120
  const SessionKey: string := "glass:default"

  function GatewayBase(): string
  {
    GeminiConfig.OpenClawHost + ":" + IntToString(GeminiConfig.OpenClawPort)
  }

  function HookURL(): string { GatewayBase() + "/hooks/agent" }

  function InvokeURL(): string { GatewayBase() + "/tools/invoke" }

  /** The JSON body of a `delegateTask` request. */
  function DelegateBody(task: string, deliver: bool, channel: Option<string>, timeoutSeconds: int): (body: Object)
    ensures body.Keys == {"message", "name", "sessionKey", "wakeMode", "deliver", "timeoutSeconds"}
                         + (if channel.Some? then {"channel"} else {})
    ensures body["message"] == JStr(task) && body["name"] == JStr("Glass Voice")
    ensures body["sessionKey"] == JStr(SessionKey) && body["wakeMode"] == JStr("now")
    ensures body["deliver"] == JBool(deliver) && body["timeoutSeconds"] == JNum(timeoutSeconds)
    ensures "channel" in body <==> channel.Some?
    ensures channel.Some? ==> body["channel"] == JStr(channel.value)
  {
    var base := map[
      "message" := JStr(task),
      "name" := JStr("Glass Voice"),
      "sessionKey" := JStr(SessionKey),
      "wakeMode" := JStr("now"),
      "deliver" := JBool(deliver),
      "timeoutSeconds" := JNum(timeoutSeconds)];
    if channel.Some? then base["channel" := JStr(channel.value)] else base
  }

  /** The JSON body of an `invokeTool` request. */
  function InvokeBody(tool: string, action: string, args: Object): (body: Object)
    ensures body.Keys == {"tool", "action", "args", "sessionKey"}
    ensures body["tool"] == JStr(tool) && body["action"] == JStr(action)
    ensures body["args"] == JObj(args) && body["sessionKey"] == JStr(SessionKey)
  {
    map["tool" := JStr(tool), "action" := JStr(action), "args" := JObj(args),
        "sessionKey" := JStr(SessionKey)]
  }

  /** `json as? [String: Any]` followed by `["runId"] as? String`. */
  function RunId(json: Option<Json>): Option<string>
  {
    if json.Some? && json.value.JObj? then StringField(json.value.fields, "runId") else None
  }

  /** How `delegateTask` classifies the outcome of its request. */
  function DelegateOutcome(urlOk: bool, exchange: HttpExchange): (o: Outcome)
    ensures o.status.Completed? || o.status.Failed?
    ensures o.status.name == DelegateTaskTool
    ensures o.result.Success? <==> o.status.Completed?
    ensures o.result.Success? <==> urlOk && exchange.Response? && exchange.statusCode == Some(202)
    ensures !urlOk ==> o == Outcome(Failure("Invalid gateway URL"), Failed(DelegateTaskTool, "Invalid URL"))
    ensures urlOk && exchange.TransportError? ==>
      o == Outcome(Failure("Gateway unreachable: " + exchange.description),
                   Failed(DelegateTaskTool, exchange.description))
    ensures o.result.Success? ==>
      o.result.text == (if RunId(exchange.json).Some?
                        then "Task delegated (runId: " + RunId(exchange.json).value + ")"
                        else "Task delegated successfully")
    ensures urlOk && exchange.Response? && exchange.statusCode != Some(202) ==>
      var code := IntToString(exchange.statusCode.GetOr(0));
      o == Outcome(Failure("Gateway returned HTTP " + code + ": " + exchange.bodyText.GetOr("no body")),
                   Failed(DelegateTaskTool, "HTTP " + code))
  {
    if !urlOk then Outcome(Failure("Invalid gateway URL"), Failed(DelegateTaskTool, "Invalid URL"))
    else match exchange
      case TransportError(d) =>
        Outcome(Failure("Gateway unreachable: " + d), Failed(DelegateTaskTool, d))
      case Response(statusCode, bodyText, json) =>
        if statusCode == Some(202) then
          match RunId(json)
          case Some(runId) =>
            Outcome(Success("Task delegated (runId: " + runId + ")"), Completed(DelegateTaskTool))
          case None =>
            Outcome(Success("Task delegated successfully"), Completed(DelegateTaskTool))
        else
          var code := IntToString(statusCode.GetOr(0));
          Outcome(Failure("Gateway returned HTTP " + code + ": " + bodyText.GetOr("no body")),
                  Failed(DelegateTaskTool, "HTTP " + code))
  }

  predicate IsSuccessCode(statusCode: Option<int>)
  {
    statusCode.Some? && 200 <= statusCode.value <= 299
  }

  /** `json["error"] as? String` for a top-level JSON object. */
  function ErrorField(json: Option<Json>): Option<string>
  {
    if json.Some? && json.value.JObj? then StringField(json.value.fields, "error") else None
  }

  /** `json["result"] ?? json` for a top-level JSON object. */
  function ResultObject(fields: Object): Json
  {
    if "result" in fields then fields["result"] else JObj(fields)
  }

  /**
   * How `invokeTool` classifies the outcome of its request. `serialize`
   * stands for `JSONSerialization.data(withJSONObject:options: .sortedKeys)`
   * decoded as UTF-8. Given a value that `jsonObject(with:)` produced, that
   * call does not throw; it raises an Objective-C exception, which ends the
   * app, when the top-level value is neither an object nor an array (a
   * "result" that is a string, number, boolean or null). The `Err` branch
   * stands for that trap: see `SerializeFailsOnlyOnScalars`.
   */
  function InvokeOutcome(tool: string, urlOk: bool, exchange: HttpExchange,
                         serialize: Json -> Result<string, string>): (o: Outcome)
    ensures o.status.Completed? || o.status.Failed?
    ensures o.status.name == tool
    ensures o.result.Success? <==> o.status.Completed?
    ensures o.result.Success? ==> urlOk && exchange.Response? && IsSuccessCode(exchange.statusCode)
    ensures !urlOk ==> o == Outcome(Failure("Invalid gateway URL"), Failed(tool, "Invalid URL"))
    ensures urlOk && exchange.TransportError? ==>
      o == Outcome(Failure("Tool invoke failed: " + exchange.description), Failed(tool, exchange.description))
    ensures urlOk && exchange.Response? && !IsSuccessCode(exchange.statusCode) ==>
      var code := IntToString(exchange.statusCode.GetOr(0));
      o == Outcome(Failure("Tool invoke failed: HTTP " + code), Failed(tool, "HTTP " + code))
    ensures urlOk && exchange.Response? && IsSuccessCode(exchange.statusCode) && ErrorField(exchange.json).Some? ==>
      o == Outcome(Failure(ErrorField(exchange.json).value), Failed(tool, ErrorField(exchange.json).value))
    ensures urlOk && exchange.Response? && IsSuccessCode(exchange.statusCode)
            && !(exchange.json.Some? && exchange.json.value.JObj?) ==>
      o == Outcome(Success(exchange.bodyText.GetOr("OK")), Completed(tool))
  {
    if !urlOk then Outcome(Failure("Invalid gateway URL"), Failed(tool, "Invalid URL"))
    else match exchange
      case TransportError(d) =>
        Outcome(Failure("Tool invoke failed: " + d), Failed(tool, d))
      case Response(statusCode, bodyText, json) =>
        if !IsSuccessCode(statusCode) then
          var code := IntToString(statusCode.GetOr(0));
          Outcome(Failure("Tool invoke failed: HTTP " + code), Failed(tool, "HTTP " + code))
        else if json.Some? && json.value.JObj? then
          match StringField(json.value.fields, "error")
          case Some(error) => Outcome(Failure(error), Failed(tool, error))
          case None =>
            match serialize(ResultObject(json.value.fields))
            case Ok(text) => Outcome(Success(text), Completed(tool))
            case Err(d) => Outcome(Failure("Tool invoke failed: " + d), Failed(tool, d))
        else Outcome(Success(bodyText.GetOr("OK")), Completed(tool))
  }

  /** With a 2xx object response and no string "error", the result is the serialized payload. */
  lemma InvokeOutcomeSerializesResult(tool: string, exchange: HttpExchange,
                                      serialize: Json -> Result<string, string>, text: string)
    requires exchange.Response? && IsSuccessCode(exchange.statusCode)
    requires exchange.json.Some? && exchange.json.value.JObj?
    requires ErrorField(exchange.json).None?
    requires serialize(ResultObject(exchange.json.value.fields)) == Ok(text)
    ensures InvokeOutcome(tool, true, exchange, serialize) == Outcome(Success(text), Completed(tool))
  {
  }

  /**
   * Foundation's rule for `JSONSerialization.data(withJSONObject:)`: only a
   * top-level value that is neither an object nor an array is refused.
   */
  ghost predicate SerializeFailsOnlyOnScalars(serialize: Json -> Result<string, string>)
  {
    forall j :: serialize(j).Err? ==> !j.JObj? && !j.JArr?
  }

  /**
   * Under Foundation's rule, a failed invoke on a 2xx object response without
   * a string "error" means its "result" was a scalar: the case in which the
   * source traps rather than returning a failure.
   */
  lemma InvokeFailureMeansScalarResult(tool: string, exchange: HttpExchange,
                                       serialize: Json -> Result<string, string>)
    requires SerializeFailsOnlyOnScalars(serialize)
    requires exchange.Response? && IsSuccessCode(exchange.statusCode)
    requires exchange.json.Some? && exchange.json.value.JObj?
    requires ErrorField(exchange.json).None?
    requires InvokeOutcome(tool, true, exchange, serialize).result.Failure?
    ensures "result" in exchange.json.value.fields
    ensures !exchange.json.value.fields["result"].JObj? && !exchange.json.value.fields["result"].JArr?
  {
    var r := ResultObject(exchange.json.value.fields);
    assert serialize(r).Err?;
  }

  /** The gateway client; `lastToolCallStatus` is what the UI shows. */
  class Bridge {
    var lastToolCallStatus: ToolCallStatus
    /** Every value `lastToolCallStatus` has been given, in order. */
    ghost var statusHistory: seq<ToolCallStatus>
    /** Every request handed to the URL session, in order. */
    ghost var requests: seq<HttpRequest>

    constructor ()
      ensures lastToolCallStatus == Idle && statusHistory == [] && requests == []
    {
      lastToolCallStatus := Idle;
      statusHistory := [];
      requests := [];
    }

    method SetStatus(s: ToolCallStatus)
      modifies this
      ensures lastToolCallStatus == s && statusHistory == old(statusHistory) + [s]
      ensures requests == old(requests)
    {
      lastToolCallStatus := s;
      statusHistory := statusHistory + [s];
    }

    /** `delegateTask(task:deliver:channel:timeoutSeconds:)` */
    method DelegateTask(task: string, deliver: bool, channel: Option<string>, timeoutSeconds: int,
                        urlOk: bool, exchange: HttpExchange) returns (r: ToolResult)
      modifies this
      ensures Outcome(r, lastToolCallStatus) == DelegateOutcome(urlOk, exchange)
      ensures statusHistory == old(statusHistory) + [Executing(DelegateTaskTool), lastToolCallStatus]
      ensures requests == old(requests) +
        (if urlOk then [HttpRequest(HookURL(), GeminiConfig.OpenClawHookToken,
                                    DelegateBody(task, deliver, channel, timeoutSeconds))] else [])
    {
      SetStatus(Executing(DelegateTaskTool));
      if !urlOk {
        SetStatus(Failed(DelegateTaskTool, "Invalid URL"));
        return Failure("Invalid gateway URL");
      }
      var body: Object := map[
        "message" := JStr(task),
        "name" := JStr("Glass Voice"),
        "sessionKey" := JStr(SessionKey),
        "wakeMode" := JStr("now"),
        "deliver" := JBool(deliver),
        "timeoutSeconds" := JNum(timeoutSeconds)];
      if channel.Some? {
        body := body["channel" := JStr(channel.value)];
      }
      requests := requests + [HttpRequest(HookURL(), GeminiConfig.OpenClawHookToken, body)];
      match exchange {
        case TransportError(d) =>
          SetStatus(Failed(DelegateTaskTool, d));
          r := Failure("Gateway unreachable: " + d);
        case Response(statusCode, bodyText, json) =>
          if statusCode == Some(202) {
            var runId := RunId(json);
            if runId.Some? {
              SetStatus(Completed(DelegateTaskTool));
              return Success("Task delegated (runId: " + runId.value + ")");
            }
            SetStatus(Completed(DelegateTaskTool));
            r := Success("Task delegated successfully");
          } else {
            var code := IntToString(statusCode.GetOr(0));
            SetStatus(Failed(DelegateTaskTool, "HTTP " + code));
            r := Failure("Gateway returned HTTP " + code + ": " + bodyText.GetOr("no body"));
          }
      }
    }

    /** `invokeTool(tool:action:args:)` */
    method InvokeTool(tool: string, action: string, args: Object, urlOk: bool, exchange: HttpExchange,
                      serialize: Json -> Result<string, string>) returns (r: ToolResult)
      modifies this
      ensures Outcome(r, lastToolCallStatus) == InvokeOutcome(tool, urlOk, exchange, serialize)
      ensures statusHistory == old(statusHistory) + [Executing(tool), lastToolCallStatus]
      ensures requests == old(requests) +
        (if urlOk then [HttpRequest(InvokeURL(), GeminiConfig.OpenClawHookToken,
                                    InvokeBody(tool, action, args))] else [])
    {
      SetStatus(Executing(tool));
      if !urlOk {
        SetStatus(Failed(tool, "Invalid URL"));
        return Failure("Invalid gateway URL");
      }
      var body := map["tool" := JStr(tool), "action" := JStr(action), "args" := JObj(args),
                      "sessionKey" := JStr(SessionKey)];
      requests := requests + [HttpRequest(InvokeURL(), GeminiConfig.OpenClawHookToken, body)];
      match exchange {
        case TransportError(d) =>
          SetStatus(Failed(tool, d));
          r := Failure("Tool invoke failed: " + d);
        case Response(statusCode, bodyText, json) =>
          if !IsSuccessCode(statusCode) {
            var code := IntToString(statusCode.GetOr(0));
            SetStatus(Failed(tool, "HTTP " + code));
            return Failure("Tool invoke failed: HTTP " + code);
          }
          if json.Some? && json.value.JObj? {
            var error := StringField(json.value.fields, "error");
            if error.Some? {
              SetStatus(Failed(tool, error.value));
              return Failure(error.value);
            }
            match serialize(ResultObject(json.value.fields)) {
              case Ok(text) =>
                SetStatus(Completed(tool));
                r := Success(text);
              case Err(d) =>
                SetStatus(Failed(tool, d));
                r := Failure("Tool invoke failed: " + d);
            }
            return;
          }
          SetStatus(Completed(tool));
          r := Success(bodyText.GetOr("OK"));
      }
    }
  }
}
