/**
 * The tool-call messages the Gemini Live server sends, the result a tool
 * produces, the status the UI shows, and the tool declarations sent at setup.
 * Parsing works on already-decoded JSON (`[String: Any]`).
 */
module ToolCallModels {
  import opened Wrappers
  import opened Json

  // ---------------------------------------------------------------------------
  // GeminiFunctionCall / GeminiToolCall

  datatype FunctionCall = FunctionCall(id: string, name: string, args: Object)

  /** Whether one entry of `functionCalls` survives the `compactMap`. */
  predicate IsWellFormedCall(entry: Object)
  {
    StringField(entry, "id").Some? && StringField(entry, "name").Some?
  }

  /** The call built from a well-formed entry; `args` defaults to `[:]`. */
  function CallOf(entry: Object): (c: FunctionCall)
    requires IsWellFormedCall(entry)
    ensures entry["id"] == JStr(c.id) && entry["name"] == JStr(c.name)
    ensures "args" in entry && entry["args"].JObj? ==> c.args == entry["args"].fields
    ensures !("args" in entry && entry["args"].JObj?) ==> c.args == map[]
  {
    FunctionCall(StringField(entry, "id").value, StringField(entry, "name").value,
                 ObjectField(entry, "args").GetOr(map[]))
  }

  /** `calls.compactMap { … }`: drop entries without a string id or name. */
  function CompactCalls(entries: seq<Object>): (r: seq<FunctionCall>)
    ensures |r| <= |entries|
  {
    if entries == [] then []
    else if IsWellFormedCall(entries[0]) then [CallOf(entries[0])] + CompactCalls(entries[1..])
    else CompactCalls(entries[1..])
  }

  /** `items as? [[String: Any]]`: succeeds only when every element is an object. */
  function AsObjectArray(items: seq<Json>): (r: Option<seq<Object>>)
    ensures r.Some? <==> forall k :: 0 <= k < |items| ==> items[k].JObj?
    ensures r.Some? ==> |r.value| == |items|
    ensures r.Some? ==> forall k :: 0 <= k < |items| ==> items[k] == JObj(r.value[k])
  {
    if items == [] then Some([])
    else if !items[0].JObj? then None
    else
      match AsObjectArray(items[1..])
      case None => None
      case Some(rest) => Some([items[0].fields] + rest)
  }

  /** `items as? [String]`: succeeds only when every element is a string. */
  function AsStringArray(items: seq<Json>): (r: Option<seq<string>>)
    ensures r.Some? <==> forall k :: 0 <= k < |items| ==> items[k].JStr?
    ensures r.Some? ==> |r.value| == |items|
    ensures r.Some? ==> forall k :: 0 <= k < |items| ==> items[k] == JStr(r.value[k])
  {
    if items == [] then Some([])
    else if !items[0].JStr? then None
    else
      match AsStringArray(items[1..])
      case None => None
      case Some(rest) => Some([items[0].s] + rest)
  }

  /** The `functionCalls` array of a message, when the message has the right shape. */
  function FunctionCallEntries(json: Object): Option<seq<Object>>
  {
    match ObjectField(json, "toolCall")
    case None => None
    case Some(toolCall) =>
      if "functionCalls" in toolCall && toolCall["functionCalls"].JArr?
      then AsObjectArray(toolCall["functionCalls"].items)
      else None
  }

  /** `GeminiToolCall.init?(json:)`, giving its `functionCalls`. */
  function ParseToolCall(json: Object): (r: Option<seq<FunctionCall>>)
    ensures r.Some? <==>
      && "toolCall" in json && json["toolCall"].JObj?
      && "functionCalls" in json["toolCall"].fields
      && json["toolCall"].fields["functionCalls"].JArr?
      && forall k :: 0 <= k < |json["toolCall"].fields["functionCalls"].items| ==>
           json["toolCall"].fields["functionCalls"].items[k].JObj?
    ensures r.Some? ==> r.value == CompactCalls(FunctionCallEntries(json).value)
  {
    match FunctionCallEntries(json)
    case None => None
    case Some(entries) => Some(CompactCalls(entries))
  }

  /** `GeminiToolCallCancellation.init?(json:)`, giving its `ids`. */
  function ParseCancellation(json: Object): (r: Option<seq<string>>)
    ensures r.Some? <==>
      && "toolCallCancellation" in json && json["toolCallCancellation"].JObj?
      && "ids" in json["toolCallCancellation"].fields
      && json["toolCallCancellation"].fields["ids"].JArr?
      && forall k :: 0 <= k < |json["toolCallCancellation"].fields["ids"].items| ==>
           json["toolCallCancellation"].fields["ids"].items[k].JStr?
    ensures r.Some? ==>
      var items := json["toolCallCancellation"].fields["ids"].items;
      |r.value| == |items| && forall k :: 0 <= k < |items| ==> items[k] == JStr(r.value[k])
  {
    match ObjectField(json, "toolCallCancellation")
    case None => None
    case Some(c) =>
      if "ids" in c && c["ids"].JArr? then AsStringArray(c["ids"].items) else None
  }

  /** Keeping well-formed entries distributes over concatenation: order is kept. */
  lemma {:induction false} CompactCallsAppend(a: seq<Object>, b: seq<Object>)
    ensures CompactCalls(a + b) == CompactCalls(a) + CompactCalls(b)
  {
    if a == [] {
      assert a + b == b;
    } else {
      assert (a + b)[0] == a[0];
      assert (a + b)[1..] == a[1..] + b;
      CompactCallsAppend(a[1..], b);
    }
  }

  /** When every entry is well formed, every entry becomes a call, in place. */
  lemma {:induction false} CompactCallsAllWellFormed(entries: seq<Object>)
    requires forall k :: 0 <= k < |entries| ==> IsWellFormedCall(entries[k])
    ensures |CompactCalls(entries)| == |entries|
    ensures forall k :: 0 <= k < |entries| ==> CompactCalls(entries)[k] == CallOf(entries[k])
  {
    if entries != [] {
      CompactCallsAllWellFormed(entries[1..]);
    }
  }

  /** Every call that comes out has a string id and name in some entry. */
  lemma {:induction false} CompactCallsSound(entries: seq<Object>, k: nat)
    requires k < |CompactCalls(entries)|
    ensures exists j :: (0 <= j < |entries| && IsWellFormedCall(entries[j])
                         && CompactCalls(entries)[k] == CallOf(entries[j]))
  {
    if IsWellFormedCall(entries[0]) {
      if k == 0 {
        assert CompactCalls(entries)[0] == CallOf(entries[0]);
      } else {
        CompactCallsSound(entries[1..], k - 1);
        var j :| 0 <= j < |entries[1..]| && IsWellFormedCall(entries[1..][j]) &&
          CompactCalls(entries[1..])[k - 1] == CallOf(entries[1..][j]);
        assert entries[1..][j] == entries[j + 1];
      }
    } else {
      CompactCallsSound(entries[1..], k);
      var j :| 0 <= j < |entries[1..]| && IsWellFormedCall(entries[1..][j]) &&
        CompactCalls(entries[1..])[k] == CallOf(entries[1..][j]);
      assert entries[1..][j] == entries[j + 1];
    }
  }

  /** Entries with no string id or no string name contribute nothing. */
  lemma {:induction false} CompactCallsNoneWellFormed(entries: seq<Object>)
    requires forall k :: 0 <= k < |entries| ==> !IsWellFormedCall(entries[k])
    ensures CompactCalls(entries) == []
  {
    if entries != [] {
      CompactCallsNoneWellFormed(entries[1..]);
    }
  }

  // ---------------------------------------------------------------------------
  // ToolResult

  datatype ToolResult = Success(text: string) | Failure(message: string)

  /** `responseValue`: a one-key object, "result" or "error". */
  function ResponseValue(r: ToolResult): (v: Object)
    ensures |v| == 1
    ensures r.Success? ==> v.Keys == {"result"} && v["result"] == JStr(r.text)
    ensures r.Failure? ==> v.Keys == {"error"} && v["error"] == JStr(r.message)
  {
    match r
    case Success(s) => map["result" := JStr(s)]
    case Failure(e) => map["error" := JStr(e)]
  }

  /** Reading a tool result back from its one-key response object. */
  function ResultOfResponse(v: Object): Option<ToolResult>
  {
    if v.Keys == {"result"} && v["result"].JStr? then Some(Success(v["result"].s))
    else if v.Keys == {"error"} && v["error"].JStr? then Some(Failure(v["error"].s))
    else None
  }

  lemma ResponseValueRoundTrip(r: ToolResult)
    ensures ResultOfResponse(ResponseValue(r)) == Some(r)
  {
    if r.Success? {
      assert ResponseValue(r).Keys != {"error"} by {
        assert "result" in ResponseValue(r).Keys;
      }
    }
  }

  // ---------------------------------------------------------------------------
  // ToolCallStatus

  datatype ToolCallStatus =
    | Idle
    | Executing(name: string)
    | Completed(name: string)
    | Failed(name: string, error: string)
    | Cancelled(name: string)

  function DisplayText(s: ToolCallStatus): (t: string)
    ensures t == [] <==> s.Idle?
    ensures s.Executing? ==> "Running: " <= t
    ensures s.Completed? ==> "Done: " <= t
    ensures s.Failed? ==> "Failed: " <= t
    ensures s.Cancelled? ==> "Cancelled: " <= t
  {
    match s
    case Idle => ""
    case Executing(name) => "Running: " + name + "..."
    case Completed(name) => "Done: " + name
    case Failed(name, err) => "Failed: " + name + " - " + err
    case Cancelled(name) => "Cancelled: " + name
  }

  function IsActive(s: ToolCallStatus): (b: bool)
    ensures b <==> s.Executing?
  {
    match s
    case Executing(_) => true
    case _ => false
  }

  /** Two statuses other than `failed` with the same text are the same status. */
  lemma DisplayTextDeterminesStatus(a: ToolCallStatus, b: ToolCallStatus)
    requires !a.Failed? && !b.Failed?
    requires DisplayText(a) == DisplayText(b)
    ensures a == b
  {
    var t := DisplayText(a);
    if a.Idle? || b.Idle? {
    } else {
      // The first character tells the variant apart: 'R', 'D', 'C'.
      assert t[0] == DisplayText(b)[0];
      match a
      case Executing(n) =>
        assert t == "Running: " + n + "...";
        assert n == t[9..|t| - 3];
        assert b.Executing? && DisplayText(b) == "Running: " + b.name + "...";
        assert b.name == t[9..|t| - 3];
      case Completed(n) =>
        assert n == t[6..];
        assert b.Completed? && DisplayText(b) == "Done: " + b.name;
        assert b.name == t[6..];
      case Cancelled(n) =>
        assert n == t[11..];
        assert b.Cancelled? && DisplayText(b) == "Cancelled: " + b.name;
        assert b.name == t[11..];
    }
  }

  /** The `failed` text does not determine name and error: " - " may occur in either. */
  lemma FailedDisplayTextAmbiguous()
    ensures DisplayText(Failed("a - b", "c")) == DisplayText(Failed("a", "b - c"))
  {
  }

  // ---------------------------------------------------------------------------
  // ToolDeclarations

  /** One entry of `properties`: its name, JSON type and description. */
  datatype PropertyDecl = PropertyDecl(key: string, kind: string, description: string)

  /** The fields of one of the static declaration dictionaries. */
  datatype ToolDeclaration = ToolDeclaration(
    name: string, description: string, properties: seq<PropertyDecl>,
    required: seq<string>, nonBlocking: bool)

  function PropertiesJson(ps: seq<PropertyDecl>): (m: Object)
    ensures m.Keys == set k | 0 <= k < |ps| :: ps[k].key
  {
    if ps == [] then map[]
    else
      var m := PropertiesJson(ps[1..])[ps[0].key := JObj(map["type" := JStr(ps[0].kind), "description" := JStr(ps[0].description)])];
      assert forall k :: 0 <= k < |ps[1..]| ==> ps[1..][k] == ps[k + 1];
      assert m.Keys == set k | 0 <= k < |ps| :: ps[k].key by {
        forall x | x in m.Keys ensures exists k :: 0 <= k < |ps| && ps[k].key == x {
          if x != ps[0].key {
            var j :| 0 <= j < |ps[1..]| && ps[1..][j].key == x;
            assert ps[j + 1].key == x;
          }
        }
        forall k | 0 <= k < |ps| ensures ps[k].key in m.Keys {
          if k > 0 { assert ps[k] == ps[1..][k - 1]; }
        }
      }
      m
  }

  function StringsToJson(xs: seq<string>): (r: seq<Json>)
    ensures AsStringArray(r) == Some(xs)
  {
    if xs == [] then []
    else
      var r := [JStr(xs[0])] + StringsToJson(xs[1..]);
      assert r[1..] == StringsToJson(xs[1..]);
      assert [xs[0]] + xs[1..] == xs;
      r
  }

  /** The dictionary literal the declaration stands for. */
  function DeclarationJson(d: ToolDeclaration): (r: Json)
    ensures r.JObj?
    ensures r.fields.Keys == {"name", "description", "parameters"} + (if d.nonBlocking then {"behavior"} else {})
    ensures r.fields["description"] == JStr(d.description)
    ensures d.nonBlocking ==> r.fields["behavior"] == JStr("NON_BLOCKING")
  {
    var base := map[
      "name" := JStr(d.name),
      "description" := JStr(d.description),
      "parameters" := JObj(map[
        "type" := JStr("object"),
        "properties" := JObj(PropertiesJson(d.properties)),
        "required" := JArr(StringsToJson(d.required))])];
    JObj(if d.nonBlocking then base["behavior" := JStr("NON_BLOCKING")] else base)
  }

  const DelegateTaskDeclaration: ToolDeclaration := ToolDeclaration(
    "delegate_task",
    "Delegate a complex or long-running task to the personal AI assistant. Use this for tasks that require multiple steps, accessing external services, or actions that take more than a few seconds. Examples: research topics, draft documents, schedule things, control smart home devices.",
    [PropertyDecl("task", "string", "Detailed description of the task to perform"),
     PropertyDecl("deliver", "boolean", "Whether to send the result to a chat channel when done"),
     PropertyDecl("channel", "string", "Chat channel to deliver result to (e.g. whatsapp, telegram, last)")],
    ["task"], true)

  const SendMessageDeclaration: ToolDeclaration := ToolDeclaration(
    "send_message",
    "Send a message to someone via a messaging platform. Supports WhatsApp, Telegram, Slack, Discord, iMessage, Signal, and Teams.",
    [PropertyDecl("to", "string", "Recipient name or phone number"),
     PropertyDecl("message", "string", "Message content to send"),
     PropertyDecl("channel", "string", "Messaging platform to use (whatsapp, telegram, imessage, slack, discord, signal, teams)")],
    ["to", "message"], true)

  const WebSearchDeclaration: ToolDeclaration := ToolDeclaration(
    "web_search",
    "Search the web for current information. Use this when the user asks about recent events, facts you are unsure about, or anything that requires up-to-date data.",
    [PropertyDecl("query", "string", "The search query")],
    ["query"], false)

  /** `ToolDeclarations.allDeclarations()` */
  function AllDeclarations(): (r: seq<Json>)
    ensures |r| == 3
    ensures forall k :: 0 <= k < |r| ==> r[k].JObj? && "parameters" in r[k].fields
  {
    [DeclarationJson(DelegateTaskDeclaration), DeclarationJson(SendMessageDeclaration),
     DeclarationJson(WebSearchDeclaration)]
  }

  /** The declared name of a tool declaration. */
  function DeclaredName(d: Json): Option<string>
  {
    if d.JObj? then StringField(d.fields, "name") else None
  }

  /** The `required` list of a tool declaration. */
  function RequiredFields(d: Json): Option<seq<string>>
  {
    if d.JObj? && "parameters" in d.fields && d.fields["parameters"].JObj?
       && "required" in d.fields["parameters"].fields
       && d.fields["parameters"].fields["required"].JArr?
    then AsStringArray(d.fields["parameters"].fields["required"].items)
    else None
  }

  /** The names of the declared properties of a tool declaration. */
  function PropertyNames(d: Json): set<string>
  {
    if d.JObj? && "parameters" in d.fields && d.fields["parameters"].JObj?
       && "properties" in d.fields["parameters"].fields
       && d.fields["parameters"].fields["properties"].JObj?
    then d.fields["parameters"].fields["properties"].fields.Keys
    else {}
  }

  predicate IsNonBlocking(d: Json)
  {
    d.JObj? && "behavior" in d.fields && d.fields["behavior"] == JStr("NON_BLOCKING")
  }

  /** Reading the rendered dictionary gives back the declaration's parts. */
  lemma DeclarationJsonFields(d: ToolDeclaration)
    ensures DeclaredName(DeclarationJson(d)) == Some(d.name)
    ensures RequiredFields(DeclarationJson(d)) == Some(d.required)
    ensures PropertyNames(DeclarationJson(d)) == set k | 0 <= k < |d.properties| :: d.properties[k].key
    ensures IsNonBlocking(DeclarationJson(d)) <==> d.nonBlocking
  {
  }

  /** Every required field of every declaration is one of its properties. */
  predicate RequiredAreDeclared(d: ToolDeclaration)
  {
    forall f :: f in d.required ==> exists k :: 0 <= k < |d.properties| && d.properties[k].key == f
  }

  /** What the setup message promises about the three tools. */
  lemma AllDeclarationsShape()
    ensures |AllDeclarations()| == 3
    ensures DeclaredName(AllDeclarations()[0]) == Some("delegate_task")
    ensures DeclaredName(AllDeclarations()[1]) == Some("send_message")
    ensures DeclaredName(AllDeclarations()[2]) == Some("web_search")
    ensures RequiredFields(AllDeclarations()[0]) == Some(["task"])
    ensures RequiredFields(AllDeclarations()[1]) == Some(["to", "message"])
    ensures RequiredFields(AllDeclarations()[2]) == Some(["query"])
    ensures IsNonBlocking(AllDeclarations()[0]) && IsNonBlocking(AllDeclarations()[1])
    ensures !IsNonBlocking(AllDeclarations()[2])
    ensures RequiredAreDeclared(DelegateTaskDeclaration)
    ensures RequiredAreDeclared(SendMessageDeclaration)
    ensures RequiredAreDeclared(WebSearchDeclaration)
  {
    DeclarationJsonFields(DelegateTaskDeclaration);
    DeclarationJsonFields(SendMessageDeclaration);
    DeclarationJsonFields(WebSearchDeclaration);
    assert DelegateTaskDeclaration.properties[0].key == "task";
    assert SendMessageDeclaration.properties[0].key == "to";
    assert SendMessageDeclaration.properties[1].key == "message";
    assert WebSearchDeclaration.properties[0].key == "query";
  }
}
