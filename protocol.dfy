/**
  The websocket wire protocol: the `ProtocolMessage` envelope, its
  `ProtocolPayload` of seven optional variants, the payload classifier, the
  dictionary form sent on the wire, the frame constructors and the parser
  that turns a received JSON object back into a message.
 */
module Protocol {
  import opened Wrappers
  import opened JsonValue

  datatype MessageRole = User | System | Assistant | Developer

  function RoleName(r: MessageRole): string {
    match r
    case User => "user"
    case System => "system"
    case Assistant => "assistant"
    case Developer => "developer"
  }

  /** `MessageRole(s)`: `None` where Python raises `ValueError`. */
  function ParseRole(s: string): (r: Option<MessageRole>)
    ensures r.Some? ==> RoleName(r.value) == s
  {
    if s == "user" then Some(User)
    else if s == "system" then Some(System)
    else if s == "assistant" then Some(Assistant)
    else if s == "developer" then Some(Developer)
    else None
  }

  datatype CommandType = CmdSet | CmdGet | CmdList | CmdStatus

  function CommandName(c: CommandType): string {
    match c
    case CmdSet => "Set"
    case CmdGet => "Get"
    case CmdList => "List"
    case CmdStatus => "Status"
  }

  function ParseCommandType(s: string): (r: Option<CommandType>)
    ensures r.Some? ==> CommandName(r.value) == s
  {
    if s == "Set" then Some(CmdSet)
    else if s == "Get" then Some(CmdGet)
    else if s == "List" then Some(CmdList)
    else if s == "Status" then Some(CmdStatus)
    else None
  }

  /** `SetCommandArgumentType`. */
  datatype SetKey = KeyRole | KeyModel | KeyDatabase | KeyDatabaseUpper | KeyDatabaseUrl | KeyDatabaseUrlUpper

  function SetKeyName(k: SetKey): string {
    match k
    case KeyRole => "role"
    case KeyModel => "model"
    case KeyDatabase => "database"
    case KeyDatabaseUpper => "Database"
    case KeyDatabaseUrl => "database_url"
    case KeyDatabaseUrlUpper => "DATABASE_URL"
  }

  function ParseSetKey(s: string): (r: Option<SetKey>)
    ensures r.Some? ==> SetKeyName(r.value) == s
  {
    if s == "role" then Some(KeyRole)
    else if s == "model" then Some(KeyModel)
    else if s == "database" then Some(KeyDatabase)
    else if s == "Database" then Some(KeyDatabaseUpper)
    else if s == "database_url" then Some(KeyDatabaseUrl)
    else if s == "DATABASE_URL" then Some(KeyDatabaseUrlUpper)
    else None
  }

  datatype MessageKind = Handshake | Message | Chunk | Reasoning | Tool | Status | Heartbeat | Command | Error | Usage

  function KindName(k: MessageKind): string {
    match k
    case Handshake => "Handshake"
    case Message => "Message"
    case Chunk => "Chunk"
    case Reasoning => "Reasoning"
    case Tool => "Tool"
    case Status => "Status"
    case Heartbeat => "Heartbeat"
    case Command => "Command"
    case Error => "Error"
    case Usage => "Usage"
  }

  function ParseKind(s: string): (r: Option<MessageKind>)
    ensures r.Some? ==> KindName(r.value) == s
  {
    if s == "Handshake" then Some(Handshake)
    else if s == "Message" then Some(Message)
    else if s == "Chunk" then Some(Chunk)
    else if s == "Reasoning" then Some(Reasoning)
    else if s == "Tool" then Some(Tool)
    else if s == "Status" then Some(Status)
    else if s == "Heartbeat" then Some(Heartbeat)
    else if s == "Command" then Some(Command)
    else if s == "Error" then Some(Error)
    else if s == "Usage" then Some(Usage)
    else None
  }

  lemma NamesRoundTrip(r: MessageRole, c: CommandType, k: SetKey, m: MessageKind)
    ensures ParseRole(RoleName(r)) == Some(r)
    ensures ParseCommandType(CommandName(c)) == Some(c)
    ensures ParseSetKey(SetKeyName(k)) == Some(k)
    ensures ParseKind(KindName(m)) == Some(m)
  {
  }

  /** The empty `Heartbeat` model. */
  datatype HeartbeatBody = HeartbeatBody

  /** `ClientHandshakeRequest` (aliases `projectId`, `chatId`). */
  datatype HandshakeRequest = HandshakeRequest(projectId: string, chatId: string)

  /** `ErrorMessage` (alias `errorCode`). */
  datatype ErrorBody = ErrorBody(errorCode: string, message: string, data: Option<map<string, Json>>, uuid: string)

  datatype ToolCall = ToolCall(id: string, callId: string, name: string, arguments: map<string, Json>)

  datatype ToolMessage = ToolMessage(toolCalls: seq<ToolCall>, reasoning: Option<string>)

  datatype MessageContent = MessageContent(role: MessageRole, messageType: string, content: string, metadata: Option<map<string, Json>>)

  /** `Union[SetCommandArgument, GetCommandArgument, Dict[str, Any]]`. */
  datatype CommandArguments =
    | SetArgs(key: SetKey, value: string)
    | GetArgs(value: string)
    | RawArgs(fields: map<string, Json>)

  datatype CommandBody = CommandBody(command: CommandType, arguments: CommandArguments)

  datatype Payload = Payload(
    heartbeat: Option<HeartbeatBody>,
    handshake: Option<HandshakeRequest>,
    error: Option<ErrorBody>,
    message: Option<MessageContent>,
    reasoning: Option<MessageContent>,
    tool: Option<ToolMessage>,
    command: Option<CommandBody>)

  datatype ProtocolMessage = ProtocolMessage(id: string, kind: MessageKind, payload: Payload, from: string, to: string)

  const EmptyPayload := Payload(None, None, None, None, None, None, None)

  /** The variants in the classifier's priority order: field names and wire aliases. */
  const VariantNames: seq<string> := ["heartbeat", "handshake", "error", "message", "reasoning", "tool", "command"]
  const VariantAliases: seq<string> := ["Heartbeat", "Handshake", "Error", "Message", "Reasoning", "Tool", "Command"]

  lemma VariantNamesDistinct()
    ensures forall a, b :: 0 <= a < b < 7 ==> VariantNames[a] != VariantNames[b] && VariantAliases[a] != VariantAliases[b]
    ensures forall a, b :: 0 <= a < 7 && 0 <= b < 7 ==> VariantNames[a] != VariantAliases[b]
    ensures forall a :: 0 <= a < 7 ==> VariantNames[a] != "unknown"
  {
  }

  /** Whether the variant at position `i` of the priority order is populated. */
  predicate HasVariant(p: Payload, i: int) {
    if i == 0 then p.heartbeat.Some?
    else if i == 1 then p.handshake.Some?
    else if i == 2 then p.error.Some?
    else if i == 3 then p.message.Some?
    else if i == 4 then p.reasoning.Some?
    else if i == 5 then p.tool.Some?
    else if i == 6 then p.command.Some?
    else false
  }

  /** Exactly the variant at position `i` is populated. */
  predicate OnlyVariant(p: Payload, i: int) {
    forall j :: 0 <= j < 7 ==> (HasVariant(p, j) <==> j == i)
  }

  /**
    The position of the first populated variant in the priority order of
    `get_payload_type`, 7 when none is.
   */
  function FirstVariant(p: Payload): (k: int)
    ensures 0 <= k <= 7
    ensures k < 7 ==> HasVariant(p, k)
    ensures forall j :: 0 <= j < k ==> !HasVariant(p, j)
  {
    if p.heartbeat.Some? then 0
    else if p.handshake.Some? then 1
    else if p.error.Some? then 2
    else if p.message.Some? then 3
    else if p.reasoning.Some? then 4
    else if p.tool.Some? then 5
    else if p.command.Some? then 6
    else 7
  }

  /** `get_payload_type`: the name of the first populated variant, `"unknown"` when none is. */
  function PayloadType(p: Payload): (r: string)
    ensures r == "unknown" <==> FirstVariant(p) == 7
    ensures FirstVariant(p) < 7 ==> r == VariantNames[FirstVariant(p)]
  {
    VariantNamesDistinct();
    var k := FirstVariant(p);
    if k == 7 then "unknown" else VariantNames[k]
  }

  /** The classifier names variant `i` exactly when `i` is the first populated one. */
  lemma PayloadTypeIff(p: Payload, i: int)
    requires 0 <= i < 7
    ensures PayloadType(p) == VariantNames[i] <==> HasVariant(p, i) && forall j :: 0 <= j < i ==> !HasVariant(p, j)
    ensures PayloadType(p) == "unknown" <==> forall j :: 0 <= j < 7 ==> !HasVariant(p, j)
  {
    VariantNamesDistinct();
    var k := FirstVariant(p);
    if k < i {
      assert HasVariant(p, k);
    }
  }

  lemma PayloadTypeOfOnlyVariant(p: Payload, i: int)
    requires 0 <= i < 7 && OnlyVariant(p, i)
    ensures PayloadType(p) == VariantNames[i]
  {
    PayloadTypeIff(p, i);
  }

  // ---------------------------------------------------------------------
  // Serialisation (`model_dump`, `to_dict`)
  // ---------------------------------------------------------------------

  function HandshakeJson(h: HandshakeRequest, byAlias: bool): Json {
    JObj(map[(if byAlias then "projectId" else "project_id") := JStr(h.projectId),
             (if byAlias then "chatId" else "chat_id") := JStr(h.chatId)])
  }

  function ErrorJson(e: ErrorBody, byAlias: bool): Json {
    JObj(map[(if byAlias then "errorCode" else "error_code") := JStr(e.errorCode),
             "message" := JStr(e.message),
             "data" := OptObj(e.data),
             "uuid" := JStr(e.uuid)])
  }

  function ContentJson(c: MessageContent): Json {
    JObj(map["role" := JStr(RoleName(c.role)),
             "message_type" := JStr(c.messageType),
             "content" := JStr(c.content),
             "metadata" := OptObj(c.metadata)])
  }

  function ToolCallJson(t: ToolCall): Json {
    JObj(map["id" := JStr(t.id), "call_id" := JStr(t.callId), "name" := JStr(t.name), "arguments" := JObj(t.arguments)])
  }

  function ToolCallsJson(ts: seq<ToolCall>): (r: seq<Json>)
    ensures |r| == |ts|
  {
    if ts == [] then [] else [ToolCallJson(ts[0])] + ToolCallsJson(ts[1..])
  }

  function ToolJson(t: ToolMessage): Json {
    JObj(map["tool_calls" := JArr(ToolCallsJson(t.toolCalls)), "reasoning" := OptStr(t.reasoning)])
  }

  function ArgumentsJson(a: CommandArguments): Json {
    match a
    case SetArgs(k, v) => JObj(map["key" := JStr(SetKeyName(k)), "value" := JStr(v)])
    case GetArgs(v) => JObj(map["value" := JStr(v)])
    case RawArgs(f) => JObj(f)
  }

  function CommandJson(c: CommandBody): Json {
    JObj(map["command" := JStr(CommandName(c.command)), "arguments" := ArgumentsJson(c.arguments)])
  }

  /** The key a variant is dumped under. */
  function VariantKey(i: int, byAlias: bool): string
    requires 0 <= i < 7
  {
    if byAlias then VariantAliases[i] else VariantNames[i]
  }

  function VariantJson(p: Payload, i: int, byAlias: bool): Json
    requires 0 <= i < 7 && HasVariant(p, i)
  {
    if i == 0 then JObj(map[])
    else if i == 1 then HandshakeJson(p.handshake.value, byAlias)
    else if i == 2 then ErrorJson(p.error.value, byAlias)
    else if i == 3 then ContentJson(p.message.value)
    else if i == 4 then ContentJson(p.reasoning.value)
    else if i == 5 then ToolJson(p.tool.value)
    else CommandJson(p.command.value)
  }

  /** The dumped value of the variant at position `i`, `None` when it is not populated. */
  function VariantValue(p: Payload, i: int, byAlias: bool): Option<Json>
    requires 0 <= i < 7
  {
    if HasVariant(p, i) then Some(VariantJson(p, i, byAlias)) else None
  }

  /** The payload's fields in declaration order, as (dumped key, value) pairs. */
  function Entries(p: Payload, byAlias: bool): (e: seq<(string, Option<Json>)>)
    ensures |e| == 7
    ensures forall i :: 0 <= i < 7 ==> e[i] == (VariantKey(i, byAlias), VariantValue(p, i, byAlias))
  {
    seq(7, i requires 0 <= i < 7 => (VariantKey(i, byAlias), VariantValue(p, i, byAlias)))
  }

  predicate DistinctKeys(e: seq<(string, Option<Json>)>) {
    forall a, b :: 0 <= a < b < |e| ==> e[a].0 != e[b].0
  }

  /** `{k: v for k, v in data.items() if v is not None}`. */
  function DropNone(e: seq<(string, Option<Json>)>): (d: map<string, Json>)
    ensures forall k :: k in d ==> exists a :: 0 <= a < |e| && e[a].0 == k && e[a].1.Some?
  {
    if e == [] then map[]
    else
      var rest := DropNone(e[..|e| - 1]);
      var last := e[|e| - 1];
      if last.1.Some? then rest[last.0 := last.1.value] else rest
  }

  lemma {:induction false} DropNoneLookup(e: seq<(string, Option<Json>)>, i: int)
    requires DistinctKeys(e) && 0 <= i < |e|
    ensures Get(DropNone(e), e[i].0) == e[i].1
  {
    var init := e[..|e| - 1];
    if i < |e| - 1 {
      assert init[i] == e[i];
      assert DistinctKeys(init);
      DropNoneLookup(init, i);
    } else {
      DropNoneAbsent(init, e[i].0);
    }
  }

  lemma {:induction false} DropNoneAbsent(e: seq<(string, Option<Json>)>, k: string)
    requires forall a :: 0 <= a < |e| ==> e[a].0 != k
    ensures k !in DropNone(e)
  {
  }

  /** `ProtocolPayload.model_dump`: the variants left as `None` are dropped. */
  function PayloadDump(p: Payload, byAlias: bool): (d: map<string, Json>)
    ensures forall k :: k in d ==> exists i :: 0 <= i < 7 && k == VariantKey(i, byAlias) && HasVariant(p, i)
  {
    DropNone(Entries(p, byAlias))
  }

  /**
    The dump holds exactly the keys of the populated variants, each with
    that variant's value, and never the other spelling of a key.
   */
  lemma PayloadDumpLookup(p: Payload, byAlias: bool, i: int)
    requires 0 <= i < 7
    ensures Get(PayloadDump(p, byAlias), VariantKey(i, byAlias)) == VariantValue(p, i, byAlias)
    ensures VariantKey(i, !byAlias) !in PayloadDump(p, byAlias)
    ensures forall k :: k in PayloadDump(p, byAlias) ==> exists j :: 0 <= j < 7 && k == VariantKey(j, byAlias) && HasVariant(p, j)
  {
    VariantNamesDistinct();
    var e := Entries(p, byAlias);
    DropNoneLookup(e, i);
    DropNoneAbsent(e, VariantKey(i, !byAlias));
  }

  /**
    `ProtocolMessage.model_dump`: five keys; the sender is always under
    `from`, the kind is the enum's string value.
   */
  function Dump(m: ProtocolMessage, byAlias: bool): (j: Json)
    ensures j.JObj? && j.fields.Keys == {"id", "kind", "payload", "from", "to"}
    ensures j.fields["kind"] == JStr(KindName(m.kind)) && j.fields["from"] == JStr(m.from)
  {
    JObj(map["id" := JStr(m.id),
             "kind" := JStr(KindName(m.kind)),
             "payload" := JObj(PayloadDump(m.payload, byAlias)),
             "from" := JStr(m.from),
             "to" := JStr(m.to)])
  }

  /** `to_dict`: the wire form, payload keys as aliases. */
  function ToDict(m: ProtocolMessage): (j: Json)
    ensures j.JObj? && "from" in j.fields && j.fields["from"] == JStr(m.from)
    ensures Representable(m) ==> ParseMessage(j) == Success(m)
  {
    assert Representable(m) ==> ParseMessage(Dump(m, true)) == Success(m) by {
      if Representable(m) {
        RoundTrip(m, true);
      }
    }
    Dump(m, true)
  }

  // ---------------------------------------------------------------------
  // Construction
  // ---------------------------------------------------------------------

  /** `ProtocolMessage.create`: the supplied id unless it is missing or empty, else a fresh one. */
  function Create(kind: MessageKind, payload: Payload, from: string, to: string, messageId: Option<string>, freshId: string): (m: ProtocolMessage)
    ensures m.kind == kind && m.payload == payload && m.from == from && m.to == to
    ensures messageId.Some? && messageId.value != "" ==> m.id == messageId.value
    ensures messageId.None? || messageId.value == "" ==> m.id == freshId
  {
    ProtocolMessage(if messageId.Some? && messageId.value != "" then messageId.value else freshId, kind, payload, from, to)
  }

  /** `create_handshake_message`. */
  function CreateHandshakeMessage(projectId: string, chatId: string, from: string, to: string, messageId: Option<string>, freshId: string): (m: ProtocolMessage)
    ensures m.kind == Handshake && OnlyVariant(m.payload, 1)
    ensures m.payload.handshake == Some( HandshakeRequest(projectId, chatId))
    ensures m.from == from && m.to == to
  {
    Create(Handshake, EmptyPayload.(handshake := Some(HandshakeRequest(projectId, chatId))), from, to, messageId, freshId)
  }

  /** `create_text_message`. */
  function CreateTextMessage(role: MessageRole, content: string, messageType: string, from: string, to: string,
                             messageId: Option<string>, metadata: Option<map<string, Json>>, freshId: string): (m: ProtocolMessage)
    ensures m.kind == Message && OnlyVariant(m.payload, 3)
    ensures m.payload.message == Some(MessageContent(role, messageType, content, metadata))
    ensures m.from == from && m.to == to
  {
    Create(Message, EmptyPayload.(message := Some(MessageContent(role, messageType, content, metadata))), from, to, messageId, freshId)
  }

  /** `create_text_message` with its defaults: type `text`, from `server`, to `client`. */
  function TextMessage(role: MessageRole, content: string, freshId: string): (m: ProtocolMessage)
    ensures m == CreateTextMessage(role, content, "text", "server", "client", None, None, freshId)
    ensures m.id == freshId && m.payload.message.Some? && m.payload.message.value.messageType == "text"
    ensures m.from == "server" && m.to == "client"
  {
    CreateTextMessage(role, content, "text", "server", "client", None, None, freshId)
  }

  /**
    `create_error_message`: kind `Error`, the given code, text and data,
    `errorUuid` standing for the `uuid4()` drawn for the error body and
    `freshId` for the one drawn for the envelope.
   */
  function CreateErrorMessage(errorCode: string, message: string, data: Option<map<string, Json>>, from: string, to: string,
                              errorUuid: string, freshId: string): (m: ProtocolMessage)
    ensures m.kind == Error && OnlyVariant(m.payload, 2)
    ensures m.payload.error == Some(ErrorBody(errorCode, message, data, errorUuid))
    ensures m.id == freshId && m.from == from && m.to == to
  {
    Create(Error, EmptyPayload.(error := Some(ErrorBody(errorCode, message, data, errorUuid))), from, to, None, freshId)
  }

  // ---------------------------------------------------------------------
  // Parsing (`model_validate`)
  // ---------------------------------------------------------------------

  /** A field looked up by its alias first, then (populate_by_name) by its name. */
  function Lookup(d: map<string, Json>, alias: string, name: string): Option<Json> {
    if alias in d then Some(d[alias]) else if name in d then Some(d[name]) else None
  }

  /** An optional field: missing and `null` both read as `None`. */
  function OptionalField(d: map<string, Json>, alias: string, name: string): Option<Json> {
    match Lookup(d, alias, name)
    case Some(JNull) => None
    case other => other
  }

  function RequiredString(d: map<string, Json>, alias: string, name: string): Result<string> {
    match Lookup(d, alias, name)
    case Some(JStr(s)) => Success(s)
    case _ => Failure("field " + name + " must be a string")
  }

  function OptionalString(d: map<string, Json>, key: string): Result<Option<string>> {
    match OptionalField(d, key, key)
    case None => Success(None)
    case Some(JStr(s)) => Success(Some(s))
    case _ => Failure("field " + key + " must be a string or null")
  }

  function OptionalObject(d: map<string, Json>, key: string): Result<Option<map<string, Json>>> {
    match OptionalField(d, key, key)
    case None => Success(None)
    case Some(JObj(f)) => Success(Some(f))
    case _ => Failure("field " + key + " must be an object or null")
  }

  function RequiredObject(d: map<string, Json>, key: string): Result<map<string, Json>> {
    match Lookup(d, key, key)
    case Some(JObj(f)) => Success(f)
    case _ => Failure("field " + key + " must be an object")
  }

  function ParseHeartbeat(j: Json): Result<HeartbeatBody> {
    if j.JObj? then Success(HeartbeatBody) else Failure("heartbeat must be an object")
  }

  function ParseHandshake(j: Json): Result<HandshakeRequest> {
    if !j.JObj? then Failure("handshake must be an object")
    else
      var p :- RequiredString(j.fields, "projectId", "project_id");
      var c :- RequiredString(j.fields, "chatId", "chat_id");
      Success(HandshakeRequest(p, c))
  }

  function ParseError(j: Json): Result<ErrorBody> {
    if !j.JObj? then Failure("error must be an object")
    else
      var code :- RequiredString(j.fields, "errorCode", "error_code");
      var msg :- RequiredString(j.fields, "message", "message");
      var data :- OptionalObject(j.fields, "data");
      var uuid :- RequiredString(j.fields, "uuid", "uuid");
      Success(ErrorBody(code, msg, data, uuid))
  }

  function ParseContent(j: Json): Result<MessageContent> {
    if !j.JObj? then Failure("message content must be an object")
    else
      var roleText :- RequiredString(j.fields, "role", "role");
      var role :- match ParseRole(roleText) { case Some(r) => Success(r) case None => Failure("invalid role") };
      var messageType :- RequiredString(j.fields, "message_type", "message_type");
      var content :- RequiredString(j.fields, "content", "content");
      var metadata :- OptionalObject(j.fields, "metadata");
      Success(MessageContent(role, messageType, content, metadata))
  }

  function ParseToolCall(j: Json): Result<ToolCall> {
    if !j.JObj? then Failure("tool call must be an object")
    else
      var id :- RequiredString(j.fields, "id", "id");
      var callId :- RequiredString(j.fields, "call_id", "call_id");
      var name :- RequiredString(j.fields, "name", "name");
      var arguments :- RequiredObject(j.fields, "arguments");
      Success(ToolCall(id, callId, name, arguments))
  }

  function ParseToolCalls(items: seq<Json>): (r: Result<seq<ToolCall>>)
    ensures r.Success? ==> |r.value| == |items|
  {
    if items == [] then Success([])
    else
      var first :- ParseToolCall(items[0]);
      var rest :- ParseToolCalls(items[1..]);
      Success([first] + rest)
  }

  function ParseTool(j: Json): Result<ToolMessage> {
    if !j.JObj? then Failure("tool message must be an object")
    else
      var calls :- match Lookup(j.fields, "tool_calls", "tool_calls") {
        case Some(JArr(items)) => ParseToolCalls(items)
        case _ => Failure("tool_calls must be a list")
      };
      var reasoning :- OptionalString(j.fields, "reasoning");
      Success(ToolMessage(calls, reasoning))
  }

  /** What `Command.validate_arguments` leaves in `values["arguments"]`. */
  datatype PreArguments = Typed(args: CommandArguments) | Untouched(raw: Option<Json>)

  /**
    `Command.validate_arguments`: when `command` and `arguments` are truthy
    and `arguments` is a dict, a `SetCommandArgument` wrapper becomes typed
    Set arguments and a `GetCommandArgument` wrapper typed Get arguments (a
    malformed wrapper raises); anything else passes through untouched.
   */
  function ValidateArguments(values: map<string, Json>): (r: Result<PreArguments>)
    ensures r.Success? && r.value.Untouched? ==> r.value.raw == Get(values, "arguments")
    ensures r.Failure? || r.value.Typed? ==>
      && Get(values, "arguments").Some? && Get(values, "arguments").value.JObj?
      && ("SetCommandArgument" in values["arguments"].fields || "GetCommandArgument" in values["arguments"].fields)
    ensures r.Success? && r.value.Typed? ==> r.value.args.SetArgs? || r.value.args.GetArgs?
  {
    var command := Get(values, "command");
    var arguments := Get(values, "arguments");
    if command.Some? && Truthy(command.value) && arguments.Some? && arguments.value.JObj? && Truthy(arguments.value) then
      var args := arguments.value.fields;
      if "SetCommandArgument" in args then
        match args["SetCommandArgument"]
        case JObj(s) =>
          if "key" in s && "value" in s then
            match (s["key"], s["value"])
            case (JStr(k), JStr(v)) =>
              (match ParseSetKey(k)
               case Some(key) => Success(Typed(SetArgs(key, v)))
               case None => Failure("invalid SetCommandArgument key"))
            case _ => Failure("SetCommandArgument fields must be strings")
          else Failure("SetCommandArgument needs key and value")
        case _ => Failure("SetCommandArgument must be a dict")
      else if "GetCommandArgument" in args then
        match args["GetCommandArgument"]
        case JObj(g) =>
          if "value" in g then
            match g["value"]
            case JStr(v) => Success(Typed(GetArgs(v)))
            case _ => Failure("GetCommandArgument value must be a string")
          else Failure("GetCommandArgument needs value")
        case _ => Failure("GetCommandArgument must be a dict")
      else Success(Untouched(arguments))
    else Success(Untouched(arguments))
  }

  /** `Command.model_validate`: the pre-validator first, then the command name, then the arguments. */
  function ParseCommand(j: Json): (r: Result<CommandBody>)
    ensures !j.JObj? ==> r.Failure?
    ensures r.Success? ==>
      && j.JObj? && ValidateArguments(j.fields).Success?
      && RequiredString(j.fields, "command", "command").Success?
      && ParseCommandType(RequiredString(j.fields, "command", "command").value) == Some(r.value.command)
      && (ValidateArguments(j.fields).value.Typed? ==> r.value.arguments == ValidateArguments(j.fields).value.args)
      && (ValidateArguments(j.fields).value.Untouched? ==> r.value.arguments.RawArgs?)
  {
    if !j.JObj? then Failure("command must be an object")
    else
      var pre :- ValidateArguments(j.fields);
      var name :- RequiredString(j.fields, "command", "command");
      var command :- match ParseCommandType(name) { case Some(c) => Success(c) case None => Failure("invalid command") };
      var arguments :- match pre {
        case Typed(a) => Success(a)
        case Untouched(Some(JObj(f))) => Success(RawArgs(f))
        case Untouched(_) => Failure("arguments must be an object")
      };
      Success(CommandBody(command, arguments))
  }

  function ParseOptional<T>(f: Option<Json>, parse: Json -> Result<T>): (r: Result<Option<T>>)
    ensures r.Success? ==> (r.value.Some? <==> f.Some?)
  {
    match f
    case None => Success(None)
    case Some(v) =>
      var x :- parse(v);
      Success(Some(x))
  }

  /** `ProtocolPayload.model_validate`: each variant read by its alias or its field name. */
  function ParsePayload(j: Json): (r: Result<Payload>)
    ensures !j.JObj? ==> r.Failure?
    ensures r.Success? ==> forall i :: 0 <= i < 7 ==>
      (HasVariant(r.value, i) <==> OptionalField(j.fields, VariantAliases[i], VariantNames[i]).Some?)
  {
    if !j.JObj? then Failure("payload must be an object")
    else
      var d := j.fields;
      var hb :- ParseOptional(OptionalField(d, "Heartbeat", "heartbeat"), ParseHeartbeat);
      var hs :- ParseOptional(OptionalField(d, "Handshake", "handshake"), ParseHandshake);
      var er :- ParseOptional(OptionalField(d, "Error", "error"), ParseError);
      var ms :- ParseOptional(OptionalField(d, "Message", "message"), ParseContent);
      var rs :- ParseOptional(OptionalField(d, "Reasoning", "reasoning"), ParseContent);
      var tl :- ParseOptional(OptionalField(d, "Tool", "tool"), ParseTool);
      var cm :- ParseOptional(OptionalField(d, "Command", "command"), ParseCommand);
      Success(Payload(hb, hs, er, ms, rs, tl, cm))
  }

  /** `ProtocolMessage.model_validate` on a received JSON value. */
  function ParseMessage(j: Json): (r: Result<ProtocolMessage>)
    ensures !j.JObj? ==> r.Failure?
    ensures j.JObj? && "payload" !in j.fields ==> r.Failure?
    ensures r.Success? ==>
      && j.JObj?
      && RequiredString(j.fields, "id", "id") == Success(r.value.id)
      && RequiredString(j.fields, "kind", "kind").Success?
      && ParseKind(RequiredString(j.fields, "kind", "kind").value) == Some(r.value.kind)
      && "payload" in j.fields && ParsePayload(j.fields["payload"]) == Success(r.value.payload)
      && RequiredString(j.fields, "from", "from_") == Success(r.value.from)
      && RequiredString(j.fields, "to", "to") == Success(r.value.to)
  {
    if !j.JObj? then Failure("message must be an object")
    else
      var d := j.fields;
      var id :- RequiredString(d, "id", "id");
      var kindText :- RequiredString(d, "kind", "kind");
      var kind :- match ParseKind(kindText) { case Some(k) => Success(k) case None => Failure("invalid kind") };
      var payload :- match Get(d, "payload") { case Some(p) => ParsePayload(p) case None => Failure("payload is required") };
      var from :- RequiredString(d, "from", "from_");
      var to :- RequiredString(d, "to", "to");
      Success(ProtocolMessage(id, kind, payload, from, to))
  }

  // ---------------------------------------------------------------------
  // Round trip
  // ---------------------------------------------------------------------

  /**
    The messages the dictionary form describes faithfully: typed command
    arguments dump to a plain dictionary, which parses back as a plain
    dictionary, and a plain dictionary must not carry a wrapper key.
   */
  predicate Representable(m: ProtocolMessage) {
    m.payload.command.Some? ==>
      && m.payload.command.value.arguments.RawArgs?
      && "SetCommandArgument" !in m.payload.command.value.arguments.fields
      && "GetCommandArgument" !in m.payload.command.value.arguments.fields
  }

  lemma ToolCallRoundTrip(t: ToolCall)
    ensures ParseToolCall(ToolCallJson(t)) == Success(t)
  {
  }

  lemma {:induction false} ToolCallsRoundTrip(ts: seq<ToolCall>)
    ensures ParseToolCalls(ToolCallsJson(ts)) == Success(ts)
  {
    if ts != [] {
      var items := ToolCallsJson(ts);
      assert items[0] == ToolCallJson(ts[0]);
      assert items[1..] == ToolCallsJson(ts[1..]);
      ToolCallRoundTrip(ts[0]);
      ToolCallsRoundTrip(ts[1..]);
      assert [ts[0]] + ts[1..] == ts;
    }
  }

  lemma HandshakeRoundTrip(h: HandshakeRequest, byAlias: bool)
    ensures ParseHandshake(HandshakeJson(h, byAlias)) == Success(h)
  {
  }

  lemma ErrorRoundTrip(e: ErrorBody, byAlias: bool)
    ensures ParseError(ErrorJson(e, byAlias)) == Success(e)
  {
  }

  lemma ContentRoundTrip(c: MessageContent)
    ensures ParseContent(ContentJson(c)) == Success(c)
  {
    NamesRoundTrip(c.role, CmdSet, KeyRole, Handshake);
  }

  lemma ToolRoundTrip(t: ToolMessage)
    ensures ParseTool(ToolJson(t)) == Success(t)
  {
    ToolCallsRoundTrip(t.toolCalls);
  }

  lemma CommandRoundTrip(c: CommandBody)
    requires c.arguments.RawArgs?
    requires "SetCommandArgument" !in c.arguments.fields && "GetCommandArgument" !in c.arguments.fields
    ensures ParseCommand(CommandJson(c)) == Success(c)
  {
    NamesRoundTrip(User, c.command, KeyRole, Handshake);
  }

  lemma ParseOptionalDumped<T>(f: Option<Json>, parse: Json -> Result<T>, x: Option<T>)
    requires x.None? ==> f.None?
    requires x.Some? ==> f.Some? && parse(f.value) == Success(x.value)
    ensures ParseOptional(f, parse) == Success(x)
  {
  }

  /** How the parser sees the dumped payload at position `i`. */
  lemma DumpedField(p: Payload, byAlias: bool, i: int)
    requires 0 <= i < 7
    ensures OptionalField(PayloadDump(p, byAlias), VariantAliases[i], VariantNames[i]) == VariantValue(p, i, byAlias)
  {
    PayloadDumpLookup(p, byAlias, i);
    if HasVariant(p, i) {
      assert VariantJson(p, i, byAlias).JObj?;
    }
  }

  lemma PayloadRoundTrip(p: Payload, byAlias: bool)
    requires p.command.Some? ==> p.command.value.arguments.RawArgs?
    requires p.command.Some? ==> "SetCommandArgument" !in p.command.value.arguments.fields
    requires p.command.Some? ==> "GetCommandArgument" !in p.command.value.arguments.fields
    ensures ParsePayload(JObj(PayloadDump(p, byAlias))) == Success(p)
  {
    HeartbeatFieldRoundTrip(p, byAlias);
    HandshakeFieldRoundTrip(p, byAlias);
    ErrorFieldRoundTrip(p, byAlias);
    MessageFieldRoundTrip(p, byAlias);
    ReasoningFieldRoundTrip(p, byAlias);
    ToolFieldRoundTrip(p, byAlias);
    CommandFieldRoundTrip(p, byAlias);
  }

  lemma HeartbeatFieldRoundTrip(p: Payload, byAlias: bool)
    ensures ParseOptional(OptionalField(PayloadDump(p, byAlias), "Heartbeat", "heartbeat"), ParseHeartbeat) == Success(p.heartbeat)
  {
    var d := PayloadDump(p, byAlias);
    DumpedField(p, byAlias, 0);
    assert VariantAliases[0] == "Heartbeat" && VariantNames[0] == "heartbeat";
    if p.heartbeat.Some? {
      assert p.heartbeat.value == HeartbeatBody by { match p.heartbeat.value { case HeartbeatBody => } }
    }
    ParseOptionalDumped(OptionalField(d, "Heartbeat", "heartbeat"), ParseHeartbeat, p.heartbeat);
  }

  lemma HandshakeFieldRoundTrip(p: Payload, byAlias: bool)
    ensures ParseOptional(OptionalField(PayloadDump(p, byAlias), "Handshake", "handshake"), ParseHandshake) == Success(p.handshake)
  {
    var d := PayloadDump(p, byAlias);
    DumpedField(p, byAlias, 1);
    if p.handshake.Some? { HandshakeRoundTrip(p.handshake.value, byAlias); }
    ParseOptionalDumped(OptionalField(d, "Handshake", "handshake"), ParseHandshake, p.handshake);
  }

  lemma ErrorFieldRoundTrip(p: Payload, byAlias: bool)
    ensures ParseOptional(OptionalField(PayloadDump(p, byAlias), "Error", "error"), ParseError) == Success(p.error)
  {
    var d := PayloadDump(p, byAlias);
    DumpedField(p, byAlias, 2);
    if p.error.Some? { ErrorRoundTrip(p.error.value, byAlias); }
    ParseOptionalDumped(OptionalField(d, "Error", "error"), ParseError, p.error);
  }

  lemma MessageFieldRoundTrip(p: Payload, byAlias: bool)
    ensures ParseOptional(OptionalField(PayloadDump(p, byAlias), "Message", "message"), ParseContent) == Success(p.message)
  {
    var d := PayloadDump(p, byAlias);
    DumpedField(p, byAlias, 3);
    if p.message.Some? { ContentRoundTrip(p.message.value); }
    ParseOptionalDumped(OptionalField(d, "Message", "message"), ParseContent, p.message);
  }

  lemma ReasoningFieldRoundTrip(p: Payload, byAlias: bool)
    ensures ParseOptional(OptionalField(PayloadDump(p, byAlias), "Reasoning", "reasoning"), ParseContent) == Success(p.reasoning)
  {
    var d := PayloadDump(p, byAlias);
    DumpedField(p, byAlias, 4);
    if p.reasoning.Some? { ContentRoundTrip(p.reasoning.value); }
    ParseOptionalDumped(OptionalField(d, "Reasoning", "reasoning"), ParseContent, p.reasoning);
  }

  lemma ToolFieldRoundTrip(p: Payload, byAlias: bool)
    ensures ParseOptional(OptionalField(PayloadDump(p, byAlias), "Tool", "tool"), ParseTool) == Success(p.tool)
  {
    var d := PayloadDump(p, byAlias);
    DumpedField(p, byAlias, 5);
    if p.tool.Some? { ToolRoundTrip(p.tool.value); }
    ParseOptionalDumped(OptionalField(d, "Tool", "tool"), ParseTool, p.tool);
  }

  lemma CommandFieldRoundTrip(p: Payload, byAlias: bool)
    requires p.command.Some? ==> p.command.value.arguments.RawArgs?
    requires p.command.Some? ==> "SetCommandArgument" !in p.command.value.arguments.fields
    requires p.command.Some? ==> "GetCommandArgument" !in p.command.value.arguments.fields
    ensures ParseOptional(OptionalField(PayloadDump(p, byAlias), "Command", "command"), ParseCommand) == Success(p.command)
  {
    var d := PayloadDump(p, byAlias);
    DumpedField(p, byAlias, 6);
    if p.command.Some? { CommandRoundTrip(p.command.value); }
    ParseOptionalDumped(OptionalField(d, "Command", "command"), ParseCommand, p.command);
  }

  /**
    Parsing the dictionary form gives the message back, whether the payload
    keys are the aliases (`to_dict`) or the field names (`model_dump()`).
   */
  lemma RoundTrip(m: ProtocolMessage, byAlias: bool)
    requires Representable(m)
    ensures ParseMessage(Dump(m, byAlias)) == Success(m)
  {
    PayloadRoundTrip(m.payload, byAlias);
    NamesRoundTrip(User, CmdSet, KeyRole, m.kind);
    DumpHeader(m, byAlias);
  }

  /** The four string fields of the dictionary form read back as they were written. */
  lemma DumpHeader(m: ProtocolMessage, byAlias: bool)
    ensures var d := Dump(m, byAlias).fields;
      && RequiredString(d, "id", "id") == Success(m.id)
      && RequiredString(d, "kind", "kind") == Success(KindName(m.kind))
      && Get(d, "payload") == Some(JObj(PayloadDump(m.payload, byAlias)))
      && RequiredString(d, "from", "from_") == Success(m.from)
      && RequiredString(d, "to", "to") == Success(m.to)
  {
  }

  /** The round trip the websocket test relies on: a text frame survives `to_dict` and `model_validate`. */
  lemma TextMessageRoundTrip(role: MessageRole, content: string, from: string, to: string, messageId: Option<string>, freshId: string)
    ensures ParseMessage(ToDict(CreateTextMessage(role, content, "text", from, to, messageId, None, freshId)))
         == Success(CreateTextMessage(role, content, "text", from, to, messageId, None, freshId))
  {
    RoundTrip(CreateTextMessage(role, content, "text", from, to, messageId, None, freshId), true);
  }

  /** A wrapped `SetCommandArgument` with a known key reaches the command as typed Set arguments. */
  lemma WrappedSetIsTyped(values: map<string, Json>, key: SetKey, value: string, extra: map<string, Json>)
    requires values == map["command" := JStr("Set"), "arguments" := JObj(extra["SetCommandArgument" := JObj(map["key" := JStr(SetKeyName(key)), "value" := JStr(value)])])]
    ensures ParseCommand(JObj(values)) == Success(CommandBody(CmdSet, SetArgs(key, value)))
  {
    NamesRoundTrip(User, CmdSet, key, Handshake);
    assert Truthy(values["arguments"]) by {
      assert "SetCommandArgument" in values["arguments"].fields;
    }
  }

  /** A wrapped `GetCommandArgument` reaches the command as typed Get arguments. */
  lemma WrappedGetIsTyped(values: map<string, Json>, value: string, extra: map<string, Json>)
    requires "SetCommandArgument" !in extra
    requires values == map["command" := JStr("Get"), "arguments" := JObj(extra["GetCommandArgument" := JObj(map["value" := JStr(value)])])]
    ensures ParseCommand(JObj(values)) == Success(CommandBody(CmdGet, GetArgs(value)))
  {
    NamesRoundTrip(User, CmdGet, KeyRole, Handshake);
    assert Truthy(values["arguments"]) by {
      assert "GetCommandArgument" in values["arguments"].fields;
    }
  }

  /** Arguments without either wrapper pass through the pre-validator unchanged. */
  lemma UnwrappedArgumentsUntouched(values: map<string, Json>)
    requires "arguments" in values ==> values["arguments"].JObj?
    requires "arguments" in values ==> "SetCommandArgument" !in values["arguments"].fields && "GetCommandArgument" !in values["arguments"].fields
    ensures ValidateArguments(values) == Success(Untouched(Get(values, "arguments")))
  {
  }
}
