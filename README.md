# qwery-core in Dafny

A model of the core of qwery-core, a Python text-to-SQL agent service.
The service receives chat prompts over websockets, asks an LLM for a SQL
query, executes it, stores the result as CSV and answers with a summary.
Each source file of the core is one Dafny module, and each operation keeps
the form it has in the source:

- `Protocol` (`protocol.dfy`) is the wire protocol of
  `domain/protocols`. It has the `ProtocolMessage` and `ProtocolPayload`
  values, the classification of a payload by its first populated variant,
  the serialisation under alias keys (`to_dict` / `model_dump`), the frame
  constructors, and the pre-validator that turns
  `SetCommandArgument`/`GetCommandArgument` wrappers into typed arguments.
  Parsing the dumped dictionary back gives the same message.
- `ReplyFormat` (`reply_format.dfy`) is the reply-text formatter inside
  `handle_message`. Both websocket managers share it.
- `WebsocketCommon`, `WsPresentation` and `WsServer` are the two
  `WebsocketAgentManager`s.
  - The presentation manager is keyed by project and chat. It keeps chat
    history and database settings.
  - The server manager is keyed by Supabase session. It authenticates the
    bearer header, has a `role` command and keeps a heartbeat handle.
  - Each is a class over the maps the Python object mutates: connections,
    last activity, chat states, and the dictionary order of last activity.
  - Each method appends what it sends (`Sent(ws, frame)`) and closes
    (`Closed(ws, code)`) to an event trace.
  - A value-level function (`Respond`) states what handling one frame does.
    The methods are proved against it.
- `Agent` (`agent.dfy`) covers the prompt pipeline of `agent.py`:
  `_clean_json`, the message list, `_build_sql_runner`, the 20-row
  preview, visualization acceptance, summary composition and
  `EnvUserResolver`.
- `Toon` (`toon.dfy`) is the TOON encoder: value escaping, with its
  inverse, and the line layout.
- `Datasources` (`datasources.dfy`) is `_slugify`,
  `_extract_connection_url` and the two-index `DatasourceStore`. Its class
  invariant says that a project's id set holds exactly the ids of that
  project's records.
- `RateLimit` (`rate_limit.dfy`) is the sliding-window middleware over an
  integer clock. Its main lemma (`SlidingWindow`) covers any sequence of
  requests in time order: an admitted request's client has at most
  `requests_per_minute` admitted requests in the last 60 seconds, and at
  most `requests_per_hour` in the last hour.
- `SupabaseSession` and `SupabaseAuth` are the session and chat-state
  caches, the history conversion, the database-url selection, and the
  token and group handling of the resolver.
- `Core`, `FileSystem` and `Visualization` are the small entities:
  - `RequestContext`, `ToolRegistry` and `AgentMemory`;
  - the `LocalFileSystem` path guard, with `os.path.join`/`normpath` on
    POSIX paths;
  - the input checks of `VisualizeDataTool.execute`.
- `PyStr`, `JsonValue`, `DictOrder` and `Wrappers` hold what the modules
  share:
  - Python string methods;
  - JSON values with Python truthiness;
  - dictionary insertion order;
  - `Option`/`Result`.

Outside code is a parameter of the operation that uses it:

| Outside code | Parameter types |
|---|---|
| LLM | `seq<Message> -> string` |
| `json.loads` | `string -> Option<Json>` |
| Query execution | `(Option<SqlRunner>, Json) -> Result<QueryResult>` |
| `str()` of a list or an object | `Json -> string` |
| `os.path.abspath` / `os.path.exists` on the SQLite path | `string -> string`, `string -> bool` |
| Supabase queries and message service | a `Backend` record of functions, each returning a value or the exception raised |
| `normalize_chat_id` | a `Backend` record of functions |
| Agent prompt handler used by the websocket managers | a handler function |
| Environment | a `map<string, string>` |
| Clock | explicit integer times |
| Fresh uuids | a counter (`FreshId(n)`) |

The two copies of `RequestContext` and `AgentMemory` are modelled once,
in `Core`:
- src/qwery_core/core/__init__.py:20-66
- src/qwery_core/domain/entities/__init__.py:20-56

The two copies of `LocalFileSystem` are modelled once, in `FileSystem`:
- src/qwery_core/core/__init__.py:83-94
- src/qwery_core/infrastructure/filesystem/__init__.py:8-19

## Model

| member | source | states |
|---|---|---|
| Protocol.ParseRole | src/qwery_core/domain/protocols/__init__.py:11-15 | a parsed role name is the wire name of the role it yields |
| Protocol.ParseCommandType | src/qwery_core/domain/protocols/__init__.py:23-27 | a parsed command name is the wire name of the command type it yields |
| Protocol.ParseSetKey | src/qwery_core/domain/protocols/__init__.py:30-36 | a parsed `Set` key is the wire name of the key it yields (six keys, both spellings of the database keys) |
| Protocol.ParseKind | src/qwery_core/domain/protocols/__init__.py:45-55 | a parsed kind is the enum value of the kind it yields |
| Protocol.NamesRoundTrip | src/qwery_core/domain/protocols/__init__.py:11-55 | every role, command type, `Set` key and kind is read back from its own wire name |
| Protocol.VariantNamesDistinct | src/qwery_core/domain/protocols/__init__.py:149-158 | the seven field names are distinct, the seven aliases are distinct, no name is an alias and none is `unknown` |
| Protocol.FirstVariant | src/qwery_core/domain/protocols/__init__.py:175-190 | the position of the first populated variant in the order heartbeat, handshake, error, message, reasoning, tool, command: that one is set and none before it is; 7 when none is |
| Protocol.PayloadType | src/qwery_core/domain/protocols/__init__.py:175-190 | `get_payload_type` is `unknown` exactly when no variant is set, otherwise the name of the first set variant |
| Protocol.PayloadTypeIff | src/qwery_core/domain/protocols/__init__.py:175-190 | both directions: the type is the i-th name iff variant i is set and no earlier one is; it is `unknown` iff no variant is set |
| Protocol.PayloadTypeOfOnlyVariant | src/qwery_core/domain/protocols/__init__.py:175-190 | a payload with exactly one populated variant reports that variant's name |
| Protocol.ToolCallsJson | src/qwery_core/domain/protocols/__init__.py:92-94 | the dump of a tool-call list has one entry per call |
| Protocol.Entries | src/qwery_core/domain/protocols/__init__.py:149-161 | the pydantic dump of a payload lists the seven variants in declaration order, each under its field name or alias with its dumped value or None |
| Protocol.DropNone | src/qwery_core/domain/protocols/__init__.py:160-162 | every key kept by the comprehension is one whose value is not None |
| Protocol.DropNoneLookup | src/qwery_core/domain/protocols/__init__.py:160-162 | with distinct keys, each entry's key maps to its value when it is set and is absent when it is None |
| Protocol.DropNoneAbsent | src/qwery_core/domain/protocols/__init__.py:160-162 | a key that appears in no entry is not in the dump |
| Protocol.PayloadDumpLookup | src/qwery_core/domain/protocols/__init__.py:150-162 | `ProtocolPayload.model_dump` holds exactly the populated variants: each under the chosen key spelling with its value, none under the other spelling, and no other key |
| Protocol.Dump | src/qwery_core/domain/protocols/__init__.py:226-234 | `ProtocolMessage.model_dump` has exactly the keys `id`, `kind`, `payload`, `from` and `to`; `kind` is the enum value and `from` the sender |
| Protocol.DumpHeader | src/qwery_core/domain/protocols/__init__.py:226-234 | the id, kind, payload, sender and receiver are read back from the dump, the sender under `from` |
| Protocol.Create | src/qwery_core/domain/protocols/__init__.py:206-221 | kind, payload, sender and receiver as given; the id is the given `message_id` when it is a non-empty string, otherwise the fresh uuid |
| Protocol.CreateHandshakeMessage | src/qwery_core/domain/protocols/__init__.py:240-256 | kind Handshake, only the handshake variant set, echoing the project and chat ids, sender and receiver as given |
| Protocol.CreateTextMessage | src/qwery_core/domain/protocols/__init__.py:259-282 | kind Message, only the message variant set, with role, type, content and metadata as given |
| Protocol.TextMessage | src/qwery_core/domain/protocols/__init__.py:259-267 | the defaults: message type `text`, from `server`, to `client`, no metadata, a fresh id |
| Protocol.CreateErrorMessage | src/qwery_core/domain/protocols/__init__.py:285-306 | kind Error, only the error variant set, with the given code, message and data and the call's own fresh uuid; the message id is fresh too |
| Protocol.ParseToolCalls | src/qwery_core/domain/protocols/__init__.py:92-94 | a parsed list has one call per item |
| Protocol.ToolCallRoundTrip | src/qwery_core/domain/protocols/__init__.py:78-82 | a tool call is parsed back from its dump |
| Protocol.ToolCallsRoundTrip | src/qwery_core/domain/protocols/__init__.py:92-94 | a list of tool calls is parsed back from its dump |
| Protocol.HandshakeRoundTrip | src/qwery_core/domain/protocols/__init__.py:58-62 | a handshake body is parsed back from its dump, by alias or by field name |
| Protocol.ErrorRoundTrip | src/qwery_core/domain/protocols/__init__.py:65-71 | an error body is parsed back from its dump, by alias or by field name |
| Protocol.ContentRoundTrip | src/qwery_core/domain/protocols/__init__.py:97-101 | a message content is parsed back from its dump |
| Protocol.ToolRoundTrip | src/qwery_core/domain/protocols/__init__.py:92-94 | a tool message is parsed back from its dump |
| Protocol.CommandRoundTrip | src/qwery_core/domain/protocols/__init__.py:126-146 | a command whose arguments are a plain dictionary without wrapper keys is parsed back from its dump |
| Protocol.ParseOptionalDumped | src/qwery_core/domain/protocols/__init__.py:150-156 | an optional field is parsed back: absent gives None, present gives its value |
| Protocol.DumpedField | src/qwery_core/domain/protocols/__init__.py:150-158 | whichever key spelling was dumped, the alias-or-name lookup finds the variant's dumped value |
| Protocol.HeartbeatFieldRoundTrip | src/qwery_core/domain/protocols/__init__.py:150 | the heartbeat variant is parsed back from the payload dump |
| Protocol.HandshakeFieldRoundTrip | src/qwery_core/domain/protocols/__init__.py:151 | the handshake variant is parsed back from the payload dump |
| Protocol.ErrorFieldRoundTrip | src/qwery_core/domain/protocols/__init__.py:152 | the error variant is parsed back from the payload dump |
| Protocol.MessageFieldRoundTrip | src/qwery_core/domain/protocols/__init__.py:153 | the message variant is parsed back from the payload dump |
| Protocol.ReasoningFieldRoundTrip | src/qwery_core/domain/protocols/__init__.py:154 | the reasoning variant is parsed back from the payload dump |
| Protocol.ToolFieldRoundTrip | src/qwery_core/domain/protocols/__init__.py:155 | the tool variant is parsed back from the payload dump |
| Protocol.CommandFieldRoundTrip | src/qwery_core/domain/protocols/__init__.py:156 | the command variant, with plain arguments, is parsed back from the payload dump |
| Protocol.PayloadRoundTrip | src/qwery_core/domain/protocols/__init__.py:149-162 | a payload is parsed back from its dump, whether dumped by alias or by field name |
| Protocol.RoundTrip | src/qwery_core/domain/protocols/__init__.py:193-234 | a message (with plain command arguments) is parsed back from its dump, by alias or by field name |
| Protocol.TextMessageRoundTrip | src/qwery_core/domain/protocols/__init__.py:223-224 | a text message is parsed back from its `to_dict` form |
| Protocol.WrappedSetIsTyped | src/qwery_core/domain/protocols/__init__.py:130-142 | arguments wrapped in `SetCommandArgument` become typed `Set` arguments with that key and value |
| Protocol.UnwrappedArgumentsUntouched | src/qwery_core/domain/protocols/__init__.py:130-146 | arguments with neither wrapper key pass through the pre-validator unchanged |
| Protocol.ValidateArguments | src/qwery_core/domain/protocols/__init__.py:130-146 | arguments with neither wrapper key are left as they are; a failure or a typed result needs an arguments object holding `SetCommandArgument` or `GetCommandArgument`; a typed result is `Set` or `Get` arguments |
| Protocol.ParseCommand | src/qwery_core/domain/protocols/__init__.py:126-146 | a non-object fails; a parsed command has validated arguments and the command type read from the `command` string; typed arguments are the validator's, untouched ones stay raw |
| Protocol.ParsePayload | src/qwery_core/domain/protocols/__init__.py:149-158 | a non-object fails; a parsed payload has a variant exactly when its alias or its field name is present |
| Protocol.ParseMessage | src/qwery_core/domain/protocols/__init__.py:193-205 | a non-object or one without `payload` fails; a parsed message takes its id, kind, payload, sender (`from` or `from_`) and receiver from the fields |
| Protocol.PayloadDump | src/qwery_core/domain/protocols/__init__.py:149-162 | every key of the dump is the alias or field name of a variant the payload holds |
| Protocol.ToDict | src/qwery_core/domain/protocols/__init__.py:223-224 | the dictionary is an object whose `from` is the sender; a representable message is parsed back from it |
| Protocol.WrappedGetIsTyped | src/qwery_core/domain/protocols/__init__.py:130-146 | arguments wrapped in `GetCommandArgument` become typed `Get` arguments with that value |
| ReplyFormat.RowLines | src/qwery_core/presentation/websocket/__init__.py:200-201 | one line per row, each the row's values joined by ", " |
| ReplyFormat.PreviewBlock | src/qwery_core/presentation/websocket/__init__.py:194-203 | the preview block is empty exactly when the columns or the rows are empty; otherwise a blank line, `Preview:`, the column line, at most 5 row lines in order and the truncation line only when `truncated` is set |
| ReplyFormat.ShownRowLines | src/qwery_core/presentation/websocket/__init__.py:200-201 | the loop over `preview_rows[:5]` produces the row lines of the first five rows |
| ReplyFormat.AppendPreview | src/qwery_core/presentation/websocket/__init__.py:194-203 | the display lines gain exactly the preview block |
| ReplyFormat.AppendHead | src/qwery_core/presentation/websocket/__init__.py:179-192 | the summary, csv notice and SQL lines appended in that order |
| ReplyFormat.FormatReply | src/qwery_core/presentation/websocket/__init__.py:179-213 | the reply text is the non-empty display lines joined by "\n" |
| ReplyFormat.FallbackOnlyWhenNothingElse | src/qwery_core/presentation/websocket/__init__.py:205-206 | both directions: there are no blocks iff the summary is empty, there is no csv name and no SQL, and columns or rows are missing; then the single line is `Query executed successfully.` |
| ReplyFormat.SummaryComesFirst | src/qwery_core/presentation/websocket/__init__.py:180-182 | a non-empty stripped summary is the first display line and the first line of the text |
| ReplyFormat.DisplayHasText | src/qwery_core/presentation/websocket/__init__.py:179-210 | some display line is non-empty |
| ReplyFormat.ReplyTextNonEmpty | src/qwery_core/presentation/websocket/__init__.py:205-210 | the non-empty display lines, joined by "\n", are never empty |
| ReplyFormat.HeadIsDisplayed | src/qwery_core/presentation/websocket/__init__.py:179-206 | every summary, notice and SQL line is a display line |
| ReplyFormat.LineInReply | src/qwery_core/presentation/websocket/__init__.py:210 | every non-empty display line occurs in the text |
| ReplyFormat.NoticeNamesFile | src/qwery_core/presentation/websocket/__init__.py:186 | the csv notice names the file |
| ReplyFormat.ReplyNamesCsvFile | src/qwery_core/presentation/websocket/__init__.py:180-186 | whenever a csv name is set, the text mentions it, from the summary or from the notice |
| ReplyFormat.ReplyShowsSql | src/qwery_core/presentation/websocket/__init__.py:188-192 | a set SQL text appears in the reply, under an `SQL:` line |
| ReplyFormat.PreviewIsBounded | src/qwery_core/presentation/websocket/__init__.py:196-203 | the preview block has at most 3 + 5 + 1 lines |
| ReplyFormat.DisplayLines | src/qwery_core/presentation/websocket/__init__.py:179-206 | never empty, and begins with the summary, notice and SQL lines |
| ReplyFormat.ReplyText | src/qwery_core/presentation/websocket/__init__.py:179-210 | the reply text is never empty |
| WebsocketCommon.ChatKeyParts | src/qwery_core/presentation/websocket/__init__.py:340-342 | the chat key is the first part, a colon, then the second part |
| WebsocketCommon.ChatKeyCollides | src/qwery_core/presentation/websocket/__init__.py:340-342 | two different pairs can share a key when a part holds a colon (`p` + `a:b` and `p:a` + `b`) |
| WebsocketCommon.ChatKeyInjective | src/qwery_core/server_components/websocket.py:331-333 | when the first parts have no colon, equal keys mean equal parts |
| WebsocketCommon.FreshId | src/qwery_core/domain/protocols/__init__.py:216 | a fresh id is never empty, so `message_id or uuid4()` never falls back twice |
| WebsocketCommon.FreshIdsDiffer | src/qwery_core/domain/protocols/__init__.py:216 | ids drawn at different counter values differ |
| WebsocketCommon.StopHeartbeat | src/qwery_core/presentation/websocket/__init__.py:317-322 | afterwards no task is left; the socket and connection time are kept; a cancel is recorded only when a task was running |
| WebsocketCommon.StopHeartbeatIdempotent | src/qwery_core/server_components/websocket.py:308-313 | a second stop changes nothing and records nothing |
| WebsocketCommon.BroadcastEvents | src/qwery_core/presentation/websocket/__init__.py:292-309 | at most one send per registered connection; every send carries the frame and no excluded socket gets one |
| WebsocketCommon.BroadcastReachesAll | src/qwery_core/presentation/websocket/__init__.py:304-307 | every registered connection not excluded receives the frame |
| WebsocketCommon.BroadcastOnlyRegistered | src/qwery_core/server_components/websocket.py:291-300 | only registered sockets receive it; with no exclusion there is exactly one send per connection |
| WebsocketCommon.SetKeepsOthers | src/qwery_core/presentation/websocket/__init__.py:72 | setting one key's connection list leaves every other key's list unchanged |
| WebsocketCommon.FirstIndex | src/qwery_core/presentation/websocket/__init__.py:92-96 | the position of the first connection on the socket: it matches and none before it does; None when none matches |
| WebsocketCommon.RemoveFirst | src/qwery_core/presentation/websocket/__init__.py:92-96 | the list is unchanged when the socket is absent, one shorter otherwise |
| WebsocketCommon.RemoveFirstKeepsOthers | src/qwery_core/presentation/websocket/__init__.py:92-96 | every connection on another socket stays; exactly the first matching connection is removed (as multisets) |
| WebsocketCommon.ReplayHistory | src/qwery_core/presentation/websocket/__init__.py:242-256 | at most one frame per record, and one per record when the replay completes |
| WebsocketCommon.ReplayFrom | src/qwery_core/presentation/websocket/__init__.py:245-256 | the same bounds from any record on |
| WebsocketCommon.FirstInvalid | src/qwery_core/presentation/websocket/__init__.py:246 | the first record from `i` on whose role `MessageRole(...)` rejects: all before it parse |
| WebsocketCommon.FramesFrom | src/qwery_core/presentation/websocket/__init__.py:245-256 | one frame per record up to the first invalid one |
| WebsocketCommon.ReplayClosedForm | src/qwery_core/presentation/websocket/__init__.py:245-256 | the replay sends exactly the frames up to the first invalid role, and completes iff no role is invalid |
| WebsocketCommon.ReplayHistoryPrefix | src/qwery_core/presentation/websocket/__init__.py:245-256 | the k-th frame replays the k-th record with the k-th fresh id; the replay stops exactly at the first record whose role does not parse |
| WebsocketCommon.ReplayStep | src/qwery_core/presentation/websocket/__init__.py:245-256 | one more valid record adds exactly its frame at the end of the sent prefix |
| WebsocketCommon.ReplayStop | src/qwery_core/presentation/websocket/__init__.py:245-246 | the replay ends after `i` frames when record `i` is the end or has an invalid role, and completes only at the end |
| WebsocketCommon.ReplayHistoryComplete | src/qwery_core/presentation/websocket/__init__.py:242-256 | with every role valid, one frame per record in order, each with the record's role and content |
| WebsocketCommon.Classify | src/qwery_core/presentation/websocket/__init__.py:119-149 | the dispatch of `handle_message`, each branch iff its own test holds and every earlier test fails: heartbeat by kind or payload, then a command frame with a command, then a missing message, then a non-user role, else a prompt |
| WebsocketCommon.HeartbeatTypeIff | src/qwery_core/presentation/websocket/__init__.py:119-121 | the payload type is `heartbeat` iff the heartbeat variant is set |
| WebsocketCommon.ExpiredKeys | src/qwery_core/presentation/websocket/__init__.py:226-231 | a key is expired iff it has a last activity more than 3600 seconds before now; no key twice |
| WebsocketCommon.Without | src/qwery_core/presentation/websocket/__init__.py:238-239 | the insertion order without the removed keys, keeping the order |
| WebsocketCommon.UnstampWithout | src/qwery_core/presentation/websocket/__init__.py:239 | popping one more key from the activity order is removing it from the set removed |
| WebsocketCommon.FindConnection | src/qwery_core/presentation/websocket/__init__.py:92-96 | the loop over the list stops at the first connection on the socket, or at the end |
| WebsocketCommon.JoinThenLeave | src/qwery_core/presentation/websocket/__init__.py:72-99 | after a connect then a disconnect of the same socket the key has as many connections as before, and is removed iff it had none |
| WebsocketCommon.ExpireStep | src/qwery_core/presentation/websocket/__init__.py:232-240 | expiring one more key adds exactly its closes and leaves the other keys' lists as they were |
| WebsocketCommon.SentTo | src/qwery_core/presentation/websocket/__init__.py:311-315 | the frames one socket received, at most one per event |
| WebsocketCommon.SentToAppend | src/qwery_core/presentation/websocket/__init__.py:311-315 | what a socket receives from two event lists in sequence is what it receives from each, in order |
| WebsocketCommon.SentToNone | src/qwery_core/presentation/websocket/__init__.py:311-315 | a socket that no event names receives nothing |
| WebsocketCommon.SentToIncludes | src/qwery_core/presentation/websocket/__init__.py:311-315 | a frame sent to a socket is among what it received |
| WebsocketCommon.CleanupClosesExpired | src/qwery_core/presentation/websocket/__init__.py:232-237 | every connection of an expired key is closed with 1001 |
| WebsocketCommon.CloseAllCloses | src/qwery_core/presentation/websocket/__init__.py:234-237 | every connection of the list is closed with 1001 |
| WebsocketCommon.CleanupClosesOnlyExpired | src/qwery_core/presentation/websocket/__init__.py:232-237 | every cleanup event concerns a connection of an expired key |
| WebsocketCommon.CloseAllFrom | src/qwery_core/presentation/websocket/__init__.py:234-237 | every close event concerns a connection of the list |
| WebsocketCommon.ChatKey | src/qwery_core/presentation/websocket/__init__.py:340-342 | the key is one longer than its two parts, with a colon right after the first |
| WsPresentation.WrittenRolesParse | src/qwery_core/presentation/websocket/__init__.py:216-246 | a history holding only the `user` and `assistant` roles this manager writes replays without a role error |
| WsPresentation.CommandEffect | src/qwery_core/presentation/websocket/__init__.py:258-279 | a command has an effect iff it is `Set` with typed arguments and one of the four database keys; the new url is the argument value and the reply text is not empty |
| WsPresentation.ConnectKeepsWellFormed | src/qwery_core/presentation/websocket/__init__.py:66-73 | `connect` keeps the manager invariant: listed keys have connections with running heartbeats, connected keys are stamped, stamped keys have chat states |
| WsPresentation.HandleKeepsWellFormed | src/qwery_core/presentation/websocket/__init__.py:111-117 | stamping a key and storing its new chat state keeps the invariant |
| WsPresentation.ShrinkKeepsWellFormed | src/qwery_core/presentation/websocket/__init__.py:95 | removing connections from a list that stays non-empty keeps the invariant |
| WsPresentation.DropKeepsWellFormed | src/qwery_core/presentation/websocket/__init__.py:97-99 | popping a key from the connection and activity dictionaries keeps the invariant |
| WsPresentation.DisconnectKeepsWellFormed | src/qwery_core/presentation/websocket/__init__.py:88-99 | both outcomes of `disconnect` keep the invariant: the emptied key popped, or the shortened list stored |
| WsPresentation.ExpireAllKeepsWellFormed | src/qwery_core/presentation/websocket/__init__.py:232-240 | popping the expired keys from all three dictionaries keeps the invariant |
| WsPresentation.ChatManager.constructor | src/qwery_core/presentation/websocket/__init__.py:50-55 | three empty dictionaries, nothing sent |
| WsPresentation.ChatManager.Connect | src/qwery_core/presentation/websocket/__init__.py:57-86 | the chat state is created only when the key has none, exactly one connection with a running heartbeat is appended, the key is stamped, and the socket receives the handshake then one frame per history record in order |
| WsPresentation.ChatManager.Register | src/qwery_core/presentation/websocket/__init__.py:66-73 | the dictionary updates of `connect` |
| WsPresentation.ChatManager.Greet | src/qwery_core/presentation/websocket/__init__.py:77-86 | the handshake echoing the stored chat id, then the history replay |
| WsPresentation.ChatManager.SendHistory | src/qwery_core/presentation/websocket/__init__.py:242-256 | the loop sends the replay frames of the history, one fresh id per record |
| WsPresentation.ChatManager.Disconnect | src/qwery_core/presentation/websocket/__init__.py:88-101 | only the first connection on the socket is removed and every other key is untouched; an emptied key leaves the connection and activity dictionaries but keeps its chat state; the heartbeat is stopped only when a connection was found |
| WsPresentation.ChatManager.Leave | src/qwery_core/presentation/websocket/__init__.py:88-101 | the state changes of `disconnect` plus the heartbeat stop of the removed connection |
| WsPresentation.ChatManager.Detach | src/qwery_core/presentation/websocket/__init__.py:89-99 | the removed connection is the first one on the socket, and only that key's list changes |
| WsPresentation.ChatManager.HandleMessage | src/qwery_core/presentation/websocket/__init__.py:103-223 | stamps the key, creates its chat state if missing, and then state, sends and ids are exactly those of `Respond`; connections are unchanged |
| WsPresentation.ChatManager.Handle | src/qwery_core/presentation/websocket/__init__.py:111-223 | the same, without the invariant |
| WsPresentation.ChatManager.Touch | src/qwery_core/presentation/websocket/__init__.py:111-117 | the activity stamp and the chat state of the key |
| WsPresentation.ChatManager.React | src/qwery_core/presentation/websocket/__init__.py:119-223 | the dispatch on the classified frame agrees with `Respond` |
| WsPresentation.ChatManager.ReactEcho | src/qwery_core/presentation/websocket/__init__.py:121-131 | the heartbeat branch agrees with `Respond` |
| WsPresentation.ChatManager.ReactInvalid | src/qwery_core/presentation/websocket/__init__.py:137-145 | the missing-message branch agrees with `Respond` |
| WsPresentation.ChatManager.ReactCommand | src/qwery_core/presentation/websocket/__init__.py:133-135 | the command branch agrees with `Respond` |
| WsPresentation.ChatManager.ReactPrompt | src/qwery_core/presentation/websocket/__init__.py:147-223 | the prompt branch agrees with `Respond` |
| WsPresentation.ChatManager.Prompt | src/qwery_core/presentation/websocket/__init__.py:156-223 | on failure the history is unchanged and the `agent_error` frame goes to the sender and to every other connection; on success the user and assistant entries are appended and the reply goes to every connection on the key |
| WsPresentation.ChatManager.ReportFailure | src/qwery_core/presentation/websocket/__init__.py:164-177 | the error frame sent to the sender, then broadcast excluding it |
| WsPresentation.ChatManager.Announce | src/qwery_core/presentation/websocket/__init__.py:208-223 | the assistant reply broadcast to every connection of the key |
| WsPresentation.ChatManager.HandleCommand | src/qwery_core/presentation/websocket/__init__.py:258-290 | a `Set` of a database key sets `database_url` and sends one system text to the sender; any other command changes and sends nothing |
| WsPresentation.ChatManager.Broadcast | src/qwery_core/presentation/websocket/__init__.py:292-309 | the trace gains the broadcast sends of the key's connections |
| WsPresentation.ChatManager.Cleanup | src/qwery_core/presentation/websocket/__init__.py:225-240 | every key idle for more than an hour leaves all three dictionaries after its connections are closed with 1001; every other key is kept |
| WsPresentation.ChatManager.ExpireKeys | src/qwery_core/presentation/websocket/__init__.py:232-240 | the loop over the expired keys |
| WsPresentation.ChatManager.ExpireKey | src/qwery_core/presentation/websocket/__init__.py:233-240 | one key: its connections closed, then popped from the three dictionaries |
| WsPresentation.ChatManager.CloseConnections | src/qwery_core/presentation/websocket/__init__.py:234-237 | the heartbeat stop and the 1001 close of each connection, in order |
| WsPresentation.ChatManager.ReceiveFrame | src/qwery_core/presentation/websocket/__init__.py:368-385 | an unparsable frame gets one `invalid_message` error to the sender and changes nothing else; a parsed one is handled like `handle_message` |
| WsPresentation.ChatManager.Serve | src/qwery_core/presentation/websocket/__init__.py:349-389 | connect, the receive loop and the final disconnect leave the key with as many connections as before and every other key as it was |
| WsPresentation.ChatManager.ReceiveAll | src/qwery_core/presentation/websocket/__init__.py:366-385 | the receive loop never changes the connection lists |
| WsPresentation.RespondWritesRoles | src/qwery_core/presentation/websocket/__init__.py:216-217 | `handle_message` writes only `user` and `assistant` records into a history |
| WsPresentation.ExchangeWritten | src/qwery_core/presentation/websocket/__init__.py:216-217 | appending the user and the assistant entries keeps that property |
| WsPresentation.HeartbeatEchoesToSender | src/qwery_core/presentation/websocket/__init__.py:121-131 | a heartbeat by kind or payload echoes the same payload to the sender only and changes no state |
| WsPresentation.InvalidPayloadAnswered | src/qwery_core/presentation/websocket/__init__.py:137-145 | a frame without a message gets one `invalid_payload` error, to the sender only |
| WsPresentation.NonUserIgnored | src/qwery_core/presentation/websocket/__init__.py:147-149 | a message with a role other than user changes nothing and sends nothing |
| WsPresentation.SetCommandOutcome | src/qwery_core/presentation/websocket/__init__.py:258-290 | a database `Set` stores the value and answers the sender with one system message; any other command does nothing; the history is never touched |
| WsPresentation.PromptSuccessBroadcast | src/qwery_core/presentation/websocket/__init__.py:156-163 | on success the history grows by exactly the user entry and then the assistant entry, and every connection on the key, sender included, receives the reply |
| WsPresentation.PromptFailureReported | src/qwery_core/presentation/websocket/__init__.py:164-177 | on failure the state is unchanged, the sender receives exactly one `agent_error` frame and every other connection receives it too |
| WsPresentation.Respond | src/qwery_core/presentation/websocket/__init__.py:111-223 | at most two fresh ids are used; the chat id is kept; the history only grows, by at most two entries, and only on a prompt; the database url changes only on a command; a heartbeat or an invalid frame sends exactly one frame, to the sender |
| WsServer.AsWrittenPrompt | src/qwery_core/server_components/websocket.py:144-154 | the call as written always fails: the handler does not accept `session_manager` and the other keywords, so a `TypeError` is raised |
| WsServer.WithRole | src/qwery_core/server_components/websocket.py:266-269 | `role` is set, every other key of an existing record is kept, and no other key is added; a missing record starts as `{}` |
| WsServer.CommandEffect | src/qwery_core/server_components/websocket.py:254-270 | a command has an effect iff it is `Set` with typed arguments and a database key or `role`; a database key sets the url, `role` sets the role in the deployment record; the reply text is not empty |
| WsServer.ConnectKeepsRegistered | src/qwery_core/server_components/websocket.py:62-66 | `connect` keeps the manager invariant: listed keys have connections with running heartbeats and are stamped |
| WsServer.StampKeepsRegistered | src/qwery_core/server_components/websocket.py:104-105 | stamping a key keeps the invariant |
| WsServer.ShrinkKeepsRegistered | src/qwery_core/server_components/websocket.py:86 | a shortened non-empty list keeps the invariant |
| WsServer.DropKeepsRegistered | src/qwery_core/server_components/websocket.py:88-90 | popping a key from both dictionaries keeps the invariant |
| WsServer.DisconnectKeepsRegistered | src/qwery_core/server_components/websocket.py:79-90 | both outcomes of `disconnect` keep the invariant |
| WsServer.ExpireAllKeepsRegistered | src/qwery_core/server_components/websocket.py:219-226 | popping the expired keys keeps the invariant |
| WsServer.BearerToken | src/qwery_core/server_components/websocket.py:346-351 | a token is found iff the header is present, non-empty and starts with `bearer ` in any case |
| WsServer.BearerSplit | src/qwery_core/server_components/websocket.py:351 | for such a header, the text after the first space is the text after the scheme |
| WsServer.BearerTokenValue | src/qwery_core/server_components/websocket.py:351 | the access token is the text after `bearer `, stripped |
| WsServer.BearerCaseInsensitive | src/qwery_core/server_components/websocket.py:348 | `Bearer` and `BEARER` headers give the same token |
| WsServer.AgentManager.constructor | src/qwery_core/server_components/websocket.py:44-49 | two empty dictionaries, nothing sent |
| WsServer.AgentManager.Connect | src/qwery_core/server_components/websocket.py:51-77 | exactly one connection with a running heartbeat is appended under the session key, the key is stamped, the handshake is sent and then the history replay; `ok` says whether the whole history was sent |
| WsServer.AgentManager.Register | src/qwery_core/server_components/websocket.py:62-66 | the dictionary updates of `connect` |
| WsServer.AgentManager.Greet | src/qwery_core/server_components/websocket.py:68-77 | the handshake, then the replay, with its outcome |
| WsServer.AgentManager.SendHistory | src/qwery_core/server_components/websocket.py:228-242 | the loop sends the replay frames and stops at the first role `MessageRole(...)` rejects |
| WsServer.AgentManager.Disconnect | src/qwery_core/server_components/websocket.py:79-92 | only the first connection on the socket is removed and every other key is untouched; an emptied key leaves both dictionaries; the heartbeat is stopped only when a connection was found |
| WsServer.AgentManager.Leave | src/qwery_core/server_components/websocket.py:79-92 | the state changes of `disconnect` plus the heartbeat stop |
| WsServer.AgentManager.Detach | src/qwery_core/server_components/websocket.py:80-90 | the removed connection is the first one on the socket, and only that key's list changes |
| WsServer.AgentManager.HandleMessage | src/qwery_core/server_components/websocket.py:94-210 | stamps the key; the chat settings, sends and ids are exactly those of `Respond`; connections are unchanged and the history is never written |
| WsServer.AgentManager.Handle | src/qwery_core/server_components/websocket.py:104-210 | the same, without the invariant |
| WsServer.AgentManager.Touch | src/qwery_core/server_components/websocket.py:104-105 | the activity stamp of the key |
| WsServer.AgentManager.React | src/qwery_core/server_components/websocket.py:107-210 | the dispatch on the classified frame agrees with `Respond` |
| WsServer.AgentManager.ReactEcho | src/qwery_core/server_components/websocket.py:109-119 | the heartbeat branch agrees with `Respond` |
| WsServer.AgentManager.ReactInvalid | src/qwery_core/server_components/websocket.py:125-133 | the missing-message branch agrees with `Respond` |
| WsServer.AgentManager.ReactCommand | src/qwery_core/server_components/websocket.py:121-123 | the command branch agrees with `Respond` |
| WsServer.AgentManager.ReactPrompt | src/qwery_core/server_components/websocket.py:135-210 | the prompt branch agrees with `Respond` |
| WsServer.AgentManager.Prompt | src/qwery_core/server_components/websocket.py:144-210 | on failure the `agent_error` frame goes to the sender and to every other connection; on success the reply goes to every connection on the key |
| WsServer.AgentManager.ReportFailure | src/qwery_core/server_components/websocket.py:155-168 | the error frame sent to the sender, then broadcast excluding it |
| WsServer.AgentManager.SendReply | src/qwery_core/server_components/websocket.py:170-210 | the formatted reply broadcast to every connection of the key |
| WsServer.AgentManager.HandleCommand | src/qwery_core/server_components/websocket.py:244-281 | the chat settings become those of `CommandEffect`, and one system text goes to the sender exactly when the command has an effect |
| WsServer.AgentManager.Broadcast | src/qwery_core/server_components/websocket.py:283-300 | the trace gains the broadcast sends of the key's connections |
| WsServer.AgentManager.Cleanup | src/qwery_core/server_components/websocket.py:212-226 | every key idle for more than an hour leaves both dictionaries after its heartbeats are stopped and its connections closed with 1001; other keys are kept |
| WsServer.AgentManager.ExpireKeys | src/qwery_core/server_components/websocket.py:219-226 | the loop over the expired keys |
| WsServer.AgentManager.ExpireKey | src/qwery_core/server_components/websocket.py:220-226 | one key: its connections closed, then popped |
| WsServer.AgentManager.CloseConnections | src/qwery_core/server_components/websocket.py:221-224 | the heartbeat stop and the 1001 close of each connection, in order |
| WsServer.AgentManager.ReceiveFrame | src/qwery_core/server_components/websocket.py:371-390 | an unparsable frame gets one `invalid_message` error to the sender and changes nothing else, and the loop goes on; a parsed one is handled like `handle_message` |
| WsServer.AgentManager.ReceiveAll | src/qwery_core/server_components/websocket.py:369-392 | the receive loop never changes the connection lists |
| WsServer.AgentManager.Endpoint | src/qwery_core/server_components/websocket.py:340-394 | the socket is rejected, closed with 4401 and never registered, iff it has no bearer header or its session, chat state or history cannot be set up; a socket whose history cannot be replayed is closed with 4401 and its connection stays; a served socket leaves its key with as many connections as before; other keys are untouched |
| WsServer.AgentManager.Proceed | src/qwery_core/server_components/websocket.py:353-394 | rejected iff there is no session; otherwise the connect, receive loop and disconnect with the same outcomes |
| WsServer.AgentManager.Reject | src/qwery_core/server_components/websocket.py:349-366 | one close with 4401 |
| WsServer.AgentManager.Authenticate | src/qwery_core/server_components/websocket.py:346-367 | there is a setup iff the header carries a bearer token and the setup succeeds for it; without a token the session cache is untouched; with a setup the access token is the bearer token; the refresh token is the `x-refresh-token` header |
| WsServer.AgentManager.Open | src/qwery_core/server_components/websocket.py:353-367 | `None` iff `get_session`, `get_chat_state` or `ensure_history_loaded` raises; an empty access token opens nothing; an opened setup holds the session `get_session` returns and a chat state with its history loaded |
| WsServer.AgentManager.OpenChat | src/qwery_core/server_components/websocket.py:355-356 | a chat state comes back exactly when `get_chat_state` and `ensure_history_loaded` both return for the session; it is new or already cached, and its history is loaded |
| WsServer.AgentManager.Attach | src/qwery_core/server_components/websocket.py:357-394 | never rejected; a failed replay closes with 4401 and leaves the new connection registered; a served socket leaves the key's count as before; other keys are untouched |
| WsServer.HeartbeatEchoesToSender | src/qwery_core/server_components/websocket.py:109-119 | a heartbeat echoes the same payload to the sender only and changes nothing |
| WsServer.SetCommandOutcome | src/qwery_core/server_components/websocket.py:254-281 | a command with an effect answers the sender with one system message; `role` sets only the role and keeps the other deployment keys; a database key sets only the url; any other command does nothing |
| WsServer.NonUserIgnored | src/qwery_core/server_components/websocket.py:135-137 | a message with a role other than user changes nothing and sends nothing |
| WsServer.AsWrittenPromptAlwaysFails | src/qwery_core/server_components/websocket.py:144-168 | with the call as written, every user prompt is answered with one `agent_error` frame to the sender carrying the `TypeError` text; no reply is ever broadcast |
| WsServer.PromptSuccessBroadcast | src/qwery_core/server_components/websocket.py:170-210 | with a handler that accepts the call and succeeds, every connection on the key, sender included, receives the one assistant reply, and the settings are unchanged |
| WsServer.PromptFailureReported | src/qwery_core/server_components/websocket.py:155-168 | on failure the sender receives exactly one `agent_error` frame with the exception text, and every other connection receives it too |
| WsServer.LoadedHistoryReplays | src/qwery_core/supabase/session.py:114-122 | a history loaded from stored messages always replays completely |
| WsServer.Respond | src/qwery_core/server_components/websocket.py:104-210 | at most two fresh ids are used; the settings change only on a command; without a prompt every frame goes to the sender |
| SupabaseSession.SupabaseChatState.constructor | src/qwery_core/supabase/session.py:23-31 | a new chat state has no database url, no deployment record, an empty history not yet loaded |
| SupabaseSession.DetermineDatabaseUrl | src/qwery_core/supabase/session.py:190-198 | None without a deployment record; otherwise the first truthy value among `connection_string`, `database_url`, `fqdn` |
| SupabaseSession.DeploymentId | src/qwery_core/supabase/session.py:165-169 | a truthy value from the chat row, or else the chat state's own project id |
| SupabaseSession.LoadChatContext | src/qwery_core/supabase/session.py:146-188 | the first exception raised is the result: the admin client without a service-role key, then `ensure_chat_exists`, then the `gp_chats` query, then the deployment query when the deployment id is truthy; when all of them return the result is a success whose chat id is the one `ensure_chat_exists` returns and whose deployment record is the first `gp_deployment_request` row (none when there is no row or the id is falsy); the url comes from the deployment record when it yields one, otherwise from `QWERY_DB_URL` or `QWERY_DB_PATH` |
| SupabaseSession.TextSegments | src/qwery_core/supabase/session.py:115-117 | exactly the non-empty texts of the `text` parts, one per part at most |
| SupabaseSession.HistoryRole | src/qwery_core/supabase/session.py:121 | `assistant` iff the stored role is `assistant`, `user` otherwise |
| SupabaseSession.ConvertHistory | src/qwery_core/supabase/session.py:113-122 | at most one record per stored message |
| SupabaseSession.ConvertedHistoryShape | src/qwery_core/supabase/session.py:118-122 | every converted record has role `user` or `assistant` and non-empty content |
| SupabaseSession.ConvertHistoryStep | src/qwery_core/supabase/session.py:114-122 | a message without text is skipped; one with text adds one record, its segments joined by newlines |
| SupabaseSession.ConvertedRolesValid | src/qwery_core/supabase/session.py:121 | every converted role is a `MessageRole` |
| SupabaseSession.ChatSetupSucceeds | src/qwery_core/server_components/websocket.py:355-356 | setting up a chat for a session can succeed only when the admin client can be built |
| SupabaseSession.SetupSucceeds | src/qwery_core/server_components/websocket.py:353-356 | the setup of a socket succeeds only with a session for the token and an admin client; then a cached chat state needs its history loaded or a history query that returns, and a new one needs its context loaded and then its history query to return |
| SupabaseSession.SupabaseSessionManager.constructor | src/qwery_core/supabase/session.py:37-47 | empty session and chat-state caches |
| SupabaseSession.SupabaseSessionManager.GetSession | src/qwery_core/supabase/session.py:53-79 | an empty token raises and builds no client; a cached token returns the same session without building a client; without the Supabase configuration the client factory raises and nothing changes; otherwise one client is built, a missing user or user id raises and caches nothing, and a found user is cached under the token |
| SupabaseSession.SupabaseSessionManager.GetChatState | src/qwery_core/supabase/session.py:85-107 | without an admin client it raises and caches nothing; the key is the session key and the normalised chat id; a cached state is returned as it is; otherwise the context is loaded, and a load that raises caches nothing while a loaded one gives a fresh state with that context, cached and returned |
| SupabaseSession.SupabaseSessionManager.EnsureHistoryLoaded | src/qwery_core/supabase/session.py:109-124 | a loaded history is left alone; otherwise, when the admin client or the history query raises, the error is returned and the state stays unloaded; else the history becomes the conversion of the stored history fetched with limit 50 and is marked loaded |
| SupabaseSession.SupabaseSessionManager.RecordMessage | src/qwery_core/supabase/session.py:126-140 | the save succeeds iff the admin client exists and the save returns; then the history gains exactly that record, otherwise it is unchanged |
| SupabaseSession.DatabaseUrlFirstMatch | src/qwery_core/supabase/session.py:194-197 | the first key in the order with a truthy value gives the url |
| SupabaseSession.NoDeploymentUsesEnv | src/qwery_core/supabase/session.py:184-185 | without a url from the deployment the environment fallback is used |
| SupabaseSession.ChatLoadFailureFailsSetup | src/qwery_core/supabase/session.py:146-162 | a new chat whose context cannot be loaded, because `ensure_chat_exists` or a query raises, fails the setup |
| SupabaseSession.HistoryFailureFailsSetup | src/qwery_core/supabase/session.py:109-112 | a history that is not loaded and whose query raises fails the setup, for a cached chat state and for a new one |
| SupabaseSession.LoadedChatSetup | src/qwery_core/supabase/session.py:94-96 | a cached chat state with its history loaded needs only the session and the admin client |
| SupabaseSession.MissingServiceKeyFailsSetup | src/qwery_core/auth/supabase.py:64-69 | without `SUPABASE_SERVICE_ROLE_KEY` the admin client cannot be built and no setup succeeds |
| SupabaseSession.SessionFor | src/qwery_core/supabase/session.py:53-79 | an empty token fails; a cached token gives its cached session; a new session needs a client that finds a user, is keyed by the access token, has a non-empty user id and keeps the refresh token |
| SupabaseAuth.LoadConfig | src/qwery_core/auth/supabase.py:41-49 | fails iff `SUPABASE_URL` or `SUPABASE_ANON_KEY` is unset or empty; otherwise carries both and the optional service role key |
| SupabaseAuth.ClientCredentials | src/qwery_core/auth/supabase.py:57-61 | succeeds exactly when the configuration loads, with its url and anonymous key |
| SupabaseAuth.AdminCredentials | src/qwery_core/auth/supabase.py:64-71 | a configuration failure propagates; a missing or empty service role key raises the admin-key error; otherwise the url and the service role key |
| SupabaseAuth.StripBearerOnce | src/qwery_core/auth/supabase.py:106-110 | a token whose first seven characters are `bearer ` in any case loses exactly that prefix |
| SupabaseAuth.StripBearerKeeps | src/qwery_core/auth/supabase.py:106-110 | a token without the prefix is unchanged, so stripping it twice changes nothing |
| SupabaseAuth.StrOf | src/qwery_core/auth/supabase.py:86 | `str(value)` for strings, booleans (`True`/`False`) and integers |
| SupabaseAuth.TruthyStrings | src/qwery_core/auth/supabase.py:82-86 | every kept group is `str` of a truthy item, every truthy item is kept, and nothing is kept iff no item is truthy |
| SupabaseAuth.NormalizeGroups | src/qwery_core/auth/supabase.py:74-89 | the loop over the items computes the normalised group list |
| SupabaseAuth.ScalarClaims | src/qwery_core/auth/supabase.py:75-89 | `None` and non-iterable scalars give the fallback; a string gives a one-element list |
| SupabaseAuth.FalsyItemsFallBack | src/qwery_core/auth/supabase.py:87 | a list of falsy items gives the fallback |
| SupabaseAuth.NormalizedNeverEmpty | src/qwery_core/auth/supabase.py:74-89 | with a non-empty fallback the result is never empty |
| SupabaseAuth.ListClaimKeepsOrder | src/qwery_core/auth/supabase.py:81-87 | a list of strings with a non-empty one keeps its non-empty strings in order |
| SupabaseAuth.StringItems | src/qwery_core/auth/supabase.py:83-86 | for string items the kept groups are the non-empty strings in order |
| SupabaseAuth.Or | src/qwery_core/auth/supabase.py:96-101 | Python's `a or b`: `a` when truthy, else `b` |
| SupabaseAuth.ExtractMetadataGroups | src/qwery_core/auth/supabase.py:92-94 | empty metadata gives the fallback |
| SupabaseAuth.CandidatesFirstTruthy | src/qwery_core/auth/supabase.py:96-101 | the candidate is the first truthy value among the claim, `groups`, `roles`, `permissions`; if none is truthy it is the (falsy) `permissions` value |
| SupabaseAuth.MetadataGroupsFirstMatch | src/qwery_core/auth/supabase.py:92-103 | the groups are the normalisation of that first truthy candidate |
| SupabaseAuth.EmptyPermissionsGroup | src/qwery_core/auth/supabase.py:96-103 | metadata whose only key is an empty `permissions` string yields the single group `""` |
| SupabaseAuth.GroupClaim | src/qwery_core/auth/supabase.py:132 | a non-empty argument wins; otherwise `QWERY_SUPABASE_GROUP_CLAIM`, defaulting to `roles` |
| SupabaseAuth.DefaultGroups | src/qwery_core/auth/supabase.py:133-136 | given groups win; otherwise exactly the non-empty stripped comma-separated parts of `QWERY_DEFAULT_GROUPS` |
| SupabaseAuth.DefaultGroupsUnset | src/qwery_core/auth/supabase.py:133-136 | with the variable unset the default groups are `["read_data"]` |
| SupabaseAuth.NewResolver | src/qwery_core/auth/supabase.py:124-136 | construction fails exactly when the configuration does; otherwise it keeps the group claim and default groups |
| SupabaseAuth.ResolveUser | src/qwery_core/auth/supabase.py:138-174 | a missing token raises; a raising client is reported with its message; a missing user or id raises; a resolved user has `str(id)` and the metadata groups |
| SupabaseAuth.HeaderTokenPreferred | src/qwery_core/auth/supabase.py:139-151 | an `authorization` header wins over the cookie and loses its bearer prefix |
| SupabaseAuth.CookieTokenFallback | src/qwery_core/auth/supabase.py:139-142 | without that header the `sb-access-token` cookie is used |
| SupabaseAuth.ResolvedUserShape | src/qwery_core/auth/supabase.py:164-174 | a resolved user whose id is a string, a number or a boolean has a non-empty id; with non-empty default groups it belongs to at least one group |
| SupabaseAuth.NormalizedGroups | src/qwery_core/auth/supabase.py:74-89 | `None` or a scalar gives the fallback, a string gives just that string, and a non-empty fallback never gives an empty list |
| SupabaseAuth.StripBearer | src/qwery_core/auth/supabase.py:106-110 | the result is the token itself or the token without its seven-character prefix |
| SupabaseAuth.AccessToken | src/qwery_core/auth/supabase.py:139-142 | a non-empty `authorization` header wins; otherwise the `sb-access-token` cookie |
| SupabaseAuth.RefreshToken | src/qwery_core/auth/supabase.py:146-149 | a non-empty `x-refresh-token` header wins; otherwise the `sb-refresh-token` cookie |
| Agent.ResolveEnvUser | src/qwery_core/agent.py:35-47 | the id is the `user_id` cookie, else the `x-user-id` header, else `QWERY_DEFAULT_USER_ID` (default `demo-user`); the groups are exactly the non-empty stripped parts of `x-user-groups` split on `;`, or else of `QWERY_DEFAULT_GROUPS` (default `read_data`) split on `,` |
| Agent.GroupsAreClean | src/qwery_core/agent.py:42-45 | every resolved group is non-empty and already stripped |
| Agent.StripAllClean | src/qwery_core/agent.py:42 | stripping and filtering a list of clean groups gives it back |
| Agent.GroupsHeaderRoundTrip | src/qwery_core/agent.py:40-42 | groups joined with `;` into the header are resolved back to the same list |
| Agent.HeaderGroups | src/qwery_core/agent.py:40-42 | a non-empty header alone decides the groups |
| Agent.JoinedNotEmpty | src/qwery_core/agent.py:41 | a joined header with a non-empty first group is non-empty, so it is used |
| Agent.DefaultEnvUser | src/qwery_core/agent.py:36-45 | with nothing in the request or the environment the user is `demo-user` in group `read_data` |
| Agent.FindAny | src/qwery_core/agent.py:61 | the first index holding one of the characters, or the length when none does |
| Agent.BuildSqlRunner | src/qwery_core/agent.py:60-76 | `postgres`/`postgresql` give a Postgres runner on the url; `sqlite`, `file` or no scheme give a SQLite runner on the absolute path when it exists, `FileNotFoundError` when it does not and `ValueError` for an empty path; any other scheme raises `ValueError` |
| Agent.RunnerKinds | src/qwery_core/agent.py:60-76 | a runner is built iff the scheme is Postgres or an existing SQLite file is named; every failure is a `ValueError` or a `FileNotFoundError` |
| Agent.ParseScheme | src/qwery_core/agent.py:61-62 | a scheme of a letter and scheme characters before `:` is returned lower-cased, with the rest after it |
| Agent.FindAnyNone | src/qwery_core/agent.py:61 | without any of the characters the index is the length |
| Agent.DropNetlocOf | src/qwery_core/agent.py:61-68 | after `//` the network location up to the first `/`, `?` or `#` is dropped |
| Agent.UrlPathOf | src/qwery_core/agent.py:61-68 | `scheme://host/path` has path `/path` |
| Agent.UrlPathFrom | src/qwery_core/agent.py:68 | a url whose remainder has no query or fragment has that remainder as its path |
| Agent.PlainPathIsSqlite | src/qwery_core/agent.py:67-68 | a url without `:` has no scheme and is used whole as the SQLite path |
| Agent.UnfencedFilters | src/qwery_core/agent.py:167 | a line survives iff it was there and its stripped form does not start with three backticks |
| Agent.CleanJson | src/qwery_core/agent.py:162-169 | the result is always stripped, and is just the stripped text when that does not start with a fence |
| Agent.SplitLinesSingle | src/qwery_core/agent.py:165 | a line without line breaks splits into itself |
| Agent.SplitLinesCons | src/qwery_core/agent.py:165 | `a\nb` splits into `a` followed by the lines of `b` |
| Agent.FenceSurvivesStrip | src/qwery_core/agent.py:164-167 | a text starting with a fence still does after stripping |
| Agent.FencedLines | src/qwery_core/agent.py:165 | a fenced one-line block splits into the opening fence, the body and the closing fence |
| Agent.UnfencedKeepsMiddle | src/qwery_core/agent.py:167 | of three lines, only the unfenced middle one is kept |
| Agent.UnfencedThree | src/qwery_core/agent.py:167 | a fenced block keeps just its body |
| Agent.FencedText | src/qwery_core/agent.py:163-164 | a fenced block is stripped and starts with a fence |
| Agent.CleanFenced | src/qwery_core/agent.py:164-168 | a fenced text whose unfenced lines are one body cleans to that body, stripped |
| Agent.FencedPayload | src/qwery_core/agent.py:162-169 | a one-line payload inside a fenced block cleans to the stripped payload |
| Agent.UnfencedReply | src/qwery_core/agent.py:163-169 | an unfenced reply cleans to its stripped form |
| Agent.RecordMessage | src/qwery_core/agent.py:193-197 | each history record becomes a message whose role is its role when that is `user`, `assistant` or `system`, `user` otherwise, and whose content is its content or `""` |
| Agent.Messages | src/qwery_core/agent.py:191-199 | the system prompt first, one message per history record in order, the user prompt last; every role is valid |
| Agent.BuildMessages | src/qwery_core/agent.py:191-199 | the loop builds exactly that list |
| Agent.DecodePayload | src/qwery_core/agent.py:212-224 | unparseable text raises `RuntimeError` naming the text; an accepted payload is a parsed object whose `sql` is truthy and has a length: a string, a list or an object |
| Agent.NoSqlRaises | src/qwery_core/agent.py:219-222 | an object raises the missing-`sql` error iff its `sql` is absent or falsy |
| Agent.SqlAccepted | src/qwery_core/agent.py:219-224 | an object with a non-empty string `sql` is accepted with that sql |
| Agent.SqlValueKinds | src/qwery_core/agent.py:219-224 | a truthy list or object `sql` is accepted as it is; a truthy number or boolean makes `len(sql)` raise `TypeError` |
| Agent.DatabaseUrl | src/qwery_core/agent.py:228-230 | a given url wins; otherwise `QWERY_DB_URL`, then `QWERY_DB_PATH`; otherwise the argument as it was |
| Agent.WithSql | src/qwery_core/agent.py:258-260 | the rewrapped error is a `RuntimeError` ending in `\nSQL:\n` and the sql |
| Agent.QueryErrorsCarrySql | src/qwery_core/agent.py:235-260 | every failure of the query step is a `RuntimeError` ending with `\nSQL:\n` and the `str()` text of the sql |
| Agent.QueryRoute | src/qwery_core/agent.py:235-257 | without a url the registered `run_sql` tool executes the query; with one, a runner built from the url executes it; a result needs a url or the registered tool |
| Agent.PreviewRows | src/qwery_core/agent.py:271-272 | a prefix of the rows of length at most 20; all rows when there are at most 20, exactly 20 otherwise |
| Agent.TruncatedIffRowsLeftOut | src/qwery_core/agent.py:273 | `truncated` holds iff the preview leaves rows out |
| Agent.ColumnIndex | src/qwery_core/agent.py:292-293 | `list.index`: the first position of the name |
| Agent.ColumnValues | src/qwery_core/agent.py:292-293 | defined iff every row reaches the column, and then the column's value for each row in order |
| Agent.VizTitle | src/qwery_core/agent.py:288 | the title is always truthy (`Visualization` when none is given) |
| Agent.VizData | src/qwery_core/agent.py:291-294 | a dictionary keyed by x then y; a single key when x and y are the same column |
| Agent.VisualizationFor | src/qwery_core/agent.py:276-309 | a summary is produced only for a visualization object whose type is bar, line or scatter and whose x and y are result columns, with its title |
| Agent.VizAccepted | src/qwery_core/agent.py:285-308 | such a request with distinct axes yields the title and the type |
| Agent.SameAxisRaises | src/qwery_core/agent.py:291-302 | the same column on both axes makes the visualization tool raise its too-few-columns error |
| Agent.VizDeclined | src/qwery_core/agent.py:289 | any other request yields no visualization |
| Agent.SummaryField | src/qwery_core/agent.py:312 | the summary text is stripped |
| Agent.PreviewHead | src/qwery_core/agent.py:329 | the first five preview rows; empty iff the preview is |
| Agent.ComposeSummary | src/qwery_core/agent.py:312-338 | the loop builds the summary text |
| Agent.SummaryKept | src/qwery_core/agent.py:313-319 | a non-empty summary is kept and followed by the "Results saved" line |
| Agent.FallbackLayout | src/qwery_core/agent.py:320-338 | the fallback text lists the success line, the saved line, the sql, and, when there are columns and rows, the header, up to five rows and the truncation marker |
| Agent.SummaryNamesCsv | src/qwery_core/agent.py:312-338 | the summary always names the CSV file |
| Agent.HandlePrompt | src/qwery_core/agent.py:179-350 | the prompt's response is the presentation of the LLM reply to the built messages, with the database url the explicit one or the environment's |
| Agent.ResponseShape | src/qwery_core/agent.py:265-350 | a successful response has a truthy sql with a length, and one that is not a string only with a non-empty summary from the model; at most 20 preview rows (exactly 20 when truncated); the generated CSV name mentioned in the summary; a supported chart type |
| Agent.NoSqlNoQuery | src/qwery_core/agent.py:219-222 | a reply without `sql` raises before any query is executed |
| Agent.CollectionSqlPath | src/qwery_core/agent.py:226-330 | a list or object `sql` reaches the query step, whose failure is the response's; after a successful query and visualization, with no summary of the model's, the fallback `"\n".join` raises `TypeError` |
| Agent.ReadPayload | src/qwery_core/agent.py:207-224 | an accepted reply parses, once cleaned, to an object whose `sql` is truthy and has a length; a failure is a `RuntimeError`, an `AttributeError` or a `TypeError` |
| Agent.SqlText | src/qwery_core/agent.py:260 | a string sql prints as itself |
| Agent.RunQuery | src/qwery_core/agent.py:226-260 | every failure is a `RuntimeError` ending with `\nSQL:\n` and the sql text; a result needs a url or the registered tool; without a url the registered tool decides success |
| Agent.Present | src/qwery_core/agent.py:207-350 | an error of the decoding is raised as it is; a presented reply carries the decoded sql, the `query_results_<token>.csv` name and at most 20 preview rows |
| Toon.ReplaceChar | src/qwery_core/toon.py:30 | `str.replace` of one character: the character is gone when the replacement does not contain it |
| Toon.TwoPassIsOnePass | src/qwery_core/toon.py:30 | replacing backslashes and then quotes is the same as escaping each character in one pass |
| Toon.ReplaceConcat | src/qwery_core/toon.py:30 | replacement distributes over concatenation |
| Toon.EscapeValue | src/qwery_core/toon.py:8-33 | `None` is `null`, booleans are `true`/`false`, and a string that needs no quoting is written as it is |
| Toon.UnescapeEscape | src/qwery_core/toon.py:30 | undoing the escaping gives the original text back |
| Toon.EscapeRoundTrip | src/qwery_core/toon.py:16-33 | an escaped string value decodes back to the string |
| Toon.EscapeBodyLonger | src/qwery_core/toon.py:30 | escaping never shortens a text |
| Toon.QuotedIff | src/qwery_core/toon.py:19-33 | a string is quoted iff it needs quoting, and written as it is iff it does not |
| Toon.NullIsPlain | src/qwery_core/toon.py:19-26 | the text `null` needs no quoting |
| Toon.TrueIsPlain | src/qwery_core/toon.py:19-26 | the text `true` needs no quoting |
| Toon.FalseIsPlain | src/qwery_core/toon.py:19-26 | the text `false` needs no quoting |
| Toon.UnquotedIsPlain | src/qwery_core/toon.py:19-31 | any output containing a comma or line break, empty, or with surrounding blanks is quoted |
| Toon.EscapeAmbiguous | src/qwery_core/toon.py:10-33 | `None` and the string `null`, and `True` and the string `true`, are written the same way |
| Toon.NullLikeNone | src/qwery_core/toon.py:10-33 | `None` and the string `null` are written the same way |
| Toon.TrueLikeTrue | src/qwery_core/toon.py:13-33 | `True` and the string `true` are written the same way |
| Toon.EncodeQueryResults | src/qwery_core/toon.py:36-66 | the loop builds the lines of the document and joins them with newlines |
| Toon.TabularLines | src/qwery_core/toon.py:54-62 | with columns and rows: the query line, the header, then one line per row |
| Toon.RowLines | src/qwery_core/toon.py:59-62 | one escaped line per row, in order |
| Toon.RowLinesSnoc | src/qwery_core/toon.py:59-62 | each loop step appends the next row's line |
| Toon.ToonLines | src/qwery_core/toon.py:48-66 | the query line first; then the `results[n]{cols}:` header and one line per row, or `results[0]:` when there are no columns or no rows |
| Toon.RowLineCells | src/qwery_core/toon.py:61-62 | a row line is two spaces and the escaped cells separated by commas, which split back into the cells |
| Toon.DocumentSplitsIntoLines | src/qwery_core/toon.py:66 | a document without line breaks inside its lines splits back into them |
| Toon.EscapeKeepsLineBreak | src/qwery_core/toon.py:30 | escaping keeps a line break |
| Toon.QuotedNewlineSpills | src/qwery_core/toon.py:21-62 | a cell with a line break is quoted but still breaks its row line |
| Toon.NeedsQuoting | src/qwery_core/toon.py:19-27 | a string left unquoted is non-empty, already stripped, and has no comma and no line break |
| Datasources.Dashed | src/qwery_core/datasources.py:15 | the lower-cased text with every non-alphanumeric character replaced by `-`, same length |
| Datasources.JoinShaped | src/qwery_core/datasources.py:16 | non-empty lower-case alphanumeric pieces joined by `-` form a slug: no leading, trailing or doubled dash |
| Datasources.DashedPieces | src/qwery_core/datasources.py:15-16 | every kept piece is non-empty and lower-case alphanumeric |
| Datasources.SplitPiecesFrom | src/qwery_core/datasources.py:16 | splitting a dashed text on `-` gives alphanumeric pieces |
| Datasources.SlugifyShape | src/qwery_core/datasources.py:14-17 | a name with some alphanumeric character gives a well-shaped slug; one without gives `value.lower()` |
| Datasources.NoPieces | src/qwery_core/datasources.py:16-17 | a text of dashes only has no pieces, so the fallback is taken |
| Datasources.AllEmptyJoin | src/qwery_core/datasources.py:16 | joining only empty pieces with `-` gives dashes only |
| Datasources.ShapedPieces | src/qwery_core/datasources.py:16 | a slug-shaped text splits on `-` into non-empty pieces |
| Datasources.NonEmptyOfNonEmpty | src/qwery_core/datasources.py:16 | filtering out empty pieces keeps a list of non-empty ones unchanged |
| Datasources.SlugifyIdempotent | src/qwery_core/datasources.py:14-17 | slugifying a slug gives it back |
| Datasources.FirstUrlKey | src/qwery_core/datasources.py:35-38 | the first preferred key holding a non-empty string, or the number of keys when none does |
| Datasources.ExtractConnectionUrl | src/qwery_core/datasources.py:20-39 | a string config is its own url; a non-dictionary has none; a dictionary has none iff no preferred key holds a non-empty string, and otherwise gives the first such value in key order |
| Datasources.DatasourceRecord.constructor | src/qwery_core/datasources.py:142-156 | every field as given, both timestamps set to the same time |
| Datasources.DatasourceStore.constructor | src/qwery_core/datasources.py:82-84 | both indexes empty, the index invariant holds |
| Datasources.DatasourceStore.Upsert | src/qwery_core/datasources.py:109-159 | an existing id updates that same record in place: the given fields, the update time, the slug only when one is given, and both indexes unchanged; otherwise a fresh record with the given or new id and the given or slugified slug is added to both indexes; the per-project index matches the records' projects |
| Datasources.DatasourceStore.Revise | src/qwery_core/datasources.py:127-138 | the record's editable fields become the given ones; the slug changes only when one is given |
| Datasources.DatasourceStore.Insert | src/qwery_core/datasources.py:157-158 | the record is stored under its id and its id is added to its project's set |
| Datasources.DatasourceStore.Delete | src/qwery_core/datasources.py:161-170 | deletes iff the id exists in that project; then it is removed from both indexes and an emptied project set is dropped; otherwise nothing changes |
| Datasources.DatasourceStore.Get | src/qwery_core/datasources.py:92-94 | the stored record iff the id is present |
| Datasources.DatasourceStore.List | src/qwery_core/datasources.py:87-90 | exactly the records of the project, each once |
| Datasources.DatasourceStore.GetForProject | src/qwery_core/datasources.py:96-107 | a record of that project whose id or slug is the identifier, and none iff no such record exists |
| Datasources.DatasourceStore.ResolveConnectionUrl | src/qwery_core/datasources.py:172-180 | none when nothing matches; when some record matches, the connection url of a matching record |
| Datasources.UpdateKeepsIdentity | src/qwery_core/datasources.py:126-138 | updating a record keeps its id, project, creation time and slug |
| Datasources.DeleteOtherProject | src/qwery_core/datasources.py:163-165 | deleting through another project changes nothing |
| Datasources.Slugify | src/qwery_core/datasources.py:14-17 | the slug is empty exactly when the name is |
| RateLimit.UserId | src/qwery_core/middleware/rate_limit.py:34 | the `x-user-id` header, else the `user_id` cookie; none iff both are missing or empty |
| RateLimit.ClientId | src/qwery_core/middleware/rate_limit.py:30-35 | the client host alone without a user id, `host:user` with one |
| RateLimit.ClientIdSources | src/qwery_core/middleware/rate_limit.py:33-35 | the header wins over the cookie; without a client and a user the id is `unknown` |
| RateLimit.DistinctUsersDistinctIds | src/qwery_core/middleware/rate_limit.py:33-35 | two users from the same host are counted apart |
| RateLimit.Keep | src/qwery_core/middleware/rate_limit.py:48-87 | the filter keeps at most the timestamps it was given |
| RateLimit.KeepMembers | src/qwery_core/middleware/rate_limit.py:48-87 | a timestamp is kept iff it was there and is newer than the bound |
| RateLimit.KeepAppend | src/qwery_core/middleware/rate_limit.py:77-87 | filtering distributes over concatenation |
| RateLimit.KeepKeep | src/qwery_core/middleware/rate_limit.py:49-77 | filtering with a bound and then a later one is filtering with the later one |
| RateLimit.Touch | src/qwery_core/middleware/rate_limit.py:76-86 | reading a `defaultdict` entry inserts the key |
| RateLimit.TouchStored | src/qwery_core/middleware/rate_limit.py:76-86 | the inserted entry is empty, so every stored list reads the same |
| RateLimit.TouchThenSet | src/qwery_core/middleware/rate_limit.py:76-98 | inserting then assigning the entry is just assigning it |
| RateLimit.PruneAllKeeps | src/qwery_core/middleware/rate_limit.py:47-60 | after a pruning pass each client keeps exactly its timestamps newer than the bound, and no empty list stays |
| RateLimit.Prune | src/qwery_core/middleware/rate_limit.py:47-60 | the loop over the keys computes that pruning pass |
| RateLimit.PruneOne | src/qwery_core/middleware/rate_limit.py:48-52 | one loop step filters one client's list and deletes it when it became empty |
| RateLimit.CleanupCases | src/qwery_core/middleware/rate_limit.py:37-62 | within 300 seconds of the last cleanup nothing changes; otherwise both tables are pruned to the last minute and the last hour and the cleanup time is now |
| RateLimit.VerdictCases | src/qwery_core/middleware/rate_limit.py:64-103 | `/health` passes untouched; a 429 with Retry-After 60 iff the minute window is full; a 429 with Retry-After 3600 iff the minute window is not full and the hour window is; a pass otherwise |
| RateLimit.RejectRecordsNothing | src/qwery_core/middleware/rate_limit.py:78-93 | a rejected request adds no timestamp |
| RateLimit.AcceptRecordsNow | src/qwery_core/middleware/rate_limit.py:95-99 | an accepted request stores both filtered windows plus its time, still within the limits, and no other client changes |
| RateLimit.PruneKeepsCap | src/qwery_core/middleware/rate_limit.py:47-60 | pruning keeps every list within the cap |
| RateLimit.CleanupKeepsCaps | src/qwery_core/middleware/rate_limit.py:37-62 | cleanup keeps the stored windows within the limits |
| RateLimit.StepKeepsCaps | src/qwery_core/middleware/rate_limit.py:64-103 | a dispatch keeps the stored windows within the limits |
| RateLimit.AgreeAt | src/qwery_core/middleware/rate_limit.py:77-87 | a table that agrees with the full log above a bound holds the same recent timestamps for each client |
| RateLimit.AgreeLater | src/qwery_core/middleware/rate_limit.py:77-87 | agreement above a bound holds above any later bound |
| RateLimit.AgreePrune | src/qwery_core/middleware/rate_limit.py:47-60 | pruning at the bound keeps the agreement |
| RateLimit.AgreeRecord | src/qwery_core/middleware/rate_limit.py:95-99 | recording a new time in the log and the table keeps the agreement |
| RateLimit.AgreeTouch | src/qwery_core/middleware/rate_limit.py:76-86 | inserting an empty entry keeps the agreement |
| RateLimit.CleanupKeepsAgreement | src/qwery_core/middleware/rate_limit.py:37-62 | cleanup keeps the tables in agreement with the log of admitted requests |
| RateLimit.CheckKeepsAgreement | src/qwery_core/middleware/rate_limit.py:72-99 | the check keeps the agreement, and an admitted request leaves at most the limit in each window of the log |
| RateLimit.CheckKeepsCaps | src/qwery_core/middleware/rate_limit.py:72-99 | the check keeps every stored list within its limit |
| RateLimit.RunAgrees | src/qwery_core/middleware/rate_limit.py:64-103 | along any sequence of requests in time order the tables agree with the log of admitted requests |
| RateLimit.RunStepAgrees | src/qwery_core/middleware/rate_limit.py:64-103 | one more request keeps that agreement |
| RateLimit.RunLast | src/qwery_core/middleware/rate_limit.py:64-103 | a sequence ends with its last request's dispatch |
| RateLimit.TickKeepsAgreement | src/qwery_core/middleware/rate_limit.py:64-103 | one dispatch keeps the agreement |
| RateLimit.CheckAgreement | src/qwery_core/middleware/rate_limit.py:72-99 | the check after a cleanup keeps the agreement and bounds the log |
| RateLimit.DispatchIsCheck | src/qwery_core/middleware/rate_limit.py:67-72 | a request other than `/health` is a cleanup followed by the check |
| RateLimit.DispatchKeepsAgreement | src/qwery_core/middleware/rate_limit.py:64-103 | a dispatch keeps the agreement and bounds an admitted client's log |
| RateLimit.SlidingWindow | src/qwery_core/middleware/rate_limit.py:64-103 | for any sequence of requests in time order from a new limiter, when the last one is admitted its client has at most `requests_per_minute` admitted requests in the last 60 seconds and at most `requests_per_hour` in the last 3600 |
| RateLimit.LastAdmittedBound | src/qwery_core/middleware/rate_limit.py:64-103 | the admitted last request of a sequence meets both limits |
| RateLimit.AdmittedBound | src/qwery_core/middleware/rate_limit.py:75-99 | an admitted request meets both limits in the log |
| RateLimit.EmptyAgreement | src/qwery_core/middleware/rate_limit.py:25-28 | a new limiter agrees with the empty log |
| RateLimit.RateLimiter.constructor | src/qwery_core/middleware/rate_limit.py:16-28 | the given limits, empty tables, the last cleanup at the start time |
| RateLimit.RateLimiter.Cleanup | src/qwery_core/middleware/rate_limit.py:37-62 | the new tables are the cleanup of the old ones |
| RateLimit.RateLimiter.Dispatch | src/qwery_core/middleware/rate_limit.py:64-103 | the verdict and the new tables are those of the dispatch step, and the stored windows stay within the limits |
| RateLimit.PruneAll | src/qwery_core/middleware/rate_limit.py:47-60 | the pruned table keeps only known clients, each with a non-empty list no longer than before |
| RateLimit.CleanupStep | src/qwery_core/middleware/rate_limit.py:37-62 | nothing changes, or the cleanup time becomes now, at least 300 seconds after the last; no client is added |
| RateLimit.CheckStep | src/qwery_core/middleware/rate_limit.py:72-99 | the request is forwarded exactly when both recent windows are under their limits; a rejection is a 429; the cleanup time and other clients' logs are untouched |
| RateLimit.DispatchStep | src/qwery_core/middleware/rate_limit.py:64-103 | `/health` is forwarded with nothing changed; a rejection is a 429 with `Retry-After` of 60 or 3600 |
| Core.LowerKeys | src/qwery_core/core/__init__.py:26 | the header keys are exactly the lower-cased keys given |
| Core.NewRequestContext | src/qwery_core/core/__init__.py:21-27 | missing headers or cookies give empty tables; cookies are kept as given; every header key is lower case |
| Core.GetHeader | src/qwery_core/core/__init__.py:29-30 | found iff the lower-cased name is a header key, with its value |
| Core.GetCookie | src/qwery_core/core/__init__.py:32-33 | found iff the exact name is a cookie, with its value |
| Core.HeaderCaseInsensitive | src/qwery_core/core/__init__.py:26-30 | names that differ only in case find the same header |
| Core.HeaderLookup | src/qwery_core/core/__init__.py:26-30 | a header is found iff some given key matches it without regard to case, and then it is the value of the last such key |
| Core.LastWins | src/qwery_core/core/__init__.py:26 | in the lower-cased table a key holds the value of the last item with that key |
| Core.EmptyContextMisses | src/qwery_core/core/__init__.py:21-33 | a context built without headers or cookies finds neither; the copy in the entities package is the same class |
| Core.CookieCaseSensitive | src/qwery_core/core/__init__.py:32-33 | cookie names are matched exactly, with case |
| Core.ToolName | src/qwery_core/core/__init__.py:46 | the tool's `name` attribute when it has one, its class name otherwise |
| Core.ToolRegistry.constructor | src/qwery_core/core/__init__.py:42-43 | an empty registry |
| Core.ToolRegistry.RegisterLocalTool | src/qwery_core/core/__init__.py:45-47 | the tool is stored under its name, replacing an earlier one, and the name keeps its first registration position; the access groups are ignored |
| Core.ToolRegistry.GetTool | src/qwery_core/core/__init__.py:49-50 | the tool registered under the name, or none |
| Core.ToolRegistry.ListTools | src/qwery_core/core/__init__.py:52-53 | each registered name exactly once, in order of first registration |
| Core.ReRegisterReplaces | src/qwery_core/core/__init__.py:45-53 | registering a second tool under the same name replaces the first and keeps the name's place in the list |
| Core.AgentMemory.constructor | src/qwery_core/core/__init__.py:59-60 | an empty event list |
| Core.AgentMemory.AddEvent | src/qwery_core/core/__init__.py:62-63 | the event is appended |
| Core.AgentMemory.GetEvents | src/qwery_core/core/__init__.py:65-66 | a new list holding the events in order |
| Core.CopyIsIndependent | src/qwery_core/core/__init__.py:62-66 | writing into the list `get_events` returned leaves the memory's events as they were; the same holds for the copy in the entities package |
| Core.LaterEventsMissCopy | src/qwery_core/core/__init__.py:62-66 | an event added after `get_events` returned is in the memory and not in the list it returned, which keeps the earlier events |
| DictOrder.Stamp | src/qwery_core/core/__init__.py:47-53 | assigning a key keeps the key order free of duplicates and adds exactly that key |
| DictOrder.Unstamp | src/qwery_core/presentation/websocket/__init__.py:99 | deleting a key removes exactly that key, adds nothing and keeps the order free of duplicates |
| DictOrder.FirstOccurrences | src/qwery_core/core/__init__.py:53 | the keys of the insertion history, each once |
| DictOrder.FirstIndexOf | src/qwery_core/core/__init__.py:53 | the first position of a key in the insertion history |
| DictOrder.FirstIndexOfAppend | src/qwery_core/core/__init__.py:47 | appending to the history leaves earlier first positions alone |
| DictOrder.NewKeyLast | src/qwery_core/core/__init__.py:47-53 | a new key comes last in the key order |
| DictOrder.FirstOccurrencesOrdered | src/qwery_core/core/__init__.py:53 | the key order follows first insertion |
| FileSystem.JoinPath | src/qwery_core/infrastructure/filesystem/__init__.py:16 | `os.path.join` of two parts: an absolute second part replaces the first; otherwise they are joined with one `/` unless the first is empty or ends in one |
| FileSystem.InitialSlashes | src/qwery_core/infrastructure/filesystem/__init__.py:16 | the leading slashes `normpath` keeps: none for a relative path, one, or exactly two |
| FileSystem.Slashes | src/qwery_core/infrastructure/filesystem/__init__.py:16 | that many slashes |
| FileSystem.NormPath | src/qwery_core/infrastructure/filesystem/__init__.py:16 | `normpath` never returns an empty path |
| FileSystem.FoldKeepsNames | src/qwery_core/infrastructure/filesystem/__init__.py:16 | folding the components of an absolute path keeps only plain names |
| FileSystem.FoldConcat | src/qwery_core/infrastructure/filesystem/__init__.py:16 | the fold over two lists of components is the fold over the first, continued with the second |
| FileSystem.Kept | src/qwery_core/infrastructure/filesystem/__init__.py:16 | the components kept are non-empty, not `.`, and come from the path |
| FileSystem.FoldWithoutParent | src/qwery_core/infrastructure/filesystem/__init__.py:16 | without `..` the fold appends the kept components |
| FileSystem.NormPathShape | src/qwery_core/infrastructure/filesystem/__init__.py:16 | an absolute path normalises to its leading slashes and its folded names |
| FileSystem.NewLocalFileSystem | src/qwery_core/infrastructure/filesystem/__init__.py:11-13 | the root is the absolute form of the given path |
| FileSystem.ResolvePath | src/qwery_core/infrastructure/filesystem/__init__.py:15-19 | succeeds iff the normalised joined path starts with the root as a string, and then returns it; otherwise the traversal error |
| FileSystem.ResolvePathStrict | src/qwery_core/infrastructure/filesystem/__init__.py:15-19 | the intended guard: succeeds iff the path is the root or lies below the root followed by `/`, and then returns it |
| FileSystem.Lead | src/qwery_core/infrastructure/filesystem/__init__.py:16 | the empty components that leading slashes give |
| FileSystem.SplitAfterSlashes | src/qwery_core/infrastructure/filesystem/__init__.py:16 | splitting slashes followed by a text gives empty components and then the text's |
| FileSystem.SlashesThenName | src/qwery_core/infrastructure/filesystem/__init__.py:16 | that prefix has exactly that many leading slashes |
| FileSystem.KeptNames | src/qwery_core/infrastructure/filesystem/__init__.py:16 | plain names are all kept |
| FileSystem.JoinStartsWithFirst | src/qwery_core/infrastructure/filesystem/__init__.py:16 | a joined path starts with its first part's first character |
| FileSystem.JoinEndsWithLast | src/qwery_core/infrastructure/filesystem/__init__.py:16 | a joined path ends with its last part's last character |
| FileSystem.JoinedShape | src/qwery_core/infrastructure/filesystem/__init__.py:16 | a relative path joined to a rendered root is the root's names followed by its components |
| FileSystem.StrictIsNarrower | src/qwery_core/infrastructure/filesystem/__init__.py:15-19 | every path the strict guard accepts the source's guard accepts too, with the same result |
| FileSystem.FullPathBelowRoot | src/qwery_core/infrastructure/filesystem/__init__.py:16 | a relative path without `..` resolves to the root followed by its kept components |
| FileSystem.FoldBelowRoot | src/qwery_core/infrastructure/filesystem/__init__.py:16 | folding the root and such components keeps both |
| FileSystem.FoldLead | src/qwery_core/infrastructure/filesystem/__init__.py:16 | leading empty components do not change the fold |
| FileSystem.FoldNames | src/qwery_core/infrastructure/filesystem/__init__.py:16 | folding plain names gives them back |
| FileSystem.FoldCons | src/qwery_core/infrastructure/filesystem/__init__.py:16 | the fold takes one component at a time |
| FileSystem.NormPathOf | src/qwery_core/infrastructure/filesystem/__init__.py:16 | a path with those leading slashes and folded components normalises to their rendering |
| FileSystem.RenderNoTrailingSlash | src/qwery_core/infrastructure/filesystem/__init__.py:16 | a rendered root with names does not end with `/` |
| FileSystem.RenderBelow | src/qwery_core/infrastructure/filesystem/__init__.py:16-17 | a rendered path below the root starts with the root followed by `/` |
| FileSystem.DescendantsAccepted | src/qwery_core/infrastructure/filesystem/__init__.py:15-19 | every relative path without `..` is accepted by the strict guard and resolves below the root |
| FileSystem.KeptEmpty | src/qwery_core/infrastructure/filesystem/__init__.py:16 | empty components are not kept |
| FileSystem.SiblingEscapes | src/qwery_core/infrastructure/filesystem/__init__.py:15-19 | with root `/name`, `../sibling` for a sibling directory whose name extends it is accepted by the source's guard and rejected by the strict one |
| FileSystem.SiblingFold | src/qwery_core/infrastructure/filesystem/__init__.py:16 | `/name/../sibling` folds to `sibling` |
| FileSystem.DataSiblingEscapes | src/qwery_core/infrastructure/filesystem/__init__.py:15-19 | with root `/data`, `../data2` passes the source's guard and not the strict one |
| FileSystem.AbsPath | src/qwery_core/infrastructure/filesystem/__init__.py:16 | never empty, and absolute when the path or the working directory is |
| Visualization.NormalizeSeries | src/qwery_core/tools/visualization.py:57-64 | a `str`, a `bytes` value or a scalar becomes a one-element list; a sequence or other iterable becomes the list of its items |
| Visualization.NormalizeIdempotent | src/qwery_core/tools/visualization.py:57-64 | normalising the list a normalisation returned gives it back |
| Visualization.TextIsOnePoint | src/qwery_core/tools/visualization.py:58-59 | a string is one data point |
| Visualization.ChartType | src/qwery_core/tools/visualization.py:42 | an unset or empty chart type is `bar`; otherwise it is lower-cased |
| Visualization.TraceFor | src/qwery_core/tools/visualization.py:44-49 | a lines trace iff the type is `line`, a markers trace iff it is `scatter`, bars otherwise |
| Visualization.Execute | src/qwery_core/tools/visualization.py:24-51 | fails iff there are fewer than two keys or the first two series normalise to different lengths, with the matching message; otherwise the chart plots the first key against the second, named after and titled by the keys, with the given title and the chosen trace |
| Visualization.ExtraKeysIgnored | src/qwery_core/tools/visualization.py:34 | keys after the first two change nothing |
| Visualization.TraceCases | src/qwery_core/tools/visualization.py:42-49 | an unset type and every unknown one draw bars; the type is read without regard to case |
| PyStr.LStrip | src/qwery_core/agent.py:163 | `str.lstrip`: drops exactly the leading whitespace |
| PyStr.RStrip | src/qwery_core/agent.py:163 | `str.rstrip`: drops exactly the trailing whitespace |
| PyStr.Strip | src/qwery_core/agent.py:163 | `str.strip`: the result has no surrounding whitespace and is no longer than the text |
| PyStr.StripOfStripped | src/qwery_core/agent.py:168 | a stripped text strips to itself |
| PyStr.StripIdempotent | src/qwery_core/agent.py:163-168 | stripping twice is stripping once |
| PyStr.StripEmptyIff | src/qwery_core/agent.py:42-45 | a text strips to empty iff it is all whitespace |
| PyStr.Lower | src/qwery_core/agent.py:62 | `str.lower` keeps the length |
| PyStr.LowerIdempotent | src/qwery_core/agent.py:62 | lower-casing twice is lower-casing once |
| PyStr.NonEmpty | src/qwery_core/agent.py:42 | the filter `if part`: keeps exactly the non-empty parts |
| PyStr.NonEmptyConcat | src/qwery_core/agent.py:42 | that filter distributes over concatenation |
| PyStr.Split | src/qwery_core/agent.py:42 | `str.split(sep)`: at least one part, none containing the separator |
| PyStr.JoinSplit | src/qwery_core/agent.py:42 | joining the parts with the separator gives the text back |
| PyStr.SplitNoSep | src/qwery_core/agent.py:42 | a text without the separator is one part |
| PyStr.SplitConcat | src/qwery_core/agent.py:42 | splitting around one separator concatenates the splits |
| PyStr.SplitJoin | src/qwery_core/agent.py:42 | splitting parts joined by a separator they do not contain gives them back |
| PyStr.JoinAppend | src/qwery_core/agent.py:168 | joining two non-empty lists puts one separator between them |
| PyStr.SplitLines | src/qwery_core/agent.py:165 | `str.splitlines`: empty iff the text is, and no line holds a line break |
| PyStr.ContainsWitness | src/qwery_core/agent.py:317 | a text contains what occurs in it at some position |
| PyStr.ContainsTransitive | src/qwery_core/agent.py:317 | containment is transitive |
| PyStr.ContainsSelf | src/qwery_core/agent.py:317 | a text contains itself |
| PyStr.JoinContainsPart | src/qwery_core/agent.py:314-319 | a joined text contains each part |
| PyStr.JoinNonEmptyContains | src/qwery_core/agent.py:314-319 | joined non-empty parts contain each non-empty part |
| PyStr.NatToString | src/qwery_core/toon.py:55-57 | `str` of a natural number: one or more decimal digits |
| PyStr.ParseNatToString | src/qwery_core/toon.py:57 | reading the digits back gives the number |
| PyStr.NatToStringInjective | src/qwery_core/toon.py:57 | different numbers print differently |
| PyStr.IntToString | src/qwery_core/toon.py:16 | `str` of an integer, with a minus sign when negative |
| PyStr.StripAll | src/qwery_core/agent.py:42-45 | `[g.strip() for g in parts if g.strip()]`: exactly the non-empty stripped parts |
| PyStr.StripEach | src/qwery_core/agent.py:42 | each part stripped |
| PyStr.OrElse | src/qwery_core/agent.py:36 | `a or b` on optional strings: `a` when it is a non-empty string, `b` otherwise |
| PyStr.EnvOr | src/qwery_core/agent.py:38-44 | `os.environ.get(name, default)` |
| PyStr.AfterFirst | src/qwery_core/server_components/websocket.py:351 | `s.split(sep, 1)[1]`: the text after the first separator, none when there is none |
| PyStr.AfterFirstAt | src/qwery_core/server_components/websocket.py:351 | that is the text after the separator's first position |
| JsonValue.FirstTruthyKey | src/qwery_core/supabase/session.py:194-197 | the position of the first key holding a truthy value, or the number of keys |
| JsonValue.FirstTruthy | src/qwery_core/supabase/session.py:194-198 | that key's value; none iff no key holds a truthy value |

## Left out

- Concurrency is not modelled. This covers asyncio tasks, the heartbeat sleep loop and its cancellation, `asyncio.gather`, and the locks. Each operation is one atomic sequential step, and a broadcast is one send attempt per connection in list order.
- The FastAPI/Starlette transport is not modelled: `receive_json`, `send_json`, `close` and route registration. Sends and closes are recorded in an event trace instead.
- A per-connection send that raises `RuntimeError` in `_broadcast` is not told apart from a send that succeeds. The trace records one send attempt per connection, which holds in both cases.
- The LLM providers, the SQL runners, the Supabase queries, `supabase/message_service.py` and `normalize_chat_id` (SHA-256 based) are not modelled. They are function parameters. The message service's `ensure_chat_exists`, the `gp_chats` and `gp_deployment_request` queries and `get_chat_history` return a value or the exception they raise. The Supabase clients are those of the default factories, which raise without the configuration or the service-role key.
- A user lookup through `client.auth.get_user()` that raises is not modelled: `get_session` gets a user, or no user. `save_message` is a parameter that says whether it returns.
- The session manager's admin client is built once and then cached. The model builds it from the environment on each use, which gives the same outcome because the environment is fixed.
- Inside `handle_prompt`, CSV writing, logging and timing are not modelled. The `uuid4` hex token of the CSV name is a parameter.
- The registered `run_sql` tool is not modelled, nor its `file_system` swap at src/qwery_core/agent.py:257. Its result comes from the same query function as the runner built from a url.
- Passing the visualization data to `VisualizeDataTool.execute` at src/qwery_core/agent.py:298-302 is modelled through `Visualization.Execute`. The plotly figure and its JSON are not modelled; the model's `Chart` value stands for them.
- `create_agent`, `_build_tool_registry` and `_build_user_resolver` (src/qwery_core/agent.py:79-137) are not modelled. They are wiring and file-system set-up, not part of the modelled behaviour.
- Clocks are integers: `time.time()` as seconds and `datetime.now` as an integer instant. The source's strict comparisons are kept (`> now - 60`, older than one hour).
- Exception classes are modelled as tagged error values, with the texts the source builds. A Python exception that the modelled code does not raise itself is an error value from the oracle.
- A truthy `sql` that is a number or a boolean stops with the `TypeError` of the `len(sql)` at src/qwery_core/agent.py:224. A list or an object goes on to the query step. Its `str()` text, which the error wrapping and the summary print, is a parameter, since Python's `repr` of a list is not modelled. Without a summary from the model it then stops with the `TypeError` of the fallback `"\n".join`. A reply that parses to something other than an object stops with the `AttributeError` of `payload.get`. These exceptions' message texts are not modelled.
- A `chat_history` of `None` is modelled as an empty list.
- Python `str.lower`, `str.isalnum` and `str.isalpha` are modelled on ASCII only. `str.isspace` uses Python's set of whitespace characters.
- Dictionary and set iteration order is kept only where the result depends on it: last activity, the tool registry and the visualization data. Elsewhere, for example the result order of `DatasourceStore.list`, it is not determined.
- Datasources.DatasourceStore.List: the order of the returned list is not modelled, because Python's set order for `_by_project[p]` is not specified.
- Datasources.DatasourceStore.GetForProject: when several records of a project match the identifier, the model returns one of them and does not say which, because the source takes the first in set order.
- Datasources.DatasourceStore.ResolveConnectionUrl: the url is that of some matching record, for the same reason.
- Protocol.CommandRoundTrip: holds only for command arguments without wrapper keys. The smart-union choice by which pydantic may type a plain argument dictionary is not modelled, so a plain dictionary stays raw.
- Agent.VisualizationFor: states only that a produced summary comes from an accepted request. The converse needs the rows to cover both columns, and is stated by Agent.VizAccepted, Agent.SameAxisRaises and Agent.VizDeclined.
- JSON numbers are integers. Floats in decoded replies, query results and previews are not modelled, nor is their `str()` text.
- Toon.EscapeValue: values other than `None` and booleans are given as their `str()` text. Floats, dates and other Python types are not modelled.
- `datetime` values in `DatasourceRecord` are integer times, and `to_dict` is not modelled: it is a field-by-field copy.
- `urllib.parse.urlparse` is modelled only as far as `_build_sql_runner` needs it: the scheme, the network location after `//`, and the path up to `?` or `#`. Parameters, user info and ports are not modelled. Nor is the clean-up `urlsplit` does first: removing leading C0 control characters and spaces, and removing every tab, carriage return and line feed. A url holding those is parsed as it is.
- `os.path.abspath` in `LocalFileSystem` is `normpath` joined to a current directory that is a parameter. Symbolic links are not resolved, and neither does the source resolve them.
- The rate limiter's `defaultdict` behaviour is kept: reading a client's list inserts an empty entry, even for a rejected request.
- `RequestContext` headers are modelled as a sequence of pairs, so that the case-folding collision "last key wins" can be stated.
- The endpoint's websocket headers are a map with lower-case keys. Starlette's lookup ignores case, so `authorization` and `x-refresh-token` are read under their lower-case names.
- WebsocketCommon.ChatKeyCollides: the chat key `p + ":" + c` (session key and chat id in the server manager) is not injective. The model states this and does not assume otherwise.
- The two managers' `_heartbeat` coroutine is not modelled. Only `_stop_heartbeat` bookkeeping is.

## Findings

| source | as written | input that shows it | evidently intended | confidence | as-written member | corrected member |
|---|---|---|---|---|---|---|
| src/qwery_core/server_components/websocket.py:144-154 | The server manager calls `agent.handle_prompt` with the keywords `session_manager`, `project_id`, `chat_id`, `access_token` and `refresh_token`. `handle_prompt` (src/qwery_core/agent.py:179-186) declares only `database_url` and `chat_history`, so the call raises `TypeError`. | Any user `Message` frame on an authenticated socket (the handler is WsServer.AsWrittenPrompt). It is answered with `agent_error` and the `TypeError` text, and no reply is ever broadcast. | A prompt handler that accepts the call. On success its reply is broadcast to every connection of the key. | not executed | WsServer.AsWrittenPromptAlwaysFails | WsServer.PromptSuccessBroadcast |
| src/qwery_core/infrastructure/filesystem/__init__.py:16-18 | `resolve_path` accepts any path whose text starts with `root_path`. The copy at src/qwery_core/core/__init__.py:91-93 does the same. | Root `/data` and relative path `../data2`: the result is `/data2`, outside the working directory, and it is accepted. | Accept only the root itself or paths below `root_path + "/"`. This is FileSystem.ResolvePathStrict. FileSystem.StrictIsNarrower shows it agrees with the source wherever it accepts. | not executed | FileSystem.DataSiblingEscapes | FileSystem.DescendantsAccepted |
