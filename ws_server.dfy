/**
  The websocket manager of the server, keyed by `session_key:chat_id`,
  working on the chat states the Supabase session manager owns, and the
  endpoint `/ws/agent/{project_id}/{chat_id}` that authenticates a socket,
  connects it and feeds it frames.  Only connections and activity stamps
  are the manager's own; sends and closes are appended to `trace`, and
  `nextId` counts the `uuid4()` calls.
 */
module WsServer {
  import opened Wrappers
  import opened PyStr
  import opened JsonValue
  import opened Protocol
  import opened DictOrder
  import opened WebsocketCommon
  import opened ReplyFormat
  import opened SupabaseSession

  /** The keyword arguments the manager passes to the prompt handler, and the chat state it could read. */
  datatype PromptCall = PromptCall(
    prompt: string,
    projectId: string,
    chatId: string,
    databaseUrl: Option<Json>,
    history: seq<HistoryEntry>,
    accessToken: string,
    refreshToken: Option<string>)

  type ServerPromptHandler = PromptCall -> PromptOutcome

  /** The text of the `TypeError` raised when `handle_prompt` is called with keywords it does not declare. */
  const KwargsError := "handle_prompt() got an unexpected keyword argument 'session_manager'"

  /**
    The prompt handler as the manager calls it: `handle_prompt` accepts
    only `database_url` and `chat_history` as keywords, so the call with
    `session_manager=...` raises before the handler runs.
   */
  function AsWrittenPrompt(call: PromptCall): (r: PromptOutcome)
    ensures r.PromptFailed?
  {
    PromptFailed(KwargsError)
  }

  /** The part of a `SupabaseChatState` that handling a frame can change. */
  datatype ChatSettings = ChatSettings(databaseUrl: Option<Json>, deploymentInfo: Option<map<string, Json>>)

  /** `deployment_info` with `role` set, created as `{}` first when it is `None`. */
  function WithRole(info: Option<map<string, Json>>, role: string): (r: map<string, Json>)
    ensures "role" in r && r["role"] == JStr(role)
    ensures info.Some? ==> forall k :: k in info.value && k != "role" ==> k in r && r[k] == info.value[k]
    ensures forall k :: k in r && k != "role" ==> info.Some? && k in info.value
  {
    (if info.None? then map[] else info.value)["role" := JStr(role)]
  }

  /**
    `_handle_command` of the server: `Set` with a database key sets the
    url, with `role` sets the role in the deployment record; the new
    settings and the reply text, `None` when nothing happens.
   */
  function CommandEffect(c: CommandBody, before: ChatSettings): (r: Option<(ChatSettings, string)>)
    ensures r.Some? <==> c.command == CmdSet && c.arguments.SetArgs?
                         && c.arguments.key in {KeyDatabase, KeyDatabaseUpper, KeyDatabaseUrl, KeyDatabaseUrlUpper, KeyRole}
    ensures r.Some? && c.arguments.key != KeyRole ==> r.value.0 == before.(databaseUrl := Some(JStr(c.arguments.value)))
    ensures r.Some? && c.arguments.key == KeyRole ==>
      r.value.0 == before.(deploymentInfo := Some(WithRole(before.deploymentInfo, c.arguments.value)))
    ensures r.Some? ==> r.value.1 != ""
  {
    if c.command == CmdSet && c.arguments.SetArgs? then
      var key := c.arguments.key;
      var value := c.arguments.value;
      if key == KeyDatabase || key == KeyDatabaseUpper then
        Some((before.(databaseUrl := Some(JStr(value))), "Database context set to " + value))
      else if key == KeyDatabaseUrl || key == KeyDatabaseUrlUpper then
        Some((before.(databaseUrl := Some(JStr(value))), "Database URL updated."))
      else if key == KeyRole then
        Some((before.(deploymentInfo := Some(WithRole(before.deploymentInfo, value))), "Role context set to " + value))
      else None
    else None
  }

  /** What handling one frame does: the new settings, the events and the next fresh-id index. */
  datatype Reaction = Reaction(settings: ChatSettings, events: seq<Event>, nextId: nat)

  /**
    `handle_message` of the server on one key, given the chat state's
    settings and history, the key's connections and the first fresh-id
    index.  The history is only read.
   */
  function Respond(ws: WsId, msg: ProtocolMessage, call: PromptCall, before: ChatSettings, conns: seq<Connection>, n: nat,
                   handler: ServerPromptHandler): (r: Reaction)
    ensures n <= r.nextId <= n + 2
    ensures r.settings != before ==> Classify(msg).RunCommand?
    ensures !Classify(msg).RunPrompt? ==> forall e :: e in r.events ==> e.Sent? && e.ws == ws
  {
    match Classify(msg)
    case EchoHeartbeat =>
      Reaction(before, [Sent(ws, Create(Heartbeat, msg.payload, "server", "client", None, FreshId(n)))], n + 1)
    case RunCommand(c) =>
      (match CommandEffect(c, before)
       case None => Reaction(before, [], n)
       case Some((after, text)) => Reaction(after, [Sent(ws, TextMessage(System, text, FreshId(n)))], n + 1))
    case InvalidPayload =>
      Reaction(before, [Sent(ws, CreateErrorMessage("invalid_payload", "Unsupported message payload.", None, "server", "client", FreshId(n), FreshId(n + 1)))], n + 2)
    case IgnoreRole =>
      Reaction(before, [], n)
    case RunPrompt(content) =>
      match handler(call.(prompt := content))
      case PromptFailed(description) =>
        var err := CreateErrorMessage("agent_error", description, None, "server", "client", FreshId(n), FreshId(n + 1));
        Reaction(before, [Sent(ws, err)] + BroadcastEvents(conns, {ws}, err), n + 2)
      case PromptOk(response) =>
        Reaction(before, BroadcastEvents(conns, {}, TextMessage(Assistant, ReplyText(response), FreshId(n))), n + 1)
  }

  /**
    What the manager keeps true: every listed key has connections, all with
    a running heartbeat; a connected key has an activity stamp; the order
    lists the stamped keys once each.
   */
  ghost predicate Registered(connections: map<string, seq<Connection>>, lastActivity: map<string, int>, order: seq<string>) {
    && (forall k :: k in connections ==> connections[k] != [])
    && (forall k, c :: k in connections && c in connections[k] ==> c.heartbeatActive)
    && connections.Keys <= lastActivity.Keys
    && NoDuplicates(order)
    && (forall k :: k in order <==> k in lastActivity)
  }

  lemma ConnectKeepsRegistered(connections: map<string, seq<Connection>>, lastActivity: map<string, int>, order: seq<string>,
                               key: string, c: Connection, now: int)
    requires Registered(connections, lastActivity, order)
    requires c.heartbeatActive
    ensures Registered(connections[key := ConnectionsOf(connections, key) + [c]], lastActivity[key := now], Stamp(order, key))
  {
  }

  lemma StampKeepsRegistered(connections: map<string, seq<Connection>>, lastActivity: map<string, int>, order: seq<string>, key: string, now: int)
    requires Registered(connections, lastActivity, order)
    ensures Registered(connections, lastActivity[key := now], Stamp(order, key))
  {
  }

  lemma ShrinkKeepsRegistered(connections: map<string, seq<Connection>>, lastActivity: map<string, int>, order: seq<string>,
                              key: string, remaining: seq<Connection>)
    requires Registered(connections, lastActivity, order)
    requires key in connections && remaining != []
    requires forall c :: c in remaining ==> c in connections[key]
    ensures Registered(connections[key := remaining], lastActivity, order)
  {
  }

  lemma DropKeepsRegistered(connections: map<string, seq<Connection>>, lastActivity: map<string, int>, order: seq<string>, key: string)
    requires Registered(connections, lastActivity, order)
    ensures Registered(connections - {key}, lastActivity - {key}, Unstamp(order, key))
  {
  }

  lemma DisconnectKeepsRegistered(connections: map<string, seq<Connection>>, lastActivity: map<string, int>, order: seq<string>,
                                  key: string, ws: WsId)
    requires Registered(connections, lastActivity, order)
    ensures Emptied(connections, key, ws) ==> Registered(connections - {key}, lastActivity - {key}, Unstamp(order, key))
    ensures key in connections && !Emptied(connections, key, ws) ==>
      Registered(connections[key := Remaining(connections, key, ws)], lastActivity, order)
  {
    if key in connections {
      var remaining := Remaining(connections, key, ws);
      RemoveFirstKeepsOthers(connections[key], ws);
      assert forall c :: c in remaining ==> c in connections[key] by {
        forall c | c in remaining ensures c in connections[key] {
          assert multiset(remaining)[c] > 0;
        }
      }
      if remaining == [] {
        DropKeepsRegistered(connections, lastActivity, order, key);
      } else {
        ShrinkKeepsRegistered(connections, lastActivity, order, key, remaining);
      }
    }
  }

  lemma ExpireAllKeepsRegistered(connections: map<string, seq<Connection>>, lastActivity: map<string, int>, order: seq<string>, gone: set<string>)
    requires Registered(connections, lastActivity, order)
    ensures Registered(connections - gone, lastActivity - gone, Without(order, gone))
  {
  }

  /** The access token of the endpoint: `None` when the header is missing or not a bearer token. */
  function BearerToken(authorization: Option<string>): (r: Option<string>)
    ensures r.Some? <==> authorization.Some? && authorization.value != "" && StartsWith(Lower(authorization.value), "bearer ")
  {
    if authorization.None? || authorization.value == "" || !StartsWith(Lower(authorization.value), "bearer ") then None
    else
      var auth := authorization.value;
      BearerSplit(auth);
      Some(Strip(AfterFirst(auth, ' ').value))
  }

  /** A header that lower-cases to `bearer ...` has its first space at index 6, so the token is what follows the prefix. */
  lemma BearerSplit(auth: string)
    requires StartsWith(Lower(auth), "bearer ")
    ensures AfterFirst(auth, ' ') == Some(auth[7..])
  {
    assert Lower(auth)[..7] == "bearer ";
    forall k | 0 <= k < 7 ensures LowerChar(auth[k]) == "bearer "[k] {
      assert Lower(auth)[k] == Lower(auth)[..7][k];
    }
    assert auth[6] == ' ';
    assert ' ' !in auth[..6] by {
      forall k | 0 <= k < 6 ensures auth[..6][k] != ' ' {
        assert LowerChar(auth[k]) != ' ';
      }
    }
    AfterFirstAt(auth, ' ', 6);
  }

  /** How the endpoint ended for a socket. */
  datatype EndpointOutcome =
    | Rejected      // closed with 4401 before any connection was registered
    | Abandoned     // closed with 4401 after `connect` registered the connection
    | Served        // connected, fed every frame, and disconnected

  class AgentManager {
    var connections: map<string, seq<Connection>>
    var lastActivity: map<string, int>
    /** The keys of `lastActivity` in their insertion order. */
    var activityOrder: seq<string>
    var trace: seq<Event>
    var nextId: nat

    ghost predicate Valid()
      reads this
    {
      Registered(connections, lastActivity, activityOrder)
    }

    constructor ()
      ensures Valid()
      ensures connections == map[] && lastActivity == map[] && activityOrder == [] && trace == [] && nextId == 0
    {
      connections := map[];
      lastActivity := map[];
      activityOrder := [];
      trace := [];
      nextId := 0;
    }

    /**
      `connect`: one connection appended under the key, the activity
      stamped, the handshake and then the history sent; `ok` is false when
      a record's role is not a `MessageRole`, and the connection then stays
      registered.
     */
    method Connect(ws: WsId, projectId: string, session: ManagedSession, state: SupabaseChatState, now: int) returns (ok: bool)
      requires Valid()
      modifies this
      ensures Valid()
      ensures var key := ChatKey(session.key, state.chatId);
        var replay := ReplayHistory(ws, state.history, old(nextId) + 1);
        && connections == old(connections)[key := ConnectionsOf(old(connections), key) + [Connection(ws, now, true)]]
        && lastActivity == old(lastActivity)[key := now]
        && activityOrder == Stamp(old(activityOrder), key)
        && trace == old(trace) + [Sent(ws, CreateHandshakeMessage(projectId, state.chatId, "server", "client", None, FreshId(old(nextId))))] + replay.0
        && nextId == old(nextId) + 1 + |replay.0|
        && ok == replay.1
    {
      var key := ChatKey(session.key, state.chatId);
      ConnectKeepsRegistered(connections, lastActivity, activityOrder, key, Connection(ws, now, true), now);
      Register(key, Connection(ws, now, true), now);
      ok := Greet(ws, projectId, state.chatId, state.history);
    }

    /** The dictionary part of `connect`. */
    method Register(key: string, c: Connection, now: int)
      modifies this`connections, this`lastActivity, this`activityOrder
      ensures connections == old(connections)[key := ConnectionsOf(old(connections), key) + [c]]
      ensures lastActivity == old(lastActivity)[key := now]
      ensures activityOrder == Stamp(old(activityOrder), key)
    {
      connections := connections[key := ConnectionsOf(connections, key) + [c]];
      lastActivity := lastActivity[key := now];
      activityOrder := Stamp(activityOrder, key);
    }

    /** The sends of `connect`: the handshake, then the history as far as it replays. */
    method Greet(ws: WsId, projectId: string, chatId: string, history: seq<HistoryEntry>) returns (ok: bool)
      modifies this`trace, this`nextId
      ensures var replay := ReplayHistory(ws, history, old(nextId) + 1);
        && trace == old(trace) + [Sent(ws, CreateHandshakeMessage(projectId, chatId, "server", "client", None, FreshId(old(nextId))))] + replay.0
        && nextId == old(nextId) + 1 + |replay.0|
        && ok == replay.1
    {
      trace := trace + [Sent(ws, CreateHandshakeMessage(projectId, chatId, "server", "client", None, FreshId(nextId)))];
      nextId := nextId + 1;
      ok := SendHistory(ws, history);
    }

    /** `_send_history`: one text frame per record, in order, until a record whose role does not parse. */
    method SendHistory(ws: WsId, history: seq<HistoryEntry>) returns (ok: bool)
      modifies this`trace, this`nextId
      ensures trace == old(trace) + ReplayHistory(ws, history, old(nextId)).0
      ensures nextId == old(nextId) + |ReplayHistory(ws, history, old(nextId)).0|
      ensures ok == ReplayHistory(ws, history, old(nextId)).1
    {
      ghost var frames := ReplayHistory(ws, history, nextId).0;
      if history == [] {
        return true;
      }
      var i := 0;
      while i < |history| && ParseRole(history[i].role).Some?
        invariant 0 <= i <= |history|
        invariant forall k :: 0 <= k < i ==> Replayable(history[k])
        invariant |frames| >= i
        invariant nextId == old(nextId) + i
        invariant trace == old(trace) + frames[..i]
      {
        ReplayStep(ws, history, old(nextId), i);
        var role := ParseRole(history[i].role).value;
        trace := trace + [Sent(ws, TextMessage(role, history[i].content, FreshId(nextId)))];
        nextId := nextId + 1;
        i := i + 1;
      }
      ReplayStop(ws, history, old(nextId), i);
      assert frames[..i] == frames;
      ok := i == |history|;
    }

    /**
      `disconnect`: removes the first connection on this socket only; a key
      left without connections leaves both dictionaries.  The removed
      connection's heartbeat is stopped.
     */
    method Disconnect(ws: WsId, sessionKey: string, chatId: string)
      requires Valid()
      modifies this
      ensures Valid()
      ensures ChatKey(sessionKey, chatId) !in old(connections) ==> connections == old(connections)
      ensures Emptied(old(connections), ChatKey(sessionKey, chatId), ws) ==>
        && connections == old(connections) - {ChatKey(sessionKey, chatId)}
        && lastActivity == old(lastActivity) - {ChatKey(sessionKey, chatId)}
        && activityOrder == Unstamp(old(activityOrder), ChatKey(sessionKey, chatId))
      ensures ChatKey(sessionKey, chatId) in old(connections) && !Emptied(old(connections), ChatKey(sessionKey, chatId), ws) ==>
        connections == old(connections)[ChatKey(sessionKey, chatId) := Remaining(old(connections), ChatKey(sessionKey, chatId), ws)]
      ensures !Emptied(old(connections), ChatKey(sessionKey, chatId), ws) ==>
        lastActivity == old(lastActivity) && activityOrder == old(activityOrder)
      ensures nextId == old(nextId)
      ensures trace == old(trace) + (if FirstIndex(ConnectionsOf(old(connections), ChatKey(sessionKey, chatId)), ws).Some? then [HeartbeatStopped(ws)] else [])
      ensures ConnectionsOf(connections, ChatKey(sessionKey, chatId)) == Remaining(old(connections), ChatKey(sessionKey, chatId), ws)
      ensures forall k :: k != ChatKey(sessionKey, chatId) ==> ConnectionsOf(connections, k) == ConnectionsOf(old(connections), k)
    {
      DisconnectKeepsRegistered(connections, lastActivity, activityOrder, ChatKey(sessionKey, chatId), ws);
      Leave(ChatKey(sessionKey, chatId), ws);
    }

    /** `disconnect` on the key: the connection detached and its heartbeat stopped. */
    method Leave(key: string, ws: WsId)
      requires forall c :: c in ConnectionsOf(connections, key) ==> c.heartbeatActive
      modifies this`connections, this`lastActivity, this`activityOrder, this`trace
      ensures key !in old(connections) ==> connections == old(connections)
      ensures Emptied(old(connections), key, ws) ==>
        && connections == old(connections) - {key}
        && lastActivity == old(lastActivity) - {key}
        && activityOrder == Unstamp(old(activityOrder), key)
      ensures key in old(connections) && !Emptied(old(connections), key, ws) ==>
        connections == old(connections)[key := Remaining(old(connections), key, ws)]
      ensures !Emptied(old(connections), key, ws) ==>
        lastActivity == old(lastActivity) && activityOrder == old(activityOrder)
      ensures trace == old(trace) + (if FirstIndex(ConnectionsOf(old(connections), key), ws).Some? then [HeartbeatStopped(ws)] else [])
      ensures ConnectionsOf(connections, key) == Remaining(old(connections), key, ws)
      ensures forall k :: k != key ==> ConnectionsOf(connections, k) == ConnectionsOf(old(connections), k)
    {
      var removed := Detach(key, ws);
      if removed.Some? {
        assert removed.value in old(connections)[key];
        var stopped := StopHeartbeat(removed.value);
        trace := trace + stopped.1;
      }
    }

    /** The dictionary part of `disconnect`; the removed connection, if any. */
    method Detach(key: string, ws: WsId) returns (removed: Option<Connection>)
      modifies this`connections, this`lastActivity, this`activityOrder
      ensures key !in old(connections) ==> connections == old(connections) && removed.None?
      ensures Emptied(old(connections), key, ws) ==>
        && connections == old(connections) - {key}
        && lastActivity == old(lastActivity) - {key}
        && activityOrder == Unstamp(old(activityOrder), key)
      ensures key in old(connections) && !Emptied(old(connections), key, ws) ==>
        connections == old(connections)[key := Remaining(old(connections), key, ws)]
      ensures !Emptied(old(connections), key, ws) ==>
        lastActivity == old(lastActivity) && activityOrder == old(activityOrder)
      ensures removed.Some? <==> FirstIndex(ConnectionsOf(old(connections), key), ws).Some?
      ensures removed.Some? ==> removed.value == old(connections)[key][FirstIndex(old(connections)[key], ws).value]
      ensures ConnectionsOf(connections, key) == Remaining(old(connections), key, ws)
      ensures forall k :: k != key ==> ConnectionsOf(connections, k) == ConnectionsOf(old(connections), k)
    {
      removed := None;
      if key !in connections {
        return;
      }
      var conns := connections[key];
      var i := FindConnection(conns, ws);
      var remaining := conns;
      if i < |conns| {
        remaining := conns[..i] + conns[i + 1..];
        removed := Some(conns[i]);
      }
      assert remaining == RemoveFirst(conns, ws);
      if remaining == [] {
        connections := connections - {key};
        lastActivity := lastActivity - {key};
        activityOrder := Unstamp(activityOrder, key);
      } else {
        connections := connections[key := remaining];
      }
    }

    /**
      `handle_message`: stamps the activity of the key, then reacts as
      `Respond` says; the chat state's url and deployment record are the
      only parts written.
     */
    method HandleMessage(ws: WsId, msg: ProtocolMessage, session: ManagedSession, state: SupabaseChatState,
                         accessToken: string, refreshToken: Option<string>, now: int, handler: ServerPromptHandler)
      requires Valid()
      modifies this, state`databaseUrl, state`deploymentInfo
      ensures Valid()
      ensures var key := ChatKey(session.key, state.chatId);
        var call := PromptCall("", state.projectId, state.chatId, old(state.databaseUrl), state.history, accessToken, refreshToken);
        var r := Respond(ws, msg, call, ChatSettings(old(state.databaseUrl), old(state.deploymentInfo)), ConnectionsOf(old(connections), key), old(nextId), handler);
        && lastActivity == old(lastActivity)[key := now]
        && activityOrder == Stamp(old(activityOrder), key)
        && connections == old(connections)
        && ChatSettings(state.databaseUrl, state.deploymentInfo) == r.settings
        && trace == old(trace) + r.events
        && nextId == r.nextId
    {
      StampKeepsRegistered(connections, lastActivity, activityOrder, ChatKey(session.key, state.chatId), now);
      Handle(ws, msg, session, state, accessToken, refreshToken, now, handler);
    }

    /** `handle_message` apart from what it keeps true. */
    method Handle(ws: WsId, msg: ProtocolMessage, session: ManagedSession, state: SupabaseChatState,
                  accessToken: string, refreshToken: Option<string>, now: int, handler: ServerPromptHandler)
      modifies this, state`databaseUrl, state`deploymentInfo
      ensures var key := ChatKey(session.key, state.chatId);
        var call := PromptCall("", state.projectId, state.chatId, old(state.databaseUrl), state.history, accessToken, refreshToken);
        var r := Respond(ws, msg, call, ChatSettings(old(state.databaseUrl), old(state.deploymentInfo)), ConnectionsOf(old(connections), key), old(nextId), handler);
        && lastActivity == old(lastActivity)[key := now]
        && activityOrder == Stamp(old(activityOrder), key)
        && connections == old(connections)
        && ChatSettings(state.databaseUrl, state.deploymentInfo) == r.settings
        && trace == old(trace) + r.events
        && nextId == r.nextId
    {
      var key := ChatKey(session.key, state.chatId);
      Touch(key, now);
      var call := PromptCall("", state.projectId, state.chatId, state.databaseUrl, state.history, accessToken, refreshToken);
      React(ws, msg, key, call, state, handler);
    }

    /** The activity stamp of `handle_message`. */
    method Touch(key: string, now: int)
      modifies this`lastActivity, this`activityOrder
      ensures lastActivity == old(lastActivity)[key := now]
      ensures activityOrder == Stamp(old(activityOrder), key)
    {
      lastActivity := lastActivity[key := now];
      activityOrder := Stamp(activityOrder, key);
    }

    /** The branches of `handle_message` after the activity stamp. */
    method React(ws: WsId, msg: ProtocolMessage, key: string, call: PromptCall, state: SupabaseChatState, handler: ServerPromptHandler)
      modifies this`trace, this`nextId, state`databaseUrl, state`deploymentInfo
      ensures var r := Respond(ws, msg, call, ChatSettings(old(state.databaseUrl), old(state.deploymentInfo)), ConnectionsOf(connections, key), old(nextId), handler);
        && ChatSettings(state.databaseUrl, state.deploymentInfo) == r.settings
        && trace == old(trace) + r.events
        && nextId == r.nextId
    {
      // `Classify` is the priority order of the checks in `handle_message`.
      match Classify(msg)
      case EchoHeartbeat =>
        ReactEcho(ws, msg, key, call, state, handler);
      case RunCommand(command) =>
        ReactCommand(ws, msg, key, call, state, handler);
      case InvalidPayload =>
        ReactInvalid(ws, msg, key, call, state, handler);
      case IgnoreRole =>
      case RunPrompt(content) =>
        ReactPrompt(ws, msg, key, call, state, handler);
    }

    /** The heartbeat branch of `handle_message`: the payload echoed to the sender. */
    method ReactEcho(ws: WsId, msg: ProtocolMessage, key: string, call: PromptCall, state: SupabaseChatState, handler: ServerPromptHandler)
      requires Classify(msg) == EchoHeartbeat
      modifies this`trace, this`nextId
      ensures var r := Respond(ws, msg, call, ChatSettings(old(state.databaseUrl), old(state.deploymentInfo)), ConnectionsOf(connections, key), old(nextId), handler);
        && ChatSettings(state.databaseUrl, state.deploymentInfo) == r.settings
        && trace == old(trace) + r.events
        && nextId == r.nextId
    {
      trace := trace + [Sent(ws, Create(Heartbeat, msg.payload, "server", "client", None, FreshId(nextId)))];
      nextId := nextId + 1;
    }

    /** The branch of `handle_message` for a frame with no usable payload. */
    method ReactInvalid(ws: WsId, msg: ProtocolMessage, key: string, call: PromptCall, state: SupabaseChatState, handler: ServerPromptHandler)
      requires Classify(msg) == InvalidPayload
      modifies this`trace, this`nextId
      ensures var r := Respond(ws, msg, call, ChatSettings(old(state.databaseUrl), old(state.deploymentInfo)), ConnectionsOf(connections, key), old(nextId), handler);
        && ChatSettings(state.databaseUrl, state.deploymentInfo) == r.settings
        && trace == old(trace) + r.events
        && nextId == r.nextId
    {
      trace := trace + [Sent(ws, CreateErrorMessage("invalid_payload", "Unsupported message payload.", None, "server", "client", FreshId(nextId), FreshId(nextId + 1)))];
      nextId := nextId + 2;
    }

    /** The command branch of `handle_message`, as `Respond` states it. */
    method ReactCommand(ws: WsId, msg: ProtocolMessage, key: string, call: PromptCall, state: SupabaseChatState, handler: ServerPromptHandler)
      requires Classify(msg).RunCommand?
      modifies this`trace, this`nextId, state`databaseUrl, state`deploymentInfo
      ensures var r := Respond(ws, msg, call, ChatSettings(old(state.databaseUrl), old(state.deploymentInfo)), ConnectionsOf(connections, key), old(nextId), handler);
        && ChatSettings(state.databaseUrl, state.deploymentInfo) == r.settings
        && trace == old(trace) + r.events
        && nextId == r.nextId
    {
      HandleCommand(ws, Classify(msg).command, state);
    }

    /** The prompt branch of `handle_message`, as `Respond` states it. */
    method ReactPrompt(ws: WsId, msg: ProtocolMessage, key: string, call: PromptCall, state: SupabaseChatState, handler: ServerPromptHandler)
      requires Classify(msg).RunPrompt?
      modifies this`trace, this`nextId
      ensures var r := Respond(ws, msg, call, ChatSettings(old(state.databaseUrl), old(state.deploymentInfo)), ConnectionsOf(connections, key), old(nextId), handler);
        && ChatSettings(state.databaseUrl, state.deploymentInfo) == r.settings
        && trace == old(trace) + r.events
        && nextId == r.nextId
    {
      Prompt(ws, call.(prompt := Classify(msg).content), key, handler);
    }

    /** The prompt branch: the reply to every connection of the key, or the error to the sender and then the others. */
    method Prompt(ws: WsId, call: PromptCall, key: string, handler: ServerPromptHandler)
      modifies this`trace, this`nextId
      ensures var n := old(nextId);
        var conns := ConnectionsOf(connections, key);
        match handler(call)
        case PromptFailed(description) =>
          var err := CreateErrorMessage("agent_error", description, None, "server", "client", FreshId(n), FreshId(n + 1));
          trace == old(trace) + [Sent(ws, err)] + BroadcastEvents(conns, {ws}, err) && nextId == n + 2
        case PromptOk(response) =>
          trace == old(trace) + BroadcastEvents(conns, {}, TextMessage(Assistant, ReplyText(response), FreshId(n))) && nextId == n + 1
    {
      var outcome := handler(call);
      if outcome.PromptFailed? {
        ReportFailure(ws, outcome.description, key);
      } else {
        SendReply(outcome.response, key);
      }
    }

    /** A failed prompt: the `agent_error` frame to the sender, then to the key's other sockets. */
    method ReportFailure(ws: WsId, description: string, key: string)
      modifies this`trace, this`nextId
      ensures var err := CreateErrorMessage("agent_error", description, None, "server", "client", FreshId(old(nextId)), FreshId(old(nextId) + 1));
        trace == old(trace) + [Sent(ws, err)] + BroadcastEvents(ConnectionsOf(connections, key), {ws}, err) && nextId == old(nextId) + 2
    {
      var err := CreateErrorMessage("agent_error", description, None, "server", "client", FreshId(nextId), FreshId(nextId + 1));
      nextId := nextId + 2;
      trace := trace + [Sent(ws, err)];
      Broadcast(key, {ws}, err);
    }

    /** An answered prompt: the formatted reply to every socket of the key. */
    method SendReply(response: PromptResponse, key: string)
      modifies this`trace, this`nextId
      ensures trace == old(trace) + BroadcastEvents(ConnectionsOf(connections, key), {}, TextMessage(Assistant, ReplyText(response), FreshId(old(nextId))))
      ensures nextId == old(nextId) + 1
    {
      var text := FormatReply(response);
      var reply := TextMessage(Assistant, text, FreshId(nextId));
      nextId := nextId + 1;
      Broadcast(key, {}, reply);
    }

    /** `_handle_command` on the chat state. */
    method HandleCommand(ws: WsId, command: CommandBody, state: SupabaseChatState)
      modifies this`trace, this`nextId, state`databaseUrl, state`deploymentInfo
      ensures var e := CommandEffect(command, ChatSettings(old(state.databaseUrl), old(state.deploymentInfo)));
        && ChatSettings(state.databaseUrl, state.deploymentInfo) == (if e.Some? then e.value.0 else ChatSettings(old(state.databaseUrl), old(state.deploymentInfo)))
        && trace == old(trace) + (if e.Some? then [Sent(ws, TextMessage(System, e.value.1, FreshId(old(nextId))))] else [])
        && nextId == old(nextId) + (if e.Some? then 1 else 0)
    {
      var responseText: Option<string> := None;
      if command.command == CmdSet && command.arguments.SetArgs? {
        var arg := command.arguments;
        if arg.key == KeyDatabase || arg.key == KeyDatabaseUpper {
          state.databaseUrl := Some(JStr(arg.value));
          responseText := Some("Database context set to " + arg.value);
        } else if arg.key == KeyDatabaseUrl || arg.key == KeyDatabaseUrlUpper {
          state.databaseUrl := Some(JStr(arg.value));
          responseText := Some("Database URL updated.");
        } else if arg.key == KeyRole {
          if state.deploymentInfo.None? {
            state.deploymentInfo := Some(map[]);
          }
          state.deploymentInfo := Some(state.deploymentInfo.value["role" := JStr(arg.value)]);
          responseText := Some("Role context set to " + arg.value);
        }
      }
      if responseText.Some? && responseText.value != "" {
        trace := trace + [Sent(ws, TextMessage(System, responseText.value, FreshId(nextId)))];
        nextId := nextId + 1;
      }
    }

    /** `_broadcast`: one send per connection of `key` whose socket is not excluded. */
    method Broadcast(key: string, exclude: set<WsId>, frame: ProtocolMessage)
      modifies this`trace
      ensures trace == old(trace) + BroadcastEvents(ConnectionsOf(connections, key), exclude, frame)
    {
      if key !in connections {
        return;
      }
      var conns := connections[key];
      var i := 0;
      while i < |conns|
        invariant 0 <= i <= |conns|
        invariant trace + BroadcastEvents(conns[i..], exclude, frame) == old(trace) + BroadcastEvents(conns, exclude, frame)
      {
        assert conns[i..][1..] == conns[i + 1..];
        if conns[i].ws !in exclude {
          trace := trace + [Sent(conns[i].ws, frame)];
        }
        i := i + 1;
      }
    }

    /**
      `cleanup`: every key whose last activity is more than an hour before
      `now` loses its connections (each heartbeat stopped and the socket
      closed with 1001) and its activity stamp; other keys keep theirs.
     */
    method Cleanup(now: int)
      requires Valid()
      modifies this
      ensures Valid()
      ensures var expired := ExpiredKeys(old(activityOrder), old(lastActivity), now);
        && connections == old(connections) - KeySet(expired)
        && lastActivity == old(lastActivity) - KeySet(expired)
        && activityOrder == Without(old(activityOrder), KeySet(expired))
        && trace == old(trace) + CleanupEvents(expired, old(connections))
        && nextId == old(nextId)
    {
      var expired := ExpiredKeys(activityOrder, lastActivity, now);
      ExpireAllKeepsRegistered(connections, lastActivity, activityOrder, KeySet(expired));
      ExpireKeys(expired);
    }

    /** The loop of `cleanup` over the expired keys. */
    method ExpireKeys(expired: seq<string>)
      requires NoDuplicates(expired)
      modifies this
      ensures connections == old(connections) - KeySet(expired)
      ensures lastActivity == old(lastActivity) - KeySet(expired)
      ensures activityOrder == Without(old(activityOrder), KeySet(expired))
      ensures trace == old(trace) + CleanupEvents(expired, old(connections))
      ensures nextId == old(nextId)
    {
      ghost var conns0 := connections;
      ghost var order0 := activityOrder;
      WithoutNothing(order0);
      assert KeySet(expired[..0]) == {};
      var i := 0;
      while i < |expired|
        invariant 0 <= i <= |expired|
        invariant connections == conns0 - KeySet(expired[..i])
        invariant lastActivity == old(lastActivity) - KeySet(expired[..i])
        invariant activityOrder == Without(order0, KeySet(expired[..i]))
        invariant trace == old(trace) + CleanupEvents(expired[..i], conns0)
        invariant nextId == old(nextId)
      {
        var key := expired[i];
        ExpireStep(expired, i, conns0);
        UnstampWithout(order0, KeySet(expired[..i]), key);
        SubtractStep(conns0, KeySet(expired[..i]), key);
        SubtractStep(old(lastActivity), KeySet(expired[..i]), key);
        ConcatAssoc(old(trace), CleanupEvents(expired[..i], conns0), CloseAll(ConnectionsOf(conns0, key)));
        ExpireKey(key);
        i := i + 1;
      }
      assert expired[..i] == expired;
    }

    /** One step of `cleanup`: the key's connections closed, the key dropped from both dictionaries. */
    method ExpireKey(key: string)
      modifies this
      ensures connections == old(connections) - {key}
      ensures lastActivity == old(lastActivity) - {key}
      ensures activityOrder == Unstamp(old(activityOrder), key)
      ensures trace == old(trace) + CloseAll(ConnectionsOf(old(connections), key))
      ensures nextId == old(nextId)
    {
      CloseConnections(ConnectionsOf(connections, key));
      connections := connections - {key};
      lastActivity := lastActivity - {key};
      activityOrder := Unstamp(activityOrder, key);
    }

    /** The inner loop of `cleanup`: stop each heartbeat and close each socket with 1001. */
    method CloseConnections(conns: seq<Connection>)
      modifies this`trace
      ensures trace == old(trace) + CloseAll(conns)
    {
      var j := 0;
      while j < |conns|
        invariant 0 <= j <= |conns|
        invariant trace == old(trace) + CloseAll(conns[..j])
      {
        assert conns[..j + 1][..j] == conns[..j];
        var stopped := StopHeartbeat(conns[j]);
        trace := trace + stopped.1 + [Closed(conns[j].ws, CloseGoingAway)];
        j := j + 1;
      }
      assert conns[..j] == conns;
    }

    /**
      One iteration of the endpoint's receive loop: a frame that does not
      validate gets an `invalid_message` error; otherwise it is handled.
     */
    method ReceiveFrame(ws: WsId, data: Json, session: ManagedSession, state: SupabaseChatState,
                        accessToken: string, refreshToken: Option<string>, now: int, handler: ServerPromptHandler)
      requires Valid()
      modifies this, state`databaseUrl, state`deploymentInfo
      ensures Valid()
      ensures connections == old(connections)
      ensures ParseMessage(data).Failure? ==>
        && trace == old(trace) + [Sent(ws, CreateErrorMessage("invalid_message", "Unable to parse protocol message.", None, "server", "client", FreshId(old(nextId)), FreshId(old(nextId) + 1)))]
        && nextId == old(nextId) + 2
        && lastActivity == old(lastActivity) && activityOrder == old(activityOrder)
        && state.databaseUrl == old(state.databaseUrl) && state.deploymentInfo == old(state.deploymentInfo)
      ensures ParseMessage(data).Success? ==>
        var key := ChatKey(session.key, state.chatId);
        var call := PromptCall("", state.projectId, state.chatId, old(state.databaseUrl), state.history, accessToken, refreshToken);
        var r := Respond(ws, ParseMessage(data).value, call, ChatSettings(old(state.databaseUrl), old(state.deploymentInfo)), ConnectionsOf(old(connections), key), old(nextId), handler);
        && ChatSettings(state.databaseUrl, state.deploymentInfo) == r.settings
        && trace == old(trace) + r.events
        && nextId == r.nextId
        && lastActivity == old(lastActivity)[key := now]
        && activityOrder == Stamp(old(activityOrder), key)
    {
      var parsed := ParseMessage(data);
      if parsed.Failure? {
        trace := trace + [Sent(ws, CreateErrorMessage("invalid_message", "Unable to parse protocol message.", None, "server", "client", FreshId(nextId), FreshId(nextId + 1)))];
        nextId := nextId + 2;
        return;
      }
      HandleMessage(ws, parsed.value, session, state, accessToken, refreshToken, now, handler);
    }

    /** The receive loop of the endpoint. */
    method ReceiveAll(ws: WsId, session: ManagedSession, state: SupabaseChatState, accessToken: string, refreshToken: Option<string>,
                      frames: seq<(Json, int)>, handler: ServerPromptHandler)
      requires Valid()
      modifies this, state`databaseUrl, state`deploymentInfo
      ensures Valid()
      ensures connections == old(connections)
    {
      var i := 0;
      while i < |frames|
        invariant 0 <= i <= |frames|
        invariant Valid()
        invariant connections == old(connections)
      {
        ReceiveFrame(ws, frames[i].0, session, state, accessToken, refreshToken, frames[i].1, handler);
        i := i + 1;
      }
    }

    /**
      `websocket_endpoint`: a socket without a bearer `authorization`
      header, or whose session cannot be set up, is closed with 4401 and
      never registered; one whose history cannot be replayed is closed with
      4401 after `connect` has registered it, and its connection stays;
      otherwise it is served until the client goes away and then
      disconnected, and its key has as many connections as before.
     */
    method Endpoint(sessions: SupabaseSessionManager, backend: Backend, ws: WsId, headers: map<string, string>,
                    projectId: string, chatId: string, connectedAt: int, frames: seq<(Json, int)>, handler: ServerPromptHandler)
      returns (outcome: EndpointOutcome, ghost key: string)
      requires Valid()
      modifies this, sessions, sessions.chatStates.Values
      ensures Valid()
      ensures BearerToken(Env(headers, "authorization")).None? ==> outcome == Rejected && sessions.sessions == old(sessions.sessions)
      ensures outcome == Rejected <==> var token := BearerToken(Env(headers, "authorization"));
        token.None? || !SetupSucceeds(backend, old(sessions.sessions), old(sessions.Cached()), token.value, Env(headers, "x-refresh-token"), projectId, chatId)
      ensures outcome == Rejected ==> connections == old(connections) && trace == old(trace) + [Closed(ws, CloseUnauthorized)]
      ensures outcome == Abandoned ==>
        && |trace| > 0 && trace[|trace| - 1] == Closed(ws, CloseUnauthorized)
        && ConnectionsOf(connections, key) == ConnectionsOf(old(connections), key) + [Connection(ws, connectedAt, true)]
      ensures outcome == Served ==> |ConnectionsOf(connections, key)| == |ConnectionsOf(old(connections), key)|
      ensures outcome != Rejected ==> forall k :: k != key ==> ConnectionsOf(connections, k) == ConnectionsOf(old(connections), k)
    {
      var setup, accessToken, refreshToken := Authenticate(sessions, backend, headers, projectId, chatId);
      outcome, key := Proceed(ws, projectId, setup, accessToken, refreshToken, connectedAt, frames, handler);
    }

    /** The endpoint once the headers are read: a socket without a session is rejected, any other is attached. */
    method Proceed(ws: WsId, projectId: string, setup: Option<(ManagedSession, SupabaseChatState)>, accessToken: string,
                   refreshToken: Option<string>, connectedAt: int, frames: seq<(Json, int)>, handler: ServerPromptHandler)
      returns (outcome: EndpointOutcome, ghost key: string)
      requires Valid()
      modifies this, if setup.Some? then {setup.value.1} else {}
      ensures Valid()
      ensures outcome == Rejected <==> setup.None?
      ensures outcome == Rejected ==> connections == old(connections) && trace == old(trace) + [Closed(ws, CloseUnauthorized)]
      ensures outcome == Abandoned ==>
        && |trace| > 0 && trace[|trace| - 1] == Closed(ws, CloseUnauthorized)
        && ConnectionsOf(connections, key) == ConnectionsOf(old(connections), key) + [Connection(ws, connectedAt, true)]
      ensures outcome == Served ==> |ConnectionsOf(connections, key)| == |ConnectionsOf(old(connections), key)|
      ensures outcome != Rejected ==> forall k :: k != key ==> ConnectionsOf(connections, k) == ConnectionsOf(old(connections), k)
    {
      if setup.None? {
        Reject(ws);
        outcome, key := Rejected, "";
      } else {
        var session, state := setup.value.0, setup.value.1;
        key := ChatKey(session.key, state.chatId);
        outcome := Attach(ws, projectId, session, state, accessToken, refreshToken, connectedAt, frames, handler);
      }
    }

    /** The close with 4401 of a socket that does not authenticate. */
    method Reject(ws: WsId)
      modifies this`trace
      ensures trace == old(trace) + [Closed(ws, CloseUnauthorized)]
    {
      trace := trace + [Closed(ws, CloseUnauthorized)];
    }

    /** The headers of the endpoint read, and the setup done when they carry a bearer token. */
    static method Authenticate(sessions: SupabaseSessionManager, backend: Backend, headers: map<string, string>, projectId: string, chatId: string)
      returns (setup: Option<(ManagedSession, SupabaseChatState)>, accessToken: string, refreshToken: Option<string>)
      modifies sessions, sessions.chatStates.Values
      ensures BearerToken(Env(headers, "authorization")).None? ==> setup.None? && sessions.sessions == old(sessions.sessions)
      ensures setup.Some? <==> var token := BearerToken(Env(headers, "authorization"));
        token.Some? && SetupSucceeds(backend, old(sessions.sessions), old(sessions.Cached()), token.value, Env(headers, "x-refresh-token"), projectId, chatId)
      ensures setup.Some? ==> BearerToken(Env(headers, "authorization")) == Some(accessToken)
      ensures refreshToken == Env(headers, "x-refresh-token")
      ensures setup.Some? ==> fresh(setup.value.1) || setup.value.1 in old(sessions.chatStates.Values)
    {
      var token := BearerToken(Env(headers, "authorization"));
      refreshToken := Env(headers, "x-refresh-token");
      setup := None;
      accessToken := "";
      if token.Some? {
        accessToken := token.value;
        setup := Open(sessions, backend, accessToken, refreshToken, projectId, chatId);
      }
    }

    /**
      The setup of the endpoint: the session, the chat state and its
      history; `None` exactly when one of them raises.
     */
    static method Open(sessions: SupabaseSessionManager, backend: Backend, accessToken: string, refreshToken: Option<string>,
                       projectId: string, chatId: string)
      returns (setup: Option<(ManagedSession, SupabaseChatState)>)
      modifies sessions, sessions.chatStates.Values
      ensures setup.Some? <==> SetupSucceeds(backend, old(sessions.sessions), old(sessions.Cached()), accessToken, refreshToken, projectId, chatId)
      ensures accessToken == "" ==> setup.None? && sessions.sessions == old(sessions.sessions)
      ensures setup.Some? ==> setup.value.0 == SessionFor(backend, old(sessions.sessions), accessToken, refreshToken).value
      ensures setup.Some? ==> fresh(setup.value.1) || setup.value.1 in old(sessions.chatStates.Values)
      ensures setup.Some? ==> setup.value.1.historyLoaded
    {
      ghost var cached := sessions.Cached();
      var session := sessions.GetSession(backend, accessToken, refreshToken);
      assert sessions.Cached() == cached;
      if session.Failure? {
        return None;
      }
      var state := OpenChat(sessions, backend, session.value, projectId, chatId);
      if state.None? {
        return None;
      }
      return Some((session.value, state.value));
    }

    /** `get_chat_state` and `ensure_history_loaded` for an open session; `None` exactly when one of them raises. */
    static method OpenChat(sessions: SupabaseSessionManager, backend: Backend, session: ManagedSession, projectId: string, chatId: string)
      returns (state: Option<SupabaseChatState>)
      modifies sessions`chatStates, sessions.chatStates.Values
      ensures state.Some? <==> ChatSetupSucceeds(backend, old(sessions.Cached()), session, projectId, chatId)
      ensures state.Some? ==> fresh(state.value) || state.value in old(sessions.chatStates.Values)
      ensures state.Some? ==> state.value.historyLoaded
    {
      ghost var cached := sessions.Cached();
      var chat := sessions.GetChatState(backend, session, projectId, chatId);
      if chat.Failure? {
        return None;
      }
      var key := (session.key, backend.normalizeChatId(chatId));
      assert key in cached ==> cached[key] == (chat.value.chatId, chat.value.historyLoaded);
      var loaded := sessions.EnsureHistoryLoaded(backend, chat.value);
      if loaded.Failure? {
        return None;
      }
      return Some(chat.value);
    }

    /** Connect, the receive loop and the disconnect of the `finally` clause. */
    method Attach(ws: WsId, projectId: string, session: ManagedSession, state: SupabaseChatState, accessToken: string,
                  refreshToken: Option<string>, connectedAt: int, frames: seq<(Json, int)>, handler: ServerPromptHandler)
      returns (outcome: EndpointOutcome)
      requires Valid()
      modifies this, state`databaseUrl, state`deploymentInfo
      ensures Valid()
      ensures outcome != Rejected
      ensures var key := ChatKey(session.key, state.chatId);
        && (outcome == Abandoned ==>
              && |trace| > 0 && trace[|trace| - 1] == Closed(ws, CloseUnauthorized)
              && ConnectionsOf(connections, key) == ConnectionsOf(old(connections), key) + [Connection(ws, connectedAt, true)])
        && (outcome == Served ==> |ConnectionsOf(connections, key)| == |ConnectionsOf(old(connections), key)|)
        && forall k :: k != key ==> ConnectionsOf(connections, k) == ConnectionsOf(old(connections), k)
    {
      var key := ChatKey(session.key, state.chatId);
      ghost var before := connections;
      var ok := Connect(ws, projectId, session, state, connectedAt);
      if !ok {
        trace := trace + [Closed(ws, CloseUnauthorized)];
        return Abandoned;
      }
      ReceiveAll(ws, session, state, accessToken, refreshToken, frames, handler);
      JoinThenLeave(before, key, Connection(ws, connectedAt, true));
      Disconnect(ws, session.key, state.chatId);
      return Served;
    }
  }

  // ---------------------------------------------------------------------
  // What handling a frame promises
  // ---------------------------------------------------------------------

  /** A heartbeat is echoed, with the same payload, to the sender only. */
  lemma HeartbeatEchoesToSender(ws: WsId, msg: ProtocolMessage, call: PromptCall, before: ChatSettings, conns: seq<Connection>, n: nat, handler: ServerPromptHandler)
    requires msg.kind == Heartbeat || msg.payload.heartbeat.Some?
    ensures var r := Respond(ws, msg, call, before, conns, n, handler);
      && r.settings == before
      && |r.events| == 1 && r.events[0].Sent? && r.events[0].ws == ws
      && r.events[0].frame.kind == Heartbeat && r.events[0].frame.payload == msg.payload
  {
  }

  /**
    `Set role` keeps every other field of the deployment record and every
    database setting, and answers the sender with a system text; a
    database key sets the url and leaves the deployment record alone.
   */
  lemma SetCommandOutcome(ws: WsId, msg: ProtocolMessage, call: PromptCall, before: ChatSettings, conns: seq<Connection>, n: nat, handler: ServerPromptHandler)
    requires Classify(msg).RunCommand?
    ensures var c := msg.payload.command.value;
      var r := Respond(ws, msg, call, before, conns, n, handler);
      && (CommandEffect(c, before).Some? ==>
            |r.events| == 1 && r.events[0].ws == ws && r.events[0].frame.payload.message.value.role == System && r.nextId == n + 1)
      && (CommandEffect(c, before).Some? && c.arguments.key == KeyRole ==>
            && r.settings.databaseUrl == before.databaseUrl
            && r.settings.deploymentInfo.Some? && r.settings.deploymentInfo.value["role"] == JStr(c.arguments.value)
            && (before.deploymentInfo.Some? ==> forall k :: k in before.deploymentInfo.value && k != "role" ==>
                  k in r.settings.deploymentInfo.value && r.settings.deploymentInfo.value[k] == before.deploymentInfo.value[k]))
      && (CommandEffect(c, before).Some? && c.arguments.key != KeyRole ==>
            r.settings.databaseUrl == Some(JStr(c.arguments.value)) && r.settings.deploymentInfo == before.deploymentInfo)
      && (CommandEffect(c, before).None? ==> r == Reaction(before, [], n))
  {
  }

  /** A message whose role is not `user` changes nothing and sends nothing. */
  lemma NonUserIgnored(ws: WsId, msg: ProtocolMessage, call: PromptCall, before: ChatSettings, conns: seq<Connection>, n: nat, handler: ServerPromptHandler)
    requires Classify(msg) == IgnoreRole
    ensures Respond(ws, msg, call, before, conns, n, handler) == Reaction(before, [], n)
  {
  }

  /**
    As written, every user message ends in the `agent_error` frame carrying
    the `TypeError` text: the sender receives it once, and no connection
    ever receives an assistant reply.
   */
  lemma AsWrittenPromptAlwaysFails(ws: WsId, msg: ProtocolMessage, call: PromptCall, before: ChatSettings, conns: seq<Connection>, n: nat)
    requires Classify(msg).RunPrompt?
    ensures var r := Respond(ws, msg, call, before, conns, n, AsWrittenPrompt);
      && r.settings == before
      && |SentTo(r.events, ws)| == 1
      && SentTo(r.events, ws)[0].payload.error == Some(ErrorBody("agent_error", KwargsError, None, FreshId(n)))
      && forall e :: e in r.events ==> e.Sent? && e.frame.kind == Error && e.frame.payload.message.None?
  {
    var r := Respond(ws, msg, call, before, conns, n, AsWrittenPrompt);
    var err := CreateErrorMessage("agent_error", KwargsError, None, "server", "client", FreshId(n), FreshId(n + 1));
    var rest := BroadcastEvents(conns, {ws}, err);
    assert r.events == [Sent(ws, err)] + rest;
    SentToAppend([Sent(ws, err)], rest, ws);
    SentToNone(rest, ws);
    assert OnlyVariant(err.payload, 2);
  }

  /**
    With a handler that accepts the call, a successful prompt sends exactly
    one assistant reply to every connection of the key, the sender's
    included, and leaves the settings alone.
   */
  lemma PromptSuccessBroadcast(ws: WsId, msg: ProtocolMessage, call: PromptCall, before: ChatSettings, conns: seq<Connection>, n: nat, handler: ServerPromptHandler)
    requires Classify(msg).RunPrompt?
    requires handler(call.(prompt := Classify(msg).content)).PromptOk?
    ensures var r := Respond(ws, msg, call, before, conns, n, handler);
      var text := ReplyText(handler(call.(prompt := Classify(msg).content)).response);
      && r.settings == before
      && |r.events| == |conns|
      && (forall i :: 0 <= i < |conns| ==> exists e :: e in r.events && e.Sent? && e.ws == conns[i].ws && e.frame.payload.message == Some(MessageContent(Assistant, "text", text, None)))
      && (forall e :: e in r.events ==> e.frame.payload.message == Some(MessageContent(Assistant, "text", text, None)))
  {
    var r := Respond(ws, msg, call, before, conns, n, handler);
    var response := handler(call.(prompt := Classify(msg).content)).response;
    var reply := TextMessage(Assistant, ReplyText(response), FreshId(n));
    BroadcastOnlyRegistered(conns, {}, reply);
    forall i | 0 <= i < |conns|
      ensures exists e :: e in r.events && e.Sent? && e.ws == conns[i].ws && e.frame.payload.message == Some(MessageContent(Assistant, "text", ReplyText(response), None))
    {
      BroadcastReachesAll(conns, {}, reply, i);
      assert Sent(conns[i].ws, reply) in r.events;
    }
  }

  /**
    A prompt that fails leaves the settings alone; the sender receives the
    `agent_error` frame exactly once and every other connection of the key
    receives it through the broadcast.
   */
  lemma PromptFailureReported(ws: WsId, msg: ProtocolMessage, call: PromptCall, before: ChatSettings, conns: seq<Connection>, n: nat, handler: ServerPromptHandler)
    requires Classify(msg).RunPrompt?
    requires handler(call.(prompt := Classify(msg).content)).PromptFailed?
    ensures var r := Respond(ws, msg, call, before, conns, n, handler);
      && r.settings == before
      && |SentTo(r.events, ws)| == 1
      && SentTo(r.events, ws)[0].payload.error.value.errorCode == "agent_error"
      && SentTo(r.events, ws)[0].payload.error.value.message == handler(call.(prompt := Classify(msg).content)).description
      && forall i :: 0 <= i < |conns| && conns[i].ws != ws ==> r.events[0].frame in SentTo(r.events, conns[i].ws)
  {
    var r := Respond(ws, msg, call, before, conns, n, handler);
    var err := r.events[0].frame;
    var rest := BroadcastEvents(conns, {ws}, err);
    assert r.events == [Sent(ws, err)] + rest;
    SentToAppend([Sent(ws, err)], rest, ws);
    SentToNone(rest, ws);
    forall i | 0 <= i < |conns| && conns[i].ws != ws
      ensures err in SentTo(r.events, conns[i].ws)
    {
      BroadcastReachesAll(conns, {ws}, err, i);
      SentToIncludes(rest, conns[i].ws, err);
      SentToAppend([Sent(ws, err)], rest, conns[i].ws);
    }
  }

  /** A bearer header yields its text after the seven-character prefix, stripped. */
  lemma BearerTokenValue(auth: string)
    requires StartsWith(Lower(auth), "bearer ")
    ensures BearerToken(Some(auth)) == Some(Strip(auth[7..]))
  {
    BearerSplit(auth);
  }

  /** The prefix test ignores case: `Bearer`, `BEARER` and `bearer` headers all pass. */
  lemma BearerCaseInsensitive(token: string)
    ensures BearerToken(Some("Bearer " + token)) == Some(Strip(token))
    ensures BearerToken(Some("BEARER " + token)) == Some(Strip(token))
  {
    var a := "Bearer " + token;
    var b := "BEARER " + token;
    assert Lower(a)[..7] == "bearer ";
    assert Lower(b)[..7] == "bearer ";
    BearerTokenValue(a);
    BearerTokenValue(b);
    assert a[7..] == token;
    assert b[7..] == token;
  }

  /** A history loaded from the store always replays completely, so `connect` cannot abandon such a socket. */
  lemma LoadedHistoryReplays(ws: WsId, messages: seq<StoredMessage>, firstId: nat)
    ensures ReplayHistory(ws, ConvertHistory(messages), firstId).1
  {
    ConvertedRolesValid(messages);
    ReplayHistoryComplete(ws, ConvertHistory(messages), firstId);
  }
}
