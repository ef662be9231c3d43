/**
  The websocket manager of the presentation layer, keyed by
  `project_id:chat_id`.  It keeps three dictionaries: the connections of a
  key, the key's last activity and its chat state (database url and
  history).  Sends and closes are appended to `trace`; `nextId` counts the
  `uuid4()` calls so far.  The prompt handler is a parameter.
 */
module WsPresentation {
  import opened Wrappers
  import opened PyStr
  import opened JsonValue
  import opened Protocol
  import opened DictOrder
  import opened WebsocketCommon
  import opened ReplyFormat

  /** `ChatState`. */
  datatype ChatState = ChatState(chatId: string, databaseUrl: Option<string>, history: seq<HistoryEntry>)

  /** `handle_prompt(agent, context, content, database_url=..., chat_history=...)`. */
  type PromptHandler = (string, Option<string>, seq<HistoryEntry>) -> PromptOutcome

  /** The chat state a key has, or the one `ChatState(chat_id=chat_id)` creates for it. */
  function ChatStateOr(states: map<string, ChatState>, key: string, chatId: string): ChatState {
    if key in states then states[key] else ChatState(chatId, None, [])
  }

  /** The roles this manager writes into a history. */
  predicate WrittenRoles(history: seq<HistoryEntry>) {
    forall k :: 0 <= k < |history| ==> history[k].role == "user" || history[k].role == "assistant"
  }

  lemma WrittenRolesParse(history: seq<HistoryEntry>)
    requires WrittenRoles(history)
    ensures RolesValid(history)
  {
  }

  /**
    `_handle_command`: for `Set` with typed arguments and a database key,
    the new database url and the reply text; `None` when the command
    changes nothing and sends nothing.
   */
  function CommandEffect(c: CommandBody): (r: Option<(string, string)>)
    ensures r.Some? <==> c.command == CmdSet && c.arguments.SetArgs? && c.arguments.key in {KeyDatabase, KeyDatabaseUpper, KeyDatabaseUrl, KeyDatabaseUrlUpper}
    ensures r.Some? ==> r.value.0 == c.arguments.value && r.value.1 != ""
  {
    if c.command == CmdSet && c.arguments.SetArgs? then
      var key := c.arguments.key;
      var value := c.arguments.value;
      if key == KeyDatabase || key == KeyDatabaseUpper then Some((value, "Database context set to " + value))
      else if key == KeyDatabaseUrl || key == KeyDatabaseUrlUpper then Some((value, "Database URL updated."))
      else None
    else None
  }

  /** What handling one frame does to its key: the new chat state, the events and the next fresh-id index. */
  datatype Reaction = Reaction(state: ChatState, events: seq<Event>, nextId: nat)

  /**
    `handle_message` on one key, given that key's chat state, its
    connections and the first fresh-id index.
   */
  function Respond(ws: WsId, msg: ProtocolMessage, before: ChatState, conns: seq<Connection>, n: nat, handler: PromptHandler): (r: Reaction)
    ensures n <= r.nextId <= n + 2
    ensures r.state.chatId == before.chatId
    ensures before.history <= r.state.history && |r.state.history| <= |before.history| + 2
    ensures r.state.history != before.history ==> Classify(msg).RunPrompt?
    ensures r.state.databaseUrl != before.databaseUrl ==> Classify(msg).RunCommand?
    ensures Classify(msg).EchoHeartbeat? || Classify(msg).InvalidPayload? ==> |r.events| == 1 && r.events[0].Sent? && r.events[0].ws == ws
  {
    match Classify(msg)
    case EchoHeartbeat =>
      Reaction(before, [Sent(ws, Create(Heartbeat, msg.payload, "server", "client", None, FreshId(n)))], n + 1)
    case RunCommand(c) =>
      (match CommandEffect(c)
       case None => Reaction(before, [], n)
       case Some((url, text)) =>
         Reaction(before.(databaseUrl := Some(url)), [Sent(ws, TextMessage(System, text, FreshId(n)))], n + 1))
    case InvalidPayload =>
      Reaction(before, [Sent(ws, CreateErrorMessage("invalid_payload", "Unsupported message payload.", None, "server", "client", FreshId(n), FreshId(n + 1)))], n + 2)
    case IgnoreRole =>
      Reaction(before, [], n)
    case RunPrompt(content) =>
      match handler(content, before.databaseUrl, before.history)
      case PromptFailed(description) =>
        var err := CreateErrorMessage("agent_error", description, None, "server", "client", FreshId(n), FreshId(n + 1));
        Reaction(before, [Sent(ws, err)] + BroadcastEvents(conns, {ws}, err), n + 2)
      case PromptOk(response) =>
        var reply := TextMessage(Assistant, ReplyText(response), FreshId(n));
        Reaction(before.(history := before.history + [HistoryEntry("user", content), HistoryEntry("assistant", ReplyText(response))]),
                 BroadcastEvents(conns, {}, reply), n + 1)
  }

  /**
    What the manager keeps true: every listed key has connections, all with
    a running heartbeat; a connected key has an activity stamp and a stamped
    key a chat state; the order lists the stamped keys once each; histories
    hold only the roles this manager writes.
   */
  ghost predicate WellFormed(connections: map<string, seq<Connection>>, chatStates: map<string, ChatState>,
                             lastActivity: map<string, int>, order: seq<string>)
  {
    && (forall k :: k in connections ==> connections[k] != [])
    && (forall k, c :: k in connections && c in connections[k] ==> c.heartbeatActive)
    && connections.Keys <= lastActivity.Keys
    && lastActivity.Keys <= chatStates.Keys
    && NoDuplicates(order)
    && (forall k :: k in order <==> k in lastActivity)
    && (forall k :: k in chatStates ==> WrittenRoles(chatStates[k].history))
  }

  lemma ConnectKeepsWellFormed(connections: map<string, seq<Connection>>, chatStates: map<string, ChatState>,
                               lastActivity: map<string, int>, order: seq<string>, key: string, chatId: string, c: Connection, now: int)
    requires WellFormed(connections, chatStates, lastActivity, order)
    requires c.heartbeatActive
    ensures var states := if key in chatStates then chatStates else chatStates[key := ChatState(chatId, None, [])];
      WellFormed(connections[key := ConnectionsOf(connections, key) + [c]], states, lastActivity[key := now], Stamp(order, key))
  {
  }

  lemma HandleKeepsWellFormed(connections: map<string, seq<Connection>>, chatStates: map<string, ChatState>,
                              lastActivity: map<string, int>, order: seq<string>, key: string, state: ChatState, now: int)
    requires WellFormed(connections, chatStates, lastActivity, order)
    requires WrittenRoles(state.history)
    ensures WellFormed(connections, chatStates[key := state], lastActivity[key := now], Stamp(order, key))
  {
  }

  lemma ShrinkKeepsWellFormed(connections: map<string, seq<Connection>>, chatStates: map<string, ChatState>,
                              lastActivity: map<string, int>, order: seq<string>, key: string, remaining: seq<Connection>)
    requires WellFormed(connections, chatStates, lastActivity, order)
    requires key in connections && remaining != []
    requires forall c :: c in remaining ==> c in connections[key]
    ensures WellFormed(connections[key := remaining], chatStates, lastActivity, order)
  {
  }

  lemma DropKeepsWellFormed(connections: map<string, seq<Connection>>, chatStates: map<string, ChatState>,
                            lastActivity: map<string, int>, order: seq<string>, key: string)
    requires WellFormed(connections, chatStates, lastActivity, order)
    ensures WellFormed(connections - {key}, chatStates, lastActivity - {key}, Unstamp(order, key))
  {
  }

  lemma DisconnectKeepsWellFormed(connections: map<string, seq<Connection>>, chatStates: map<string, ChatState>,
                                  lastActivity: map<string, int>, order: seq<string>, key: string, ws: WsId)
    requires WellFormed(connections, chatStates, lastActivity, order)
    ensures Emptied(connections, key, ws) ==> WellFormed(connections - {key}, chatStates, lastActivity - {key}, Unstamp(order, key))
    ensures key in connections && !Emptied(connections, key, ws) ==>
      WellFormed(connections[key := Remaining(connections, key, ws)], chatStates, lastActivity, order)
  {
    if key in connections {
      var remaining := Remaining(connections, key, ws);
      RemoveFirstKeepsOthers(connections[key], ws);
      assert forall c :: c in remaining ==> c in connections[key] by {
        forall c | c in remaining ensures c in connections[key] {
          assert multiset(remaining)[c] > 0;
        }
      }
      if remaining == [] {
        DropKeepsWellFormed(connections, chatStates, lastActivity, order, key);
      } else {
        ShrinkKeepsWellFormed(connections, chatStates, lastActivity, order, key, remaining);
      }
    }
  }

  lemma ExpireAllKeepsWellFormed(connections: map<string, seq<Connection>>, chatStates: map<string, ChatState>,
                                 lastActivity: map<string, int>, order: seq<string>, gone: set<string>)
    requires WellFormed(connections, chatStates, lastActivity, order)
    ensures WellFormed(connections - gone, chatStates - gone, lastActivity - gone, Without(order, gone))
  {
  }

  class ChatManager {
    var connections: map<string, seq<Connection>>
    var chatStates: map<string, ChatState>
    var lastActivity: map<string, int>
    /** The keys of `lastActivity` in their insertion order. */
    var activityOrder: seq<string>
    var trace: seq<Event>
    var nextId: nat

    ghost predicate Valid()
      reads this
    {
      WellFormed(connections, chatStates, lastActivity, activityOrder)
    }

    constructor ()
      ensures Valid()
      ensures connections == map[] && chatStates == map[] && lastActivity == map[]
      ensures activityOrder == [] && trace == [] && nextId == 0
    {
      connections := map[];
      chatStates := map[];
      lastActivity := map[];
      activityOrder := [];
      trace := [];
      nextId := 0;
    }

    /**
      `connect`: the chat state is created only when the key has none, one
      connection is appended, the activity stamped, and the handshake and
      then the history are sent to the new socket.
     */
    method Connect(ws: WsId, projectId: string, chatId: string, now: int)
      requires Valid()
      modifies this
      ensures Valid()
      ensures var key := ChatKey(projectId, chatId);
        && chatStates == (if key in old(chatStates) then old(chatStates) else old(chatStates)[key := ChatState(chatId, None, [])])
        && connections == old(connections)[key := ConnectionsOf(old(connections), key) + [Connection(ws, now, true)]]
        && lastActivity == old(lastActivity)[key := now]
        && activityOrder == Stamp(old(activityOrder), key)
        && trace == old(trace)
                    + [Sent(ws, CreateHandshakeMessage(projectId, chatStates[key].chatId, "server", "client", None, FreshId(old(nextId))))]
                    + ReplayHistory(ws, chatStates[key].history, old(nextId) + 1).0
        && nextId == old(nextId) + 1 + |chatStates[key].history|
    {
      var key := ChatKey(projectId, chatId);
      ConnectKeepsWellFormed(connections, chatStates, lastActivity, activityOrder, key, chatId, Connection(ws, now, true), now);
      Register(key, chatId, Connection(ws, now, true), now);
      WrittenRolesParse(chatStates[key].history);
      Greet(ws, projectId, chatStates[key]);
    }

    /** The dictionary part of `connect`. */
    method Register(key: string, chatId: string, c: Connection, now: int)
      modifies this`chatStates, this`connections, this`lastActivity, this`activityOrder
      ensures chatStates == (if key in old(chatStates) then old(chatStates) else old(chatStates)[key := ChatState(chatId, None, [])])
      ensures connections == old(connections)[key := ConnectionsOf(old(connections), key) + [c]]
      ensures lastActivity == old(lastActivity)[key := now]
      ensures activityOrder == Stamp(old(activityOrder), key)
    {
      if key !in chatStates {
        chatStates := chatStates[key := ChatState(chatId, None, [])];
      }
      connections := connections[key := ConnectionsOf(connections, key) + [c]];
      lastActivity := lastActivity[key := now];
      activityOrder := Stamp(activityOrder, key);
    }

    /** The sends of `connect`: the handshake, then the history. */
    method Greet(ws: WsId, projectId: string, chatState: ChatState)
      requires RolesValid(chatState.history)
      modifies this`trace, this`nextId
      ensures trace == old(trace)
                       + [Sent(ws, CreateHandshakeMessage(projectId, chatState.chatId, "server", "client", None, FreshId(old(nextId))))]
                       + ReplayHistory(ws, chatState.history, old(nextId) + 1).0
      ensures nextId == old(nextId) + 1 + |chatState.history|
    {
      trace := trace + [Sent(ws, CreateHandshakeMessage(projectId, chatState.chatId, "server", "client", None, FreshId(nextId)))];
      nextId := nextId + 1;
      SendHistory(ws, chatState.history);
    }

    /** `_send_history`: one text frame per record, in order. */
    method SendHistory(ws: WsId, history: seq<HistoryEntry>)
      requires RolesValid(history)
      modifies this`trace, this`nextId
      ensures trace == old(trace) + ReplayHistory(ws, history, old(nextId)).0
      ensures nextId == old(nextId) + |history|
    {
      ghost var frames := ReplayHistory(ws, history, nextId).0;
      if history == [] {
        return;
      }
      var i := 0;
      while i < |history|
        invariant 0 <= i <= |history|
        invariant |frames| >= i
        invariant nextId == old(nextId) + i
        invariant trace == old(trace) + frames[..i]
      {
        ReplayStep(ws, history, old(nextId), i);
        var role := ParseRole(history[i].role).value;
        trace := trace + [Sent(ws, TextMessage(role, history[i].content, FreshId(nextId)))];
        nextId := nextId + 1;
        i := i + 1;
      }
      ReplayStop(ws, history, old(nextId), i);
      assert frames[..i] == frames;
    }

    /**
      `disconnect`: removes the first connection on this socket only; a key
      left without connections leaves the connection and activity
      dictionaries, its chat state stays.  The removed connection's
      heartbeat is stopped.
     */
    method Disconnect(ws: WsId, projectId: string, chatId: string)
      requires Valid()
      modifies this
      ensures Valid()
      ensures ChatKey(projectId, chatId) !in old(connections) ==> connections == old(connections)
      ensures Emptied(old(connections), ChatKey(projectId, chatId), ws) ==>
        && connections == old(connections) - {ChatKey(projectId, chatId)}
        && lastActivity == old(lastActivity) - {ChatKey(projectId, chatId)}
        && activityOrder == Unstamp(old(activityOrder), ChatKey(projectId, chatId))
      ensures ChatKey(projectId, chatId) in old(connections) && !Emptied(old(connections), ChatKey(projectId, chatId), ws) ==>
        connections == old(connections)[ChatKey(projectId, chatId) := Remaining(old(connections), ChatKey(projectId, chatId), ws)]
      ensures !Emptied(old(connections), ChatKey(projectId, chatId), ws) ==>
        lastActivity == old(lastActivity) && activityOrder == old(activityOrder)
      ensures chatStates == old(chatStates) && nextId == old(nextId)
      ensures trace == old(trace) + (if FirstIndex(ConnectionsOf(old(connections), ChatKey(projectId, chatId)), ws).Some? then [HeartbeatStopped(ws)] else [])
      ensures ConnectionsOf(connections, ChatKey(projectId, chatId)) == Remaining(old(connections), ChatKey(projectId, chatId), ws)
      ensures forall k :: k != ChatKey(projectId, chatId) ==> ConnectionsOf(connections, k) == ConnectionsOf(old(connections), k)
    {
      DisconnectKeepsWellFormed(connections, chatStates, lastActivity, activityOrder, ChatKey(projectId, chatId), ws);
      Leave(ChatKey(projectId, chatId), ws);
    }

    /** `disconnect` on the key: the connection detached and its heartbeat stopped. */
    method Leave(key: string, ws: WsId)
      requires forall c :: c in ConnectionsOf(connections, key) ==> c.heartbeatActive
      modifies this`connections, this`lastActivity, this`activityOrder, this`trace
      ensures key !in old(connections) ==> connections == old(connections)
      ensures Emptied(old(connections), key, ws) ==>
        && connections == old(connections) - {key}
        && lastActivity == old(lastActivity) - {key}
        && activityOrder == Unstamp(old(activityOrder), key)
      ensures key in old(connections) && !Emptied(old(connections), key, ws) ==>
        connections == old(connections)[key := Remaining(old(connections), key, ws)]
      ensures !Emptied(old(connections), key, ws) ==>
        lastActivity == old(lastActivity) && activityOrder == old(activityOrder)
      ensures trace == old(trace) + (if FirstIndex(ConnectionsOf(old(connections), key), ws).Some? then [HeartbeatStopped(ws)] else [])
      ensures ConnectionsOf(connections, key) == Remaining(old(connections), key, ws)
      ensures forall k :: k != key ==> ConnectionsOf(connections, k) == ConnectionsOf(old(connections), k)
    {
      var removed := Detach(key, ws);
      if removed.Some? {
        assert removed.value in old(connections)[key];
        var stopped := StopHeartbeat(removed.value);
        trace := trace + stopped.1;
      }
    }

    /** The dictionary part of `disconnect`; the removed connection, if any. */
    method Detach(key: string, ws: WsId) returns (removed: Option<Connection>)
      modifies this`connections, this`lastActivity, this`activityOrder
      ensures key !in old(connections) ==> connections == old(connections) && removed.None?
      ensures Emptied(old(connections), key, ws) ==>
        && connections == old(connections) - {key}
        && lastActivity == old(lastActivity) - {key}
        && activityOrder == Unstamp(old(activityOrder), key)
      ensures key in old(connections) && !Emptied(old(connections), key, ws) ==>
        connections == old(connections)[key := Remaining(old(connections), key, ws)]
      ensures !Emptied(old(connections), key, ws) ==>
        lastActivity == old(lastActivity) && activityOrder == old(activityOrder)
      ensures removed.Some? <==> FirstIndex(ConnectionsOf(old(connections), key), ws).Some?
      ensures removed.Some? ==> removed.value == old(connections)[key][FirstIndex(old(connections)[key], ws).value]
      ensures ConnectionsOf(connections, key) == Remaining(old(connections), key, ws)
      ensures forall k :: k != key ==> ConnectionsOf(connections, k) == ConnectionsOf(old(connections), k)
    {
      removed := None;
      if key !in connections {
        return;
      }
      var conns := connections[key];
      var i := FindConnection(conns, ws);
      var remaining := conns;
      if i < |conns| {
        remaining := conns[..i] + conns[i + 1..];
        removed := Some(conns[i]);
      }
      assert remaining == RemoveFirst(conns, ws);
      if remaining == [] {
        connections := connections - {key};
        lastActivity := lastActivity - {key};
        activityOrder := Unstamp(activityOrder, key);
      } else {
        connections := connections[key := remaining];
      }
    }
    /**
      `handle_message`: stamps the activity, creates the chat state when the
      key has none, then reacts as `Respond` says.
     */
    method HandleMessage(ws: WsId, msg: ProtocolMessage, projectId: string, chatId: string, now: int, handler: PromptHandler)
      requires Valid()
      modifies this
      ensures Valid()
      ensures var key := ChatKey(projectId, chatId);
        var r := Respond(ws, msg, ChatStateOr(old(chatStates), key, chatId), ConnectionsOf(old(connections), key), old(nextId), handler);
        && lastActivity == old(lastActivity)[key := now]
        && activityOrder == Stamp(old(activityOrder), key)
        && connections == old(connections)
        && chatStates == old(chatStates)[key := r.state]
        && trace == old(trace) + r.events
        && nextId == r.nextId
    {
      var key := ChatKey(projectId, chatId);
      var chatState := ChatStateOr(chatStates, key, chatId);
      RespondWritesRoles(ws, msg, chatState, ConnectionsOf(connections, key), nextId, handler);
      HandleKeepsWellFormed(connections, chatStates, lastActivity, activityOrder, key,
                            Respond(ws, msg, chatState, ConnectionsOf(connections, key), nextId, handler).state, now);
      Handle(ws, msg, projectId, chatId, now, handler);
    }

    /** `handle_message` apart from what it keeps true. */
    method Handle(ws: WsId, msg: ProtocolMessage, projectId: string, chatId: string, now: int, handler: PromptHandler)
      modifies this
      ensures var key := ChatKey(projectId, chatId);
        var r := Respond(ws, msg, ChatStateOr(old(chatStates), key, chatId), ConnectionsOf(old(connections), key), old(nextId), handler);
        && lastActivity == old(lastActivity)[key := now]
        && activityOrder == Stamp(old(activityOrder), key)
        && connections == old(connections)
        && chatStates == old(chatStates)[key := r.state]
        && trace == old(trace) + r.events
        && nextId == r.nextId
    {
      var key := ChatKey(projectId, chatId);
      var chatState := ChatStateOr(chatStates, key, chatId);
      Touch(key, chatState, now);
      React(ws, msg, key, chatState, handler);
    }

    /** The activity stamp of `handle_message`, and the chat state made sure of. */
    method Touch(key: string, chatState: ChatState, now: int)
      modifies this`lastActivity, this`activityOrder, this`chatStates
      ensures lastActivity == old(lastActivity)[key := now]
      ensures activityOrder == Stamp(old(activityOrder), key)
      ensures chatStates == old(chatStates)[key := chatState]
    {
      lastActivity := lastActivity[key := now];
      activityOrder := Stamp(activityOrder, key);
      chatStates := chatStates[key := chatState];
    }

    /** The branches of `handle_message` after the activity stamp, on the chat state of `key`. */
    method React(ws: WsId, msg: ProtocolMessage, key: string, before: ChatState, handler: PromptHandler)
      requires key in chatStates && chatStates[key] == before
      modifies this`chatStates, this`trace, this`nextId
      ensures var r := Respond(ws, msg, before, ConnectionsOf(connections, key), old(nextId), handler);
        && chatStates == old(chatStates)[key := r.state]
        && trace == old(trace) + r.events
        && nextId == r.nextId
    {
      // `Classify` is the priority order of the checks in `handle_message`.
      match Classify(msg)
      case EchoHeartbeat =>
        ReactEcho(ws, msg, key, handler);
      case RunCommand(command) =>
        ReactCommand(ws, msg, key, handler);
      case InvalidPayload =>
        ReactInvalid(ws, msg, key, handler);
      case IgnoreRole =>
      case RunPrompt(content) =>
        ReactPrompt(ws, msg, key, handler);
    }

    /** The heartbeat branch of `handle_message`: the payload echoed to the sender. */
    method ReactEcho(ws: WsId, msg: ProtocolMessage, key: string, handler: PromptHandler)
      requires key in chatStates && Classify(msg) == EchoHeartbeat
      modifies this`trace, this`nextId
      ensures var r := Respond(ws, msg, old(chatStates)[key], ConnectionsOf(connections, key), old(nextId), handler);
        && chatStates == old(chatStates)[key := r.state]
        && trace == old(trace) + r.events
        && nextId == r.nextId
    {
      trace := trace + [Sent(ws, Create(Heartbeat, msg.payload, "server", "client", None, FreshId(nextId)))];
      nextId := nextId + 1;
    }

    /** The branch of `handle_message` for a frame with no usable payload. */
    method ReactInvalid(ws: WsId, msg: ProtocolMessage, key: string, handler: PromptHandler)
      requires key in chatStates && Classify(msg) == InvalidPayload
      modifies this`trace, this`nextId
      ensures var r := Respond(ws, msg, old(chatStates)[key], ConnectionsOf(connections, key), old(nextId), handler);
        && chatStates == old(chatStates)[key := r.state]
        && trace == old(trace) + r.events
        && nextId == r.nextId
    {
      trace := trace + [Sent(ws, CreateErrorMessage("invalid_payload", "Unsupported message payload.", None, "server", "client", FreshId(nextId), FreshId(nextId + 1)))];
      nextId := nextId + 2;
    }

    /** The command branch of `handle_message`, as `Respond` states it. */
    method ReactCommand(ws: WsId, msg: ProtocolMessage, key: string, handler: PromptHandler)
      requires key in chatStates && Classify(msg).RunCommand?
      modifies this`chatStates, this`trace, this`nextId
      ensures var r := Respond(ws, msg, old(chatStates)[key], ConnectionsOf(connections, key), old(nextId), handler);
        && chatStates == old(chatStates)[key := r.state]
        && trace == old(trace) + r.events
        && nextId == r.nextId
    {
      HandleCommand(ws, Classify(msg).command, key);
    }

    /** The prompt branch of `handle_message`, as `Respond` states it. */
    method ReactPrompt(ws: WsId, msg: ProtocolMessage, key: string, handler: PromptHandler)
      requires key in chatStates && Classify(msg).RunPrompt?
      modifies this`chatStates, this`trace, this`nextId
      ensures var r := Respond(ws, msg, old(chatStates)[key], ConnectionsOf(connections, key), old(nextId), handler);
        && chatStates == old(chatStates)[key := r.state]
        && trace == old(trace) + r.events
        && nextId == r.nextId
    {
      Prompt(ws, Classify(msg).content, key, handler);
    }

    /** The prompt branch of `handle_message`: the reply to everyone, or the error to the sender and then the others. */
    method Prompt(ws: WsId, content: string, key: string, handler: PromptHandler)
      requires key in chatStates
      modifies this`chatStates, this`trace, this`nextId
      ensures var before := old(chatStates)[key];
        var n := old(nextId);
        var conns := ConnectionsOf(connections, key);
        match handler(content, before.databaseUrl, before.history)
        case PromptFailed(description) =>
          var err := CreateErrorMessage("agent_error", description, None, "server", "client", FreshId(n), FreshId(n + 1));
          chatStates == old(chatStates) && trace == old(trace) + [Sent(ws, err)] + BroadcastEvents(conns, {ws}, err) && nextId == n + 2
        case PromptOk(response) =>
          var reply := TextMessage(Assistant, ReplyText(response), FreshId(n));
          && chatStates == old(chatStates)[key := before.(history := before.history + [HistoryEntry("user", content), HistoryEntry("assistant", ReplyText(response))])]
          && trace == old(trace) + BroadcastEvents(conns, {}, reply) && nextId == n + 1
    {
      var chatState := chatStates[key];
      var outcome := handler(content, chatState.databaseUrl, chatState.history);
      if outcome.PromptFailed? {
        ReportFailure(ws, outcome.description, key);
        return;
      }
      var text := FormatReply(outcome.response);
      chatStates := chatStates[key := chatState.(history := chatState.history + [HistoryEntry("user", content), HistoryEntry("assistant", text)])];
      Announce(text, key);
    }

    /** A failed prompt: the `agent_error` frame to the sender, then to the key's other sockets. */
    method ReportFailure(ws: WsId, description: string, key: string)
      modifies this`trace, this`nextId
      ensures var err := CreateErrorMessage("agent_error", description, None, "server", "client", FreshId(old(nextId)), FreshId(old(nextId) + 1));
        trace == old(trace) + [Sent(ws, err)] + BroadcastEvents(ConnectionsOf(connections, key), {ws}, err) && nextId == old(nextId) + 2
    {
      var err := CreateErrorMessage("agent_error", description, None, "server", "client", FreshId(nextId), FreshId(nextId + 1));
      nextId := nextId + 2;
      trace := trace + [Sent(ws, err)];
      Broadcast(key, {ws}, err);
    }

    /** An answered prompt: the reply text to every socket of the key. */
    method Announce(text: string, key: string)
      modifies this`trace, this`nextId
      ensures trace == old(trace) + BroadcastEvents(ConnectionsOf(connections, key), {}, TextMessage(Assistant, text, FreshId(old(nextId))))
      ensures nextId == old(nextId) + 1
    {
      var reply := TextMessage(Assistant, text, FreshId(nextId));
      nextId := nextId + 1;
      Broadcast(key, {}, reply);
    }

    /** `_handle_command` for the chat state of `key`. */
    method HandleCommand(ws: WsId, command: CommandBody, key: string)
      requires key in chatStates
      modifies this`chatStates, this`trace, this`nextId
      ensures var e := CommandEffect(command);
        && chatStates == (if e.Some? then old(chatStates)[key := old(chatStates)[key].(databaseUrl := Some(e.value.0))] else old(chatStates))
        && trace == old(trace) + (if e.Some? then [Sent(ws, TextMessage(System, e.value.1, FreshId(old(nextId))))] else [])
        && nextId == old(nextId) + (if e.Some? then 1 else 0)
    {
      var responseText: Option<string> := None;
      if command.command == CmdSet && command.arguments.SetArgs? {
        var arg := command.arguments;
        if arg.key == KeyDatabase || arg.key == KeyDatabaseUpper {
          chatStates := chatStates[key := chatStates[key].(databaseUrl := Some(arg.value))];
          responseText := Some("Database context set to " + arg.value);
        } else if arg.key == KeyDatabaseUrl || arg.key == KeyDatabaseUrlUpper {
          chatStates := chatStates[key := chatStates[key].(databaseUrl := Some(arg.value))];
          responseText := Some("Database URL updated.");
        }
      }
      if responseText.Some? && responseText.value != "" {
        trace := trace + [Sent(ws, TextMessage(System, responseText.value, FreshId(nextId)))];
        nextId := nextId + 1;
      }
    }

    /** `_broadcast`: one send per connection of `key` whose socket is not excluded. */
    method Broadcast(key: string, exclude: set<WsId>, frame: ProtocolMessage)
      modifies this`trace
      ensures trace == old(trace) + BroadcastEvents(ConnectionsOf(connections, key), exclude, frame)
    {
      if key !in connections {
        return;
      }
      var conns := connections[key];
      var i := 0;
      while i < |conns|
        invariant 0 <= i <= |conns|
        invariant trace + BroadcastEvents(conns[i..], exclude, frame) == old(trace) + BroadcastEvents(conns, exclude, frame)
      {
        assert conns[i..][1..] == conns[i + 1..];
        if conns[i].ws !in exclude {
          trace := trace + [Sent(conns[i].ws, frame)];
        }
        i := i + 1;
      }
    }

    /**
      `cleanup`: every key whose last activity is more than an hour before
      `now` loses its connections (each heartbeat stopped and the socket
      closed with 1001), its activity and its chat state; other keys keep theirs.
     */
    method Cleanup(now: int)
      requires Valid()
      modifies this
      ensures Valid()
      ensures var expired := ExpiredKeys(old(activityOrder), old(lastActivity), now);
        && connections == old(connections) - KeySet(expired)
        && lastActivity == old(lastActivity) - KeySet(expired)
        && chatStates == old(chatStates) - KeySet(expired)
        && activityOrder == Without(old(activityOrder), KeySet(expired))
        && trace == old(trace) + CleanupEvents(expired, old(connections))
        && nextId == old(nextId)
    {
      var expired := ExpiredKeys(activityOrder, lastActivity, now);
      ExpireAllKeepsWellFormed(connections, chatStates, lastActivity, activityOrder, KeySet(expired));
      ExpireKeys(expired);
    }

    /** The loop of `cleanup` over the expired keys. */
    method ExpireKeys(expired: seq<string>)
      requires NoDuplicates(expired)
      modifies this
      ensures connections == old(connections) - KeySet(expired)
      ensures lastActivity == old(lastActivity) - KeySet(expired)
      ensures chatStates == old(chatStates) - KeySet(expired)
      ensures activityOrder == Without(old(activityOrder), KeySet(expired))
      ensures trace == old(trace) + CleanupEvents(expired, old(connections))
      ensures nextId == old(nextId)
    {
      ghost var conns0 := connections;
      ghost var order0 := activityOrder;
      WithoutNothing(order0);
      assert KeySet(expired[..0]) == {};
      var i := 0;
      while i < |expired|
        invariant 0 <= i <= |expired|
        invariant connections == conns0 - KeySet(expired[..i])
        invariant lastActivity == old(lastActivity) - KeySet(expired[..i])
        invariant chatStates == old(chatStates) - KeySet(expired[..i])
        invariant activityOrder == Without(order0, KeySet(expired[..i]))
        invariant trace == old(trace) + CleanupEvents(expired[..i], conns0)
        invariant nextId == old(nextId)
      {
        var key := expired[i];
        ExpireStep(expired, i, conns0);
        UnstampWithout(order0, KeySet(expired[..i]), key);
        SubtractStep(conns0, KeySet(expired[..i]), key);
        SubtractStep(old(lastActivity), KeySet(expired[..i]), key);
        SubtractStep(old(chatStates), KeySet(expired[..i]), key);
        ConcatAssoc(old(trace), CleanupEvents(expired[..i], conns0), CloseAll(ConnectionsOf(conns0, key)));
        ExpireKey(key);
        i := i + 1;
      }
      assert expired[..i] == expired;
    }

    /** One step of `cleanup`: the key's connections closed, the key dropped from the three dictionaries. */
    method ExpireKey(key: string)
      modifies this
      ensures connections == old(connections) - {key}
      ensures lastActivity == old(lastActivity) - {key}
      ensures chatStates == old(chatStates) - {key}
      ensures activityOrder == Unstamp(old(activityOrder), key)
      ensures trace == old(trace) + CloseAll(ConnectionsOf(old(connections), key))
      ensures nextId == old(nextId)
    {
      CloseConnections(ConnectionsOf(connections, key));
      connections := connections - {key};
      lastActivity := lastActivity - {key};
      chatStates := chatStates - {key};
      activityOrder := Unstamp(activityOrder, key);
    }

    /** The inner loop of `cleanup`: stop each heartbeat and close each socket with 1001. */
    method CloseConnections(conns: seq<Connection>)
      modifies this`trace
      ensures trace == old(trace) + CloseAll(conns)
    {
      var j := 0;
      while j < |conns|
        invariant 0 <= j <= |conns|
        invariant trace == old(trace) + CloseAll(conns[..j])
      {
        assert conns[..j + 1][..j] == conns[..j];
        var stopped := StopHeartbeat(conns[j]);
        trace := trace + stopped.1 + [Closed(conns[j].ws, CloseGoingAway)];
        j := j + 1;
      }
      assert conns[..j] == conns;
    }

    /**
      One iteration of the endpoint's receive loop: a frame that does not
      validate gets an `invalid_message` error and the loop goes on;
      otherwise it is handled.
     */
    method ReceiveFrame(ws: WsId, data: Json, projectId: string, chatId: string, now: int, handler: PromptHandler)
      requires Valid()
      modifies this
      ensures Valid()
      ensures ParseMessage(data).Failure? ==>
        && trace == old(trace) + [Sent(ws, CreateErrorMessage("invalid_message", "Unable to parse protocol message.", None, "server", "client", FreshId(old(nextId)), FreshId(old(nextId) + 1)))]
        && nextId == old(nextId) + 2
        && connections == old(connections) && chatStates == old(chatStates)
        && lastActivity == old(lastActivity) && activityOrder == old(activityOrder)
      ensures ParseMessage(data).Success? ==>
        var key := ChatKey(projectId, chatId);
        var r := Respond(ws, ParseMessage(data).value, ChatStateOr(old(chatStates), key, chatId), ConnectionsOf(old(connections), key), old(nextId), handler);
        && chatStates == old(chatStates)[key := r.state]
        && trace == old(trace) + r.events
        && nextId == r.nextId
        && lastActivity == old(lastActivity)[key := now]
        && activityOrder == Stamp(old(activityOrder), key)
        && connections == old(connections)
    {
      var parsed := ParseMessage(data);
      if parsed.Failure? {
        trace := trace + [Sent(ws, CreateErrorMessage("invalid_message", "Unable to parse protocol message.", None, "server", "client", FreshId(nextId), FreshId(nextId + 1)))];
        nextId := nextId + 2;
        return;
      }
      HandleMessage(ws, parsed.value, projectId, chatId, now, handler);
    }

    /**
      `websocket_endpoint` for one socket: connect, one `ReceiveFrame` per
      frame received (each with the time it arrived), and the disconnect of
      the `finally` clause when the client goes away.  Whatever the frames,
      the socket leaves no connection behind and other keys are untouched.
     */
    method Serve(ws: WsId, projectId: string, chatId: string, connectedAt: int, frames: seq<(Json, int)>, handler: PromptHandler)
      requires Valid()
      modifies this
      ensures Valid()
      ensures |ConnectionsOf(connections, ChatKey(projectId, chatId))| == |ConnectionsOf(old(connections), ChatKey(projectId, chatId))|
      ensures forall k :: k != ChatKey(projectId, chatId) ==> ConnectionsOf(connections, k) == ConnectionsOf(old(connections), k)
    {
      var key := ChatKey(projectId, chatId);
      ghost var before := connections;
      Connect(ws, projectId, chatId, connectedAt);
      SetKeepsOthers(before, key, ConnectionsOf(before, key) + [Connection(ws, connectedAt, true)]);
      ReceiveAll(ws, projectId, chatId, frames, handler);
      JoinThenLeave(before, key, Connection(ws, connectedAt, true));
      Disconnect(ws, projectId, chatId);
    }

    /** The receive loop of the endpoint. */
    method ReceiveAll(ws: WsId, projectId: string, chatId: string, frames: seq<(Json, int)>, handler: PromptHandler)
      requires Valid()
      modifies this
      ensures Valid()
      ensures connections == old(connections)
    {
      var i := 0;
      while i < |frames|
        invariant 0 <= i <= |frames|
        invariant Valid()
        invariant connections == old(connections)
      {
        ReceiveFrame(ws, frames[i].0, projectId, chatId, frames[i].1, handler);
        i := i + 1;
      }
    }
  }

  /** Handling a frame writes only `user` and `assistant` records into the history. */
  lemma RespondWritesRoles(ws: WsId, msg: ProtocolMessage, before: ChatState, conns: seq<Connection>, n: nat, handler: PromptHandler)
    requires WrittenRoles(before.history)
    ensures WrittenRoles(Respond(ws, msg, before, conns, n, handler).state.history)
  {
    var r := Respond(ws, msg, before, conns, n, handler);
    match Classify(msg)
    case RunPrompt(content) =>
      var outcome := handler(content, before.databaseUrl, before.history);
      if outcome.PromptOk? {
        assert r.state.history == before.history + [HistoryEntry("user", content), HistoryEntry("assistant", ReplyText(outcome.response))];
        ExchangeWritten(before.history, content, ReplyText(outcome.response));
      } else {
        assert r.state == before;
      }
    case RunCommand(c) =>
      assert r.state.history == before.history;
    case _ =>
      assert r.state == before;
  }

  /** A prompt answered appends a `user` and an `assistant` record. */
  lemma ExchangeWritten(history: seq<HistoryEntry>, question: string, answer: string)
    requires WrittenRoles(history)
    ensures WrittenRoles(history + [HistoryEntry("user", question), HistoryEntry("assistant", answer)])
  {
  }

  // ---------------------------------------------------------------------
  // What handling a frame promises
  // ---------------------------------------------------------------------

  /** A heartbeat is echoed, with the same payload, to the sender only. */
  lemma HeartbeatEchoesToSender(ws: WsId, msg: ProtocolMessage, before: ChatState, conns: seq<Connection>, n: nat, handler: PromptHandler)
    requires msg.kind == Heartbeat || msg.payload.heartbeat.Some?
    ensures var r := Respond(ws, msg, before, conns, n, handler);
      && r.state == before
      && |r.events| == 1 && r.events[0].Sent? && r.events[0].ws == ws
      && r.events[0].frame.kind == Heartbeat && r.events[0].frame.payload == msg.payload
  {
  }

  /** A frame without a message payload, not heartbeat or command, gets one `invalid_payload` error, to the sender. */
  lemma InvalidPayloadAnswered(ws: WsId, msg: ProtocolMessage, before: ChatState, conns: seq<Connection>, n: nat, handler: PromptHandler)
    requires Classify(msg) == InvalidPayload
    ensures var r := Respond(ws, msg, before, conns, n, handler);
      && r.state == before
      && |r.events| == 1 && r.events[0].Sent? && r.events[0].ws == ws
      && r.events[0].frame.kind == Error && r.events[0].frame.payload.error.value.errorCode == "invalid_payload"
  {
  }

  /** A message whose role is not `user` changes nothing and sends nothing. */
  lemma NonUserIgnored(ws: WsId, msg: ProtocolMessage, before: ChatState, conns: seq<Connection>, n: nat, handler: PromptHandler)
    requires msg.kind != Heartbeat && msg.payload.heartbeat.None?
    requires !(msg.kind == Command && msg.payload.command.Some?)
    requires msg.payload.message.Some? && msg.payload.message.value.role != User
    ensures Respond(ws, msg, before, conns, n, handler) == Reaction(before, [], n)
  {
  }

  /**
    `Set` with a database key sets the url and answers the sender with a
    system text; any other command changes nothing and sends nothing.
   */
  lemma SetCommandOutcome(ws: WsId, msg: ProtocolMessage, before: ChatState, conns: seq<Connection>, n: nat, handler: PromptHandler)
    requires Classify(msg).RunCommand?
    ensures var c := msg.payload.command.value;
      var r := Respond(ws, msg, before, conns, n, handler);
      && r.state.history == before.history
      && (CommandEffect(c).Some? ==>
            r.state.databaseUrl == Some(c.arguments.value)
            && |r.events| == 1 && r.events[0].ws == ws && r.events[0].frame.payload.message.value.role == System)
      && (CommandEffect(c).None? ==> r == Reaction(before, [], n))
  {
  }

  /**
    A prompt that succeeds grows the history by exactly the user's text and
    then the reply, and every connection of the key, the sender's included,
    receives the reply.
   */
  lemma PromptSuccessBroadcast(ws: WsId, msg: ProtocolMessage, before: ChatState, conns: seq<Connection>, n: nat, handler: PromptHandler)
    requires Classify(msg).RunPrompt?
    requires handler(Classify(msg).content, before.databaseUrl, before.history).PromptOk?
    ensures var r := Respond(ws, msg, before, conns, n, handler);
      && |r.state.history| == |before.history| + 2
      && r.state.history[..|before.history|] == before.history
      && r.state.history[|before.history|] == HistoryEntry("user", msg.payload.message.value.content)
      && r.state.history[|before.history| + 1].role == "assistant"
      && r.state.databaseUrl == before.databaseUrl
      && |r.events| == |conns|
      && forall i :: 0 <= i < |conns| ==> exists e :: e in r.events && e.Sent? && e.ws == conns[i].ws && e.frame.payload.message.Some? && e.frame.payload.message.value.content == r.state.history[|before.history| + 1].content
  {
    var r := Respond(ws, msg, before, conns, n, handler);
    var response := handler(Classify(msg).content, before.databaseUrl, before.history).response;
    var reply := TextMessage(Assistant, ReplyText(response), FreshId(n));
    BroadcastOnlyRegistered(conns, {}, reply);
    forall i | 0 <= i < |conns|
      ensures exists e :: e in r.events && e.Sent? && e.ws == conns[i].ws && e.frame.payload.message.Some? && e.frame.payload.message.value.content == r.state.history[|before.history| + 1].content
    {
      BroadcastReachesAll(conns, {}, reply, i);
      assert Sent(conns[i].ws, reply) in r.events;
    }
  }

  /**
    A prompt that fails leaves the chat state alone; the sender receives the
    `agent_error` frame exactly once and every other connection of the key
    receives it through the broadcast.
   */
  lemma PromptFailureReported(ws: WsId, msg: ProtocolMessage, before: ChatState, conns: seq<Connection>, n: nat, handler: PromptHandler)
    requires Classify(msg).RunPrompt?
    requires handler(Classify(msg).content, before.databaseUrl, before.history).PromptFailed?
    ensures var r := Respond(ws, msg, before, conns, n, handler);
      && r.state == before
      && |SentTo(r.events, ws)| == 1
      && SentTo(r.events, ws)[0].kind == Error
      && SentTo(r.events, ws)[0].payload.error.value.errorCode == "agent_error"
      && forall i :: 0 <= i < |conns| && conns[i].ws != ws ==> r.events[0].frame in SentTo(r.events, conns[i].ws)
  {
    var r := Respond(ws, msg, before, conns, n, handler);
    var err := r.events[0].frame;
    var rest := BroadcastEvents(conns, {ws}, err);
    assert r.events == [Sent(ws, err)] + rest;
    SentToAppend([Sent(ws, err)], rest, ws);
    SentToNone(rest, ws);
    forall i | 0 <= i < |conns| && conns[i].ws != ws
      ensures err in SentTo(r.events, conns[i].ws)
    {
      BroadcastReachesAll(conns, {ws}, err, i);
      SentToIncludes(rest, conns[i].ws, err);
      SentToAppend([Sent(ws, err)], rest, conns[i].ws);
    }
  }
}
