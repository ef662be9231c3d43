/**
  What the two websocket managers share: connection records, the output
  trace standing for the frames sent and the sockets closed, the chat key,
  the heartbeat bookkeeping, the broadcast rule and the history replay.
 */
module WebsocketCommon {
  import opened Wrappers
  import opened PyStr
  import opened Protocol
  import opened DictOrder

  /** The identity of a websocket (`is` comparison). */
  type WsId = nat

  /** `ChatConnection`: its socket, its connection time and whether its heartbeat task is running. */
  datatype Connection = Connection(ws: WsId, connectedAt: int, heartbeatActive: bool)

  /** One observable effect: a frame sent (in its `to_dict` form), a close code, a heartbeat task cancelled. */
  datatype Event =
    | Sent(ws: WsId, frame: ProtocolMessage)
    | Closed(ws: WsId, code: int)
    | HeartbeatStopped(ws: WsId)

  /** A history record `{"role": ..., "content": ...}`. */
  datatype HistoryEntry = HistoryEntry(role: string, content: string)

  /** `INACTIVITY_TIMEOUT`, in seconds. */
  const InactivityTimeout := 3600

  /** Close code used by `cleanup` (going away). */
  const CloseGoingAway := 1001

  /** Close code used by the endpoint when a session cannot be set up. */
  const CloseUnauthorized := 4401

  /** `_chat_key`: the two parts joined by a colon. */
  function ChatKey(a: string, b: string): (k: string)
    ensures |k| == |a| + |b| + 1 && k[|a|] == ':'
  {
    a + ":" + b
  }

  /** The first part, the colon and the second part can be read back off the key. */
  lemma ChatKeyParts(a: string, b: string)
    ensures var k := ChatKey(a, b);
      |k| == |a| + |b| + 1 && k[|a|] == ':' && k[..|a|] == a && k[|a| + 1..] == b
  {
  }

  /** The key does not determine its parts when one of them contains a colon. */
  lemma ChatKeyCollides()
    ensures ChatKey("p", "a:b") == ChatKey("p:a", "b")
  {
  }

  /** Without a colon in the first part, the key determines both parts. */
  lemma ChatKeyInjective(a1: string, b1: string, a2: string, b2: string)
    requires ':' !in a1 && ':' !in a2
    requires ChatKey(a1, b1) == ChatKey(a2, b2)
    ensures a1 == a2 && b1 == b2
  {
    ChatKeyParts(a1, b1);
    ChatKeyParts(a2, b2);
  }

  /** The id the `n`-th `uuid4()` call yields. */
  function FreshId(n: nat): (id: string)
    ensures id != ""
  {
    NatToString(n)
  }

  lemma FreshIdsDiffer(m: nat, n: nat)
    requires m != n
    ensures FreshId(m) != FreshId(n)
  {
    NatToStringInjective(m, n);
  }

  /** `_stop_heartbeat`: cancels a running task and clears it; does nothing when there is none. */
  function StopHeartbeat(c: Connection): (r: (Connection, seq<Event>))
    ensures !r.0.heartbeatActive
    ensures r.0.ws == c.ws && r.0.connectedAt == c.connectedAt
    ensures r.1 == (if c.heartbeatActive then [HeartbeatStopped(c.ws)] else [])
  {
    if c.heartbeatActive then (c.(heartbeatActive := false), [HeartbeatStopped(c.ws)]) else (c, [])
  }

  /** Stopping twice is the same as stopping once, and the second stop does nothing observable. */
  lemma StopHeartbeatIdempotent(c: Connection)
    ensures StopHeartbeat(StopHeartbeat(c).0) == (StopHeartbeat(c).0, [])
  {
  }

  /** The sends of `_broadcast` over a key's connection list, skipping the excluded sockets. */
  function BroadcastEvents(conns: seq<Connection>, exclude: set<WsId>, frame: ProtocolMessage): (r: seq<Event>)
    ensures |r| <= |conns|
    ensures forall e :: e in r ==> e.Sent? && e.frame == frame && e.ws !in exclude
  {
    if conns == [] then []
    else
      var rest := BroadcastEvents(conns[1..], exclude, frame);
      if conns[0].ws in exclude then rest else [Sent(conns[0].ws, frame)] + rest
  }

  /** Every registered connection that is not excluded receives the frame. */
  lemma {:induction false} BroadcastReachesAll(conns: seq<Connection>, exclude: set<WsId>, frame: ProtocolMessage, i: int)
    requires 0 <= i < |conns| && conns[i].ws !in exclude
    ensures Sent(conns[i].ws, frame) in BroadcastEvents(conns, exclude, frame)
  {
    if i > 0 {
      BroadcastReachesAll(conns[1..], exclude, frame, i - 1);
    }
  }

  /** Only registered sockets receive it, and without an exclusion set there is exactly one send per connection. */
  lemma {:induction false} BroadcastOnlyRegistered(conns: seq<Connection>, exclude: set<WsId>, frame: ProtocolMessage)
    ensures forall e :: e in BroadcastEvents(conns, exclude, frame) ==> exists i :: 0 <= i < |conns| && conns[i].ws == e.ws
    ensures exclude == {} ==> |BroadcastEvents(conns, exclude, frame)| == |conns|
  {
    if conns != [] {
      BroadcastOnlyRegistered(conns[1..], exclude, frame);
      forall e | e in BroadcastEvents(conns, exclude, frame)
        ensures exists i :: 0 <= i < |conns| && conns[i].ws == e.ws
      {
        if e in BroadcastEvents(conns[1..], exclude, frame) {
          var i :| 0 <= i < |conns[1..]| && conns[1..][i].ws == e.ws;
          assert conns[i + 1].ws == e.ws;
        } else {
          assert conns[0].ws == e.ws;
        }
      }
    }
  }

  /** The connection list of a key, `[]` when it has none (`dict.get(key, [])`). */
  function ConnectionsOf(connections: map<string, seq<Connection>>, key: string): seq<Connection> {
    if key in connections then connections[key] else []
  }

  /** Setting the connections of one key leaves every other key's alone. */
  lemma SetKeepsOthers(connections: map<string, seq<Connection>>, key: string, conns: seq<Connection>)
    ensures ConnectionsOf(connections[key := conns], key) == conns
    ensures forall k :: k != key ==> ConnectionsOf(connections[key := conns], k) == ConnectionsOf(connections, k)
  {
  }

  /** The index of the first connection on socket `ws`. */
  function FirstIndex(conns: seq<Connection>, ws: WsId): (r: Option<nat>)
    ensures r.Some? ==> r.value < |conns| && conns[r.value].ws == ws && forall j :: 0 <= j < r.value ==> conns[j].ws != ws
    ensures r.None? ==> forall j :: 0 <= j < |conns| ==> conns[j].ws != ws
  {
    if conns == [] then None
    else if conns[0].ws == ws then Some(0)
    else match FirstIndex(conns[1..], ws)
      case None => None
      case Some(i) => Some(i + 1)
  }

  /** `list.remove` of the first connection on `ws`; the list unchanged when there is none. */
  function RemoveFirst(conns: seq<Connection>, ws: WsId): (r: seq<Connection>)
    ensures FirstIndex(conns, ws).None? ==> r == conns
    ensures FirstIndex(conns, ws).Some? ==> |r| == |conns| - 1
  {
    match FirstIndex(conns, ws)
    case None => conns
    case Some(i) => conns[..i] + conns[i + 1..]
  }

  /** Removal keeps every other connection, in order: later connections on the same socket included. */
  lemma RemoveFirstKeepsOthers(conns: seq<Connection>, ws: WsId)
    ensures forall c :: c in conns && c.ws != ws ==> c in RemoveFirst(conns, ws)
    ensures multiset(RemoveFirst(conns, ws)) <= multiset(conns)
    ensures FirstIndex(conns, ws).Some? ==> multiset(RemoveFirst(conns, ws)) + multiset{conns[FirstIndex(conns, ws).value]} == multiset(conns)
  {
    match FirstIndex(conns, ws)
    case None =>
    case Some(i) =>
      RemoveAtMultiset(conns, i);
      forall c | c in conns && c.ws != ws
        ensures c in RemoveFirst(conns, ws)
      {
        var j :| 0 <= j < |conns| && conns[j] == c;
        RemoveAtKeeps(conns, i, j);
      }
  }

  lemma RemoveAtMultiset(conns: seq<Connection>, i: nat)
    requires i < |conns|
    ensures multiset(conns[..i] + conns[i + 1..]) + multiset{conns[i]} == multiset(conns)
  {
    assert conns == conns[..i] + [conns[i]] + conns[i + 1..];
  }

  lemma RemoveAtKeeps(conns: seq<Connection>, i: nat, j: nat)
    requires i < |conns| && j < |conns| && j != i
    ensures conns[j] in conns[..i] + conns[i + 1..]
  {
    if j < i {
      assert (conns[..i] + conns[i + 1..])[j] == conns[j];
    } else {
      assert (conns[..i] + conns[i + 1..])[j - 1] == conns[j];
    }
  }

  /**
    `_send_history`: one text frame per record in order, its role parsed
    with `MessageRole(...)`; replay stops at the first record whose role is
    not a `MessageRole` (the `ValueError` propagates), and `ok` says whether
    every record was sent.  Ids are drawn from `firstId` on.
   */
  function ReplayHistory(ws: WsId, history: seq<HistoryEntry>, firstId: nat): (r: (seq<Event>, bool))
    ensures |r.0| <= |history|
    ensures r.1 ==> |r.0| == |history|
  {
    ReplayFrom(ws, history, 0, firstId)
  }

  /** The replay from record `i` on, the next id being `id`. */
  function ReplayFrom(ws: WsId, history: seq<HistoryEntry>, i: nat, id: nat): (r: (seq<Event>, bool))
    requires i <= |history|
    ensures |r.0| <= |history| - i
    ensures r.1 ==> |r.0| == |history| - i
    decreases |history| - i
  {
    if i == |history| then ([], true)
    else match ParseRole(history[i].role)
      case None => ([], false)
      case Some(role) =>
        var rest := ReplayFrom(ws, history, i + 1, id + 1);
        ([Sent(ws, TextMessage(role, history[i].content, FreshId(id)))] + rest.0, rest.1)
  }

  /** A record whose role is a `MessageRole`. */
  predicate Replayable(entry: HistoryEntry) {
    ParseRole(entry.role).Some?
  }

  predicate RolesValid(history: seq<HistoryEntry>) {
    forall k :: 0 <= k < |history| ==> Replayable(history[k])
  }

  /** The frame replaying a record whose role parsed. */
  function HistoryFrame(ws: WsId, entry: HistoryEntry, id: nat): Event
    requires Replayable(entry)
  {
    Sent(ws, TextMessage(ParseRole(entry.role).value, entry.content, FreshId(id)))
  }

  /** The first record from `i` on whose role does not parse, `|history|` when there is none. */
  function FirstInvalid(history: seq<HistoryEntry>, i: nat): (n: nat)
    requires i <= |history|
    ensures i <= n <= |history|
    ensures forall k :: i <= k < n ==> Replayable(history[k])
    ensures n < |history| ==> !Replayable(history[n])
    decreases |history| - i
  {
    if i == |history| || !Replayable(history[i]) then i else FirstInvalid(history, i + 1)
  }

  /** The frames of records `i` up to the first invalid one, with consecutive ids from `id`. */
  function FramesFrom(ws: WsId, history: seq<HistoryEntry>, i: nat, id: nat): (r: seq<Event>)
    requires i <= |history|
    ensures |r| == FirstInvalid(history, i) - i
  {
    var n := FirstInvalid(history, i) - i;
    seq(n, k requires 0 <= k < n => HistoryFrame(ws, history[i + k], id + k))
  }

  lemma FramesFromUnfold(ws: WsId, history: seq<HistoryEntry>, i: nat, id: nat)
    requires i < |history| && Replayable(history[i])
    ensures FramesFrom(ws, history, i, id) == [HistoryFrame(ws, history[i], id)] + FramesFrom(ws, history, i + 1, id + 1)
  {
    var frames := FramesFrom(ws, history, i, id);
    var rest := FramesFrom(ws, history, i + 1, id + 1);
    assert FirstInvalid(history, i) == FirstInvalid(history, i + 1);
    forall k | 1 <= k < |frames|
      ensures frames[k] == rest[k - 1]
    {
      FrameShift(ws, history, i, id, k);
    }
  }

  lemma FrameShift(ws: WsId, history: seq<HistoryEntry>, i: nat, id: nat, k: int)
    requires i < |history| && Replayable(history[i])
    requires 1 <= k < FirstInvalid(history, i) - i
    ensures FirstInvalid(history, i) == FirstInvalid(history, i + 1)
    ensures FramesFrom(ws, history, i, id)[k] == FramesFrom(ws, history, i + 1, id + 1)[k - 1]
  {
    assert FirstInvalid(history, i) == FirstInvalid(history, i + 1);
    FrameAt(ws, history, i, id, k);
    FrameAt(ws, history, i + 1, id + 1, k - 1);
    FrameIndex(ws, history, i, id, k);
  }

  lemma FrameAt(ws: WsId, history: seq<HistoryEntry>, i: nat, id: nat, k: int)
    requires i <= |history| && 0 <= k < FirstInvalid(history, i) - i
    ensures Replayable(history[i + k])
    ensures FramesFrom(ws, history, i, id)[k] == HistoryFrame(ws, history[i + k], id + k)
  {
  }

  lemma FrameIndex(ws: WsId, history: seq<HistoryEntry>, i: nat, id: nat, k: int)
    requires 1 <= k && i + k < |history| && Replayable(history[i + k])
    ensures HistoryFrame(ws, history[i + 1 + (k - 1)], id + 1 + (k - 1)) == HistoryFrame(ws, history[i + k], id + k)
  {
  }

  /** The replay sends the frames up to the first invalid record and succeeds when there is none. */
  lemma {:induction false} ReplayClosedForm(ws: WsId, history: seq<HistoryEntry>, i: nat, id: nat)
    requires i <= |history|
    ensures ReplayFrom(ws, history, i, id).0 == FramesFrom(ws, history, i, id)
    ensures ReplayFrom(ws, history, i, id).1 == (FirstInvalid(history, i) == |history|)
    decreases |history| - i
  {
    if i < |history| && Replayable(history[i]) {
      ReplayClosedForm(ws, history, i + 1, id + 1);
      FramesFromUnfold(ws, history, i, id);
    }
  }

  lemma FirstInvalidBounds(history: seq<HistoryEntry>, i: int)
    requires 0 <= i <= |history|
    requires forall k :: 0 <= k < i ==> Replayable(history[k])
    ensures FirstInvalid(history, 0) >= i
    ensures i < |history| && !Replayable(history[i]) ==> FirstInvalid(history, 0) == i
  {
  }

  /**
    The replay sends the records before the first invalid role, in order,
    each as a text frame with that role and content; it succeeds exactly
    when no record is invalid, and otherwise sends nothing from that record on.
   */
  lemma ReplayHistoryPrefix(ws: WsId, history: seq<HistoryEntry>, firstId: nat, i: int)
    requires 0 <= i <= |history|
    requires forall k :: 0 <= k < i ==> Replayable(history[k])
    ensures |ReplayHistory(ws, history, firstId).0| >= i
    ensures forall k :: 0 <= k < i ==> ReplayHistory(ws, history, firstId).0[k] == HistoryFrame(ws, history[k], firstId + k)
    ensures i == |history| ==> ReplayHistory(ws, history, firstId).1 && |ReplayHistory(ws, history, firstId).0| == i
    ensures i < |history| && !Replayable(history[i]) ==>
      !ReplayHistory(ws, history, firstId).1 && |ReplayHistory(ws, history, firstId).0| == i
  {
    ReplayClosedForm(ws, history, 0, firstId);
    FirstInvalidBounds(history, i);
    var frames := FramesFrom(ws, history, 0, firstId);
    assert forall k :: 0 <= k < |frames| ==> frames[k] == HistoryFrame(ws, history[0 + k], firstId + k);
  }

  /** One more record replayed: the frames so far grow by that record's frame. */
  lemma ReplayStep(ws: WsId, history: seq<HistoryEntry>, firstId: nat, i: int)
    requires 0 <= i < |history|
    requires forall k :: 0 <= k <= i ==> Replayable(history[k])
    ensures |ReplayHistory(ws, history, firstId).0| > i
    ensures ReplayHistory(ws, history, firstId).0[..i + 1] == ReplayHistory(ws, history, firstId).0[..i] + [HistoryFrame(ws, history[i], firstId + i)]
  {
    ReplayHistoryPrefix(ws, history, firstId, i + 1);
    var frames := ReplayHistory(ws, history, firstId).0;
    assert frames[..i + 1] == frames[..i] + [frames[i]];
  }

  /** The replay ends at the first record whose role does not parse, or at the end. */
  lemma ReplayStop(ws: WsId, history: seq<HistoryEntry>, firstId: nat, i: int)
    requires 0 <= i <= |history|
    requires forall k :: 0 <= k < i ==> Replayable(history[k])
    requires i == |history| || !Replayable(history[i])
    ensures |ReplayHistory(ws, history, firstId).0| == i
    ensures ReplayHistory(ws, history, firstId).1 == (i == |history|)
  {
    ReplayHistoryPrefix(ws, history, firstId, i);
  }

  /** With valid roles every record is replayed. */
  lemma ReplayHistoryComplete(ws: WsId, history: seq<HistoryEntry>, firstId: nat)
    requires RolesValid(history)
    ensures ReplayHistory(ws, history, firstId).1
    ensures |ReplayHistory(ws, history, firstId).0| == |history|
    ensures forall k :: 0 <= k < |history| ==> ReplayHistory(ws, history, firstId).0[k] == HistoryFrame(ws, history[k], firstId + k)
  {
    ReplayHistoryPrefix(ws, history, firstId, |history|);
  }

  // ---------------------------------------------------------------------
  // Dispatch in `handle_message`
  // ---------------------------------------------------------------------

  /** The branch `handle_message` takes for a frame. */
  datatype Dispatch = EchoHeartbeat | RunCommand(command: CommandBody) | InvalidPayload | IgnoreRole | RunPrompt(content: string)

  /** The branch `handle_message` takes for a frame, tested in the order of the source. */
  function Classify(m: ProtocolMessage): (d: Dispatch)
    ensures d == EchoHeartbeat <==> m.kind == Heartbeat || m.payload.heartbeat.Some?
    ensures d.RunCommand? <==> d != EchoHeartbeat && m.kind == Command && m.payload.command.Some?
    ensures d.RunCommand? ==> d.command == m.payload.command.value
    ensures d == InvalidPayload <==> d != EchoHeartbeat && !d.RunCommand? && m.payload.message.None?
    ensures d == IgnoreRole <==> d != EchoHeartbeat && !d.RunCommand? && m.payload.message.Some? && m.payload.message.value.role != User
    ensures d.RunPrompt? <==> d != EchoHeartbeat && !d.RunCommand? && m.payload.message.Some? && m.payload.message.value.role == User
    ensures d.RunPrompt? ==> d.content == m.payload.message.value.content
  {
    HeartbeatTypeIff(m.payload);
    if m.kind == Heartbeat || PayloadType(m.payload) == "heartbeat" then EchoHeartbeat
    else if m.kind == Command && m.payload.command.Some? then RunCommand(m.payload.command.value)
    else if m.payload.message.None? then InvalidPayload
    else if m.payload.message.value.role != User then IgnoreRole
    else RunPrompt(m.payload.message.value.content)
  }

  /** The payload classifies as a heartbeat exactly when its heartbeat variant is set, whatever else is. */
  lemma HeartbeatTypeIff(p: Payload)
    ensures PayloadType(p) == "heartbeat" <==> p.heartbeat.Some?
  {
    PayloadTypeIff(p, 0);
  }

  // ---------------------------------------------------------------------
  // What both managers share: disconnect, cleanup and the frames sent
  // ---------------------------------------------------------------------

  /** The events of `cleanup` for one connection: its heartbeat stopped, then the socket closed with 1001. */
  function CloseOne(c: Connection): seq<Event> {
    StopHeartbeat(c).1 + [Closed(c.ws, CloseGoingAway)]
  }

  function CloseAll(conns: seq<Connection>): seq<Event> {
    if conns == [] then [] else CloseAll(conns[..|conns| - 1]) + CloseOne(conns[|conns| - 1])
  }

  /** The events of `cleanup`, key by key in the order given. */
  function CleanupEvents(keys: seq<string>, connections: map<string, seq<Connection>>): seq<Event> {
    if keys == [] then [] else CleanupEvents(keys[..|keys| - 1], connections) + CloseAll(ConnectionsOf(connections, keys[|keys| - 1]))
  }

  /** The keys `cleanup` expires, in the insertion order of the activity dictionary. */
  function ExpiredKeys(order: seq<string>, last: map<string, int>, now: int): (r: seq<string>)
    ensures forall k :: k in r <==> k in order && k in last && now - last[k] > InactivityTimeout
    ensures NoDuplicates(order) ==> NoDuplicates(r)
  {
    if order == [] then []
    else
      var rest := ExpiredKeys(order[1..], last, now);
      assert NoDuplicates(order) ==> NoDuplicates(order[1..]) && order[0] !in order[1..];
      if order[0] in last && now - last[order[0]] > InactivityTimeout then [order[0]] + rest else rest
  }

  function KeySet(keys: seq<string>): set<string> {
    set k | k in keys
  }

  /** The key order with the given keys removed. */
  function Without(order: seq<string>, gone: set<string>): (r: seq<string>)
    ensures forall k :: k in r <==> k in order && k !in gone
    ensures NoDuplicates(order) ==> NoDuplicates(r)
  {
    if order == [] then []
    else
      var rest := Without(order[1..], gone);
      assert NoDuplicates(order) ==> NoDuplicates(order[1..]) && order[0] !in order[1..];
      if order[0] in gone then rest else [order[0]] + rest
  }

  lemma {:induction false} UnstampWithout(order: seq<string>, gone: set<string>, key: string)
    ensures Unstamp(Without(order, gone), key) == Without(order, gone + {key})
  {
    if order != [] {
      UnstampWithout(order[1..], gone, key);
    }
  }

  /** The connections of `key` once `disconnect` has removed the first one on `ws`. */
  function Remaining(connections: map<string, seq<Connection>>, key: string, ws: WsId): seq<Connection> {
    RemoveFirst(ConnectionsOf(connections, key), ws)
  }

  /** `disconnect` removes the key's last connection. */
  predicate Emptied(connections: map<string, seq<Connection>>, key: string, ws: WsId) {
    key in connections && Remaining(connections, key, ws) == []
  }


  /** The search loop of `disconnect`: the index of the first connection on `ws`, `|conns|` when there is none. */
  method FindConnection(conns: seq<Connection>, ws: WsId) returns (i: nat)
    ensures i <= |conns|
    ensures FirstIndex(conns, ws) == (if i < |conns| then Some(i) else None)
  {
    i := 0;
    while i < |conns| && conns[i].ws != ws
      invariant 0 <= i <= |conns|
      invariant forall j :: 0 <= j < i ==> conns[j].ws != ws
    {
      i := i + 1;
    }
  }

  /** A connection appended and then disconnected again: the key is back to as many connections as before. */
  lemma JoinThenLeave(connections: map<string, seq<Connection>>, key: string, c: Connection)
    ensures var joined := connections[key := ConnectionsOf(connections, key) + [c]];
      && FirstIndex(ConnectionsOf(joined, key), c.ws).Some?
      && |Remaining(joined, key, c.ws)| == |ConnectionsOf(connections, key)|
      && (Emptied(joined, key, c.ws) <==> ConnectionsOf(connections, key) == [])
  {
    var conns := ConnectionsOf(connections, key) + [c];
    assert conns[|conns| - 1].ws == c.ws;
  }

  /** How one expired key extends what `cleanup` has done so far. */
  lemma ExpireStep(expired: seq<string>, i: int, connections: map<string, seq<Connection>>)
    requires 0 <= i < |expired| && NoDuplicates(expired)
    ensures KeySet(expired[..i + 1]) == KeySet(expired[..i]) + {expired[i]}
    ensures expired[i] !in KeySet(expired[..i])
    ensures CleanupEvents(expired[..i + 1], connections) == CleanupEvents(expired[..i], connections) + CloseAll(ConnectionsOf(connections, expired[i]))
    ensures ConnectionsOf(connections - KeySet(expired[..i]), expired[i]) == ConnectionsOf(connections, expired[i])
  {
    assert expired[..i + 1] == expired[..i] + [expired[i]];
    assert expired[..i + 1][..i] == expired[..i];
  }

  lemma ConcatAssoc<T>(a: seq<T>, b: seq<T>, c: seq<T>)
    ensures a + b + c == a + (b + c)
  {
  }

  lemma SubtractStep<V>(m: map<string, V>, gone: set<string>, key: string)
    ensures m - gone - {key} == m - (gone + {key})
  {
  }

  lemma WithoutNothing(order: seq<string>)
    ensures Without(order, {}) == order
  {
  }

  /** The frames a list of events sends to one socket. */
  function SentTo(events: seq<Event>, ws: WsId): (r: seq<ProtocolMessage>)
    ensures |r| <= |events|
  {
    if events == [] then []
    else (if events[0].Sent? && events[0].ws == ws then [events[0].frame] else []) + SentTo(events[1..], ws)
  }

  lemma {:induction false} SentToAppend(a: seq<Event>, b: seq<Event>, ws: WsId)
    ensures SentTo(a + b, ws) == SentTo(a, ws) + SentTo(b, ws)
  {
    if a == [] {
      assert a + b == b;
    } else {
      assert (a + b)[0] == a[0];
      assert (a + b)[1..] == a[1..] + b;
      SentToAppend(a[1..], b, ws);
      var head := if a[0].Sent? && a[0].ws == ws then [a[0].frame] else [];
      ConcatAssoc(head, SentTo(a[1..], ws), SentTo(b, ws));
      assert SentTo(a + b, ws) == head + SentTo(a[1..] + b, ws);
    }
  }

  lemma {:induction false} SentToNone(events: seq<Event>, ws: WsId)
    requires forall e :: e in events ==> e.ws != ws
    ensures SentTo(events, ws) == []
  {
    if events != [] {
      assert events[0] in events;
      SentToNone(events[1..], ws);
    }
  }

  lemma {:induction false} SentToIncludes(events: seq<Event>, ws: WsId, frame: ProtocolMessage)
    requires Sent(ws, frame) in events
    ensures frame in SentTo(events, ws)
  {
    if events[0] != Sent(ws, frame) {
      SentToIncludes(events[1..], ws, frame);
    }
  }

  /** Nothing but `cleanup`'s own closes on expired connections: every expired connection is closed with 1001. */
  lemma {:induction false} CleanupClosesExpired(keys: seq<string>, connections: map<string, seq<Connection>>, k: int, c: Connection)
    requires 0 <= k < |keys| && c in ConnectionsOf(connections, keys[k])
    ensures Closed(c.ws, CloseGoingAway) in CleanupEvents(keys, connections)
  {
    if k == |keys| - 1 {
      CloseAllCloses(ConnectionsOf(connections, keys[k]), c);
    } else {
      assert keys[..|keys| - 1][k] == keys[k];
      CleanupClosesExpired(keys[..|keys| - 1], connections, k, c);
    }
  }

  lemma {:induction false} CloseAllCloses(conns: seq<Connection>, c: Connection)
    requires c in conns
    ensures Closed(c.ws, CloseGoingAway) in CloseAll(conns)
  {
    if conns[|conns| - 1] != c {
      assert c in conns[..|conns| - 1];
      CloseAllCloses(conns[..|conns| - 1], c);
    }
  }

  /** `cleanup` closes only sockets of the expired keys. */
  lemma {:induction false} CleanupClosesOnlyExpired(keys: seq<string>, connections: map<string, seq<Connection>>, e: Event)
    requires e in CleanupEvents(keys, connections)
    ensures exists k, c :: 0 <= k < |keys| && c in ConnectionsOf(connections, keys[k]) && e.ws == c.ws
  {
    var init := keys[..|keys| - 1];
    if e in CleanupEvents(init, connections) {
      CleanupClosesOnlyExpired(init, connections, e);
      var k, c :| 0 <= k < |init| && c in ConnectionsOf(connections, init[k]) && e.ws == c.ws;
      assert keys[k] == init[k];
    } else {
      var c := CloseAllFrom(ConnectionsOf(connections, keys[|keys| - 1]), e);
    }
  }

  lemma {:induction false} CloseAllFrom(conns: seq<Connection>, e: Event) returns (c: Connection)
    requires e in CloseAll(conns)
    ensures c in conns && e.ws == c.ws
  {
    var init := conns[..|conns| - 1];
    if e in CloseAll(init) {
      c := CloseAllFrom(init, e);
    } else {
      c := conns[|conns| - 1];
    }
  }
}
