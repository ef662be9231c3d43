/**
  The small entities every agent component uses: the resolved `User`, the
  `RequestContext` a resolver reads headers and cookies from, the
  `ToolRegistry` and the `AgentMemory`.  The same `RequestContext` and
  `AgentMemory` are declared a second time, unchanged, among the domain
  entities; this module stands for both.
 */
module Core {
  import opened Wrappers
  import opened PyStr
  import opened JsonValue
  import opened DictOrder

  /** `User(id, group_memberships)`. */
  datatype User = User(id: string, groupMemberships: seq<string>)

  // ---------------------------------------------------------------------
  // RequestContext
  // ---------------------------------------------------------------------

  /**
    The headers as the caller's `dict` iterates them (its items in order,
    keys distinct) and the cookies.
   */
  datatype RequestContext = RequestContext(headers: map<string, string>, cookies: map<string, string>)

  /** `{key.lower(): value for key, value in headers.items()}`: a later key overwrites an earlier one that lowercases alike. */
  function LowerKeys(items: seq<(string, string)>): (m: map<string, string>)
    ensures forall k :: k in m <==> exists i :: 0 <= i < |items| && Lower(items[i].0) == k
  {
    if items == [] then map[]
    else
      var last := items[|items| - 1];
      var m := LowerKeys(items[..|items| - 1]);
      assert forall i :: 0 <= i < |items| - 1 ==> items[..|items| - 1][i] == items[i];
      m[Lower(last.0) := last.1]
  }

  /** `RequestContext(headers, cookies)`: absent headers or cookies read as empty. */
  function NewRequestContext(headers: Option<seq<(string, string)>>, cookies: Option<map<string, string>>): (ctx: RequestContext)
    ensures headers.None? ==> ctx.headers == map[]
    ensures cookies.None? ==> ctx.cookies == map[]
    ensures cookies.Some? ==> ctx.cookies == cookies.value
    ensures forall k :: k in ctx.headers ==> Lower(k) == k
  {
    var hs := if headers.Some? then LowerKeys(headers.value) else map[];
    assert forall k :: k in hs ==> Lower(k) == k by {
      forall k | k in hs
        ensures Lower(k) == k
      {
        var i :| 0 <= i < |headers.value| && Lower(headers.value[i].0) == k;
        LowerIdempotent(headers.value[i].0);
      }
    }
    RequestContext(hs, if cookies.Some? then cookies.value else map[])
  }

  /** `get_header(name)`: the name is lowercased before the lookup. */
  function GetHeader(ctx: RequestContext, name: string): (r: Option<string>)
    ensures r.Some? <==> Lower(name) in ctx.headers
    ensures r.Some? ==> r.value == ctx.headers[Lower(name)]
  {
    if Lower(name) in ctx.headers then Some(ctx.headers[Lower(name)]) else None
  }

  /** `get_cookie(name)`: an exact-key lookup. */
  function GetCookie(ctx: RequestContext, name: string): (r: Option<string>)
    ensures r.Some? <==> name in ctx.cookies
    ensures r.Some? ==> r.value == ctx.cookies[name]
  {
    if name in ctx.cookies then Some(ctx.cookies[name]) else None
  }

  /** Names that lowercase alike read the same header. */
  lemma HeaderCaseInsensitive(ctx: RequestContext, a: string, b: string)
    requires Lower(a) == Lower(b)
    ensures GetHeader(ctx, a) == GetHeader(ctx, b)
  {
  }

  /**
    A header is found under any spelling of its name exactly when some
    given header lowercases to the same name, and then the value is that
    of the last such header.
   */
  lemma {:induction false} HeaderLookup(items: seq<(string, string)>, cookies: Option<map<string, string>>, name: string)
    ensures var r := GetHeader(NewRequestContext(Some(items), cookies), name);
      && (r.Some? <==> exists i :: 0 <= i < |items| && Lower(items[i].0) == Lower(name))
      && (r.Some? ==> exists i :: (0 <= i < |items| && Lower(items[i].0) == Lower(name) && r.value == items[i].1
            && forall j :: i < j < |items| ==> Lower(items[j].0) != Lower(name)))
  {
    LowerIdempotent(name);
    if Lower(name) in LowerKeys(items) {
      LastWins(items, Lower(name));
    }
  }

  lemma {:induction false} LastWins(items: seq<(string, string)>, key: string)
    requires key in LowerKeys(items)
    ensures exists i :: (0 <= i < |items| && Lower(items[i].0) == key && LowerKeys(items)[key] == items[i].1
      && forall j :: i < j < |items| ==> Lower(items[j].0) != key)
  {
    var n := |items|;
    var last := items[n - 1];
    var init := items[..n - 1];
    if Lower(last.0) == key {
      assert Lower(items[n - 1].0) == key;
    } else {
      assert key in LowerKeys(init);
      LastWins(init, key);
      var i :| 0 <= i < |init| && Lower(init[i].0) == key && LowerKeys(init)[key] == init[i].1
        && forall j :: i < j < |init| ==> Lower(init[j].0) != key;
      assert items[i] == init[i];
      assert forall j :: i < j < n ==> Lower(items[j].0) != key by {
        forall j | i < j < n
          ensures Lower(items[j].0) != key
        {
          if j < n - 1 {
            assert items[j] == init[j];
          }
        }
      }
    }
  }

  /** Without headers and cookies every lookup misses. */
  lemma EmptyContextMisses(name: string)
    ensures GetHeader(NewRequestContext(None, None), name) == None
    ensures GetCookie(NewRequestContext(None, None), name) == None
  {
  }

  /** A cookie name is not lowercased: `Token` and `token` are different cookies. */
  lemma CookieCaseSensitive()
    ensures GetCookie(NewRequestContext(None, Some(map["token" := "t"])), "Token") == None
    ensures GetCookie(NewRequestContext(None, Some(map["token" := "t"])), "token") == Some("t")
  {
    assert "Token" != "token" by {
      assert "Token"[0] != "token"[0];
    }
  }

  // ---------------------------------------------------------------------
  // ToolRegistry
  // ---------------------------------------------------------------------

  /** A tool object: its `name` attribute when it has one, and its class name. */
  datatype Tool = Tool(name: Option<string>, className: string)

  /** `getattr(tool, "name", tool.__class__.__name__)`. */
  function ToolName(t: Tool): (r: string)
    ensures t.name.Some? ==> r == t.name.value
    ensures t.name.None? ==> r == t.className
  {
    if t.name.Some? then t.name.value else t.className
  }

  class ToolRegistry {
    /** `_tools`, and the order its keys were first assigned in. */
    var tools: map<string, Tool>
    var order: seq<string>
    /** Every name registered so far, repeats included. */
    ghost var registered: seq<string>

    ghost predicate Valid()
      reads this
    {
      && order == FirstOccurrences(registered)
      && (forall n :: n in tools <==> n in registered)
    }

    constructor ()
      ensures Valid()
      ensures tools == map[] && order == [] && registered == []
    {
      tools := map[];
      order := [];
      registered := [];
    }

    /** `register_local_tool`: keyed by the tool's name, replacing an earlier tool of that name; the access groups are not kept. */
    method RegisterLocalTool(tool: Tool, accessGroups: seq<string>)
      requires Valid()
      modifies this
      ensures Valid()
      ensures tools == old(tools)[ToolName(tool) := tool]
      ensures order == Stamp(old(order), ToolName(tool))
      ensures registered == old(registered) + [ToolName(tool)]
    {
      var name := ToolName(tool);
      tools := tools[name := tool];
      order := Stamp(order, name);
      registered := registered + [name];
      assert registered[..|registered| - 1] == old(registered);
    }

    /** `get_tool(name)`: the registered tool, `None` for an unknown name. */
    function GetTool(name: string): (r: Option<Tool>)
      reads this
      ensures r.Some? <==> name in tools
      ensures r.Some? ==> r.value == tools[name]
    {
      if name in tools then Some(tools[name]) else None
    }

    /** `list_tools()`: every registered name once, in the order of first registration. */
    function ListTools(): (r: seq<string>)
      reads this
      requires Valid()
      ensures NoDuplicates(r)
      ensures forall n :: n in r <==> n in tools
      ensures forall i, j :: 0 <= i < j < |r| ==> FirstIndexOf(registered, r[i]) < FirstIndexOf(registered, r[j])
    {
      FirstOccurrencesOrdered(registered);
      order
    }
  }

  /** Registering under a name that is taken replaces the tool and keeps the listing. */
  method ReRegisterReplaces(reg: ToolRegistry, first: Tool, second: Tool)
    requires reg.Valid() && ToolName(first) == ToolName(second)
    modifies reg
    ensures reg.Valid()
    ensures reg.GetTool(ToolName(first)) == Some(second)
    ensures reg.ListTools() == Stamp(old(reg.order), ToolName(first))
  {
    reg.RegisterLocalTool(first, []);
    reg.RegisterLocalTool(second, []);
    assert ToolName(first) in Stamp(old(reg.order), ToolName(first));
  }

  // ---------------------------------------------------------------------
  // AgentMemory
  // ---------------------------------------------------------------------

  type AgentEvent = map<string, Json>

  class AgentMemory {
    var events: seq<AgentEvent>

    constructor ()
      ensures events == []
    {
      events := [];
    }

    /** `add_event`: appended at the end. */
    method AddEvent(event: AgentEvent)
      modifies this
      ensures events == old(events) + [event]
    {
      events := events + [event];
    }

    /** `get_events`: a new list holding the events in insertion order. */
    method GetEvents() returns (r: array<AgentEvent>)
      ensures fresh(r)
      ensures r[..] == events
    {
      r := new AgentEvent[|events|](i requires 0 <= i < |events| reads this => events[i]);
    }
  }

  /** Writing into the list `get_events` returned leaves the memory as it was. */
  method CopyIsIndependent(memory: AgentMemory, event: AgentEvent) returns (copy: array<AgentEvent>)
    modifies memory
    ensures memory.events == old(memory.events) + [event]
    ensures fresh(copy) && copy.Length == |memory.events| && copy[0] == map[]
  {
    memory.AddEvent(event);
    copy := memory.GetEvents();
    copy[0] := map[];
  }

  /** An event added after `get_events` returned does not show in the list it returned. */
  method LaterEventsMissCopy(memory: AgentMemory, event: AgentEvent) returns (copy: array<AgentEvent>)
    modifies memory
    ensures fresh(copy) && copy[..] == old(memory.events)
    ensures memory.events == old(memory.events) + [event]
  {
    copy := memory.GetEvents();
    memory.AddEvent(event);
  }
}
