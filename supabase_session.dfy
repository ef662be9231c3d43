/**
  `SupabaseSessionManager`: a cache of sessions by access token, a cache of
  chat states by (session key, normalised chat id), the history of a chat
  loaded once from the message store, and recording of new messages.  The
  Supabase clients and tables are reached through the functions of a
  `Backend` value.
 */
module SupabaseSession {
  import opened Wrappers
  import opened PyStr
  import opened JsonValue
  import opened WebsocketCommon
  import SupabaseAuth

  /** `ManagedSupabaseSession` (its client handle is not modelled). */
  datatype ManagedSession = ManagedSession(key: string, userId: string, accessToken: string, refreshToken: Option<string>)

  /** What `client.auth.get_user()` yields: no user, or a user whose id may be empty. */
  datatype UserLookup = NoUser | UserFound(id: string)

  /** `SupabaseMessagePart`, as far as history loading reads it. */
  datatype MessagePart = MessagePart(partType: string, textContent: Option<string>)

  /** `SupabaseMessage`, as far as history loading reads it. */
  datatype StoredMessage = StoredMessage(role: string, parts: seq<MessagePart>)

  /**
    The remote side: user lookup for an access and refresh token,
    `normalize_chat_id`, `ensure_chat_exists`, the rows of `gp_chats` and
    `gp_deployment_request` for an id, the stored history of a chat (at
    most `limit` messages), whether `save_message` succeeds, and the
    process environment.  A `Failure` is the exception the call raises:
    the `RuntimeError`s of the message service, or an `APIError` it lets
    through.  The clients are those of the default factories, built from
    the environment as `SupabaseAuth` describes.
   */
  datatype Backend = Backend(
    getUser: (string, Option<string>) -> UserLookup,
    normalizeChatId: string -> string,
    ensureChatExists: (string, string, string) -> Result<string>,
    chatRows: string -> Result<seq<map<string, Json>>>,
    deploymentRows: Json -> Result<seq<map<string, Json>>>,
    chatHistory: (string, nat) -> Result<seq<StoredMessage>>,
    saveMessage: (string, string, string, string) -> bool,
    env: map<string, string>)

  /** `_admin_client_instance()`: the admin client of `get_supabase_admin_client`, which needs the service-role key. */
  function Admin(backend: Backend): Result<(string, string)> {
    SupabaseAuth.AdminCredentials(backend.env)
  }

  /** The number of messages asked for when the history is loaded. */
  const HistoryLimit := 50

  class SupabaseChatState {
    var sessionKey: string
    var chatId: string
    var projectId: string
    var databaseUrl: Option<Json>
    var deploymentInfo: Option<map<string, Json>>
    var history: seq<HistoryEntry>
    var historyLoaded: bool

    constructor (sessionKey: string, chatId: string, projectId: string)
      ensures this.sessionKey == sessionKey && this.chatId == chatId && this.projectId == projectId
      ensures databaseUrl.None? && deploymentInfo.None? && history == [] && !historyLoaded
    {
      this.sessionKey := sessionKey;
      this.chatId := chatId;
      this.projectId := projectId;
      databaseUrl := None;
      deploymentInfo := None;
      history := [];
      historyLoaded := false;
    }
  }

  /** The keys `_determine_database_url` tries, in order. */
  const DatabaseUrlKeys := ["connection_string", "database_url", "fqdn"]

  /** `_determine_database_url`: the first truthy of the three keys; `None` for missing or empty info. */
  function DetermineDatabaseUrl(info: Option<map<string, Json>>): (r: Option<Json>)
    ensures info.None? ==> r.None?
    ensures r.Some? ==> Truthy(r.value)
    ensures info.Some? ==> r == FirstTruthy(info.value, DatabaseUrlKeys)
  {
    if info.None? || info.value == map[] then None
    else FirstTruthy(info.value, DatabaseUrlKeys)
  }

  /** `os.environ.get("QWERY_DB_URL") or os.environ.get("QWERY_DB_PATH")`. */
  function EnvDatabaseUrl(env: map<string, string>): Option<string> {
    OrElse(Env(env, "QWERY_DB_URL"), Env(env, "QWERY_DB_PATH"))
  }

  function OptJson(s: Option<string>): Option<Json> {
    match s
    case None => None
    case Some(v) => Some(JStr(v))
  }

  /** `chat_data.get("deployment_id") or chat_data.get("project_id") or project_id`. */
  function DeploymentId(chatData: map<string, Json>, projectId: string): (r: Json)
    ensures Truthy(r) || r == JStr(projectId)
  {
    match FirstTruthy(chatData, ["deployment_id", "project_id"])
    case Some(v) => v
    case None => JStr(projectId)
  }

  /** What `_load_chat_context` decides: the chat id, the database url and the deployment record. */
  datatype ChatContext = ChatContext(chatId: string, databaseUrl: Option<Json>, deploymentInfo: Option<map<string, Json>>)

  /** The chat record `_load_chat_context` reads: the first row, or an empty record when there is none. */
  function ChatData(rows: seq<map<string, Json>>): map<string, Json> {
    if rows == [] then map[] else rows[0]
  }

  /**
    `_load_chat_context`: the chat is ensured to exist, its row read (an
    empty record when there is none), the deployment looked up by the first
    truthy id, and the url taken from it or else from the environment.  The
    admin client, `ensure_chat_exists` and each table query can raise, and
    the first exception raised is the result.
   */
  function LoadChatContext(backend: Backend, userId: string, chatId: string, projectId: string): (r: Result<ChatContext>)
    ensures Admin(backend).Failure? ==> r == Failure(Admin(backend).error)
    ensures Admin(backend).Success? && backend.ensureChatExists(chatId, projectId, userId).Failure? ==>
      r == Failure(backend.ensureChatExists(chatId, projectId, userId).error)
    ensures Admin(backend).Success? && backend.ensureChatExists(chatId, projectId, userId).Success? ==>
      var id := backend.ensureChatExists(chatId, projectId, userId).value;
      && (backend.chatRows(id).Failure? ==> r == Failure(backend.chatRows(id).error))
      && (backend.chatRows(id).Success? ==>
            var d := DeploymentId(ChatData(backend.chatRows(id).value), projectId);
            && (Truthy(d) && backend.deploymentRows(d).Failure? ==> r == Failure(backend.deploymentRows(d).error))
            && (!Truthy(d) || backend.deploymentRows(d).Success? ==>
                  && r.Success?
                  && r.value.chatId == id
                  && r.value.deploymentInfo ==
                       if !Truthy(d) || backend.deploymentRows(d).value == [] then None
                       else Some(backend.deploymentRows(d).value[0])))
    ensures r.Success? ==>
      && Admin(backend).Success?
      && backend.ensureChatExists(chatId, projectId, userId) == Success(r.value.chatId)
      && backend.chatRows(r.value.chatId).Success?
    ensures r.Success? && r.value.databaseUrl.Some? && !Truthy(r.value.databaseUrl.value) ==>
      r.value.databaseUrl == OptJson(EnvDatabaseUrl(backend.env))
    ensures r.Success? && DetermineDatabaseUrl(r.value.deploymentInfo).Some? ==>
      r.value.databaseUrl == DetermineDatabaseUrl(r.value.deploymentInfo)
    ensures r.Success? && DetermineDatabaseUrl(r.value.deploymentInfo).None? ==>
      r.value.databaseUrl == OptJson(EnvDatabaseUrl(backend.env))
  {
    var _ :- Admin(backend);
    var id :- backend.ensureChatExists(chatId, projectId, userId);
    var rows :- backend.chatRows(id);
    var deploymentId := DeploymentId(ChatData(rows), projectId);
    var deployments :- if Truthy(deploymentId) then backend.deploymentRows(deploymentId) else Success([]);
    var info := if deployments == [] then None else Some(deployments[0]);
    var url := DetermineDatabaseUrl(info);
    Success(ChatContext(id, if url.Some? then url else OptJson(EnvDatabaseUrl(backend.env)), info))
  }

  /** `[part.text_content for part in message.parts if part.type == "text" and part.text_content]`. */
  function TextSegments(parts: seq<MessagePart>): (r: seq<string>)
    ensures |r| <= |parts|
    ensures forall k :: 0 <= k < |r| ==> r[k] != ""
    ensures forall k :: 0 <= k < |parts| && parts[k].partType == "text" && parts[k].textContent.Some? && parts[k].textContent.value != "" ==> parts[k].textContent.value in r
  {
    if parts == [] then []
    else
      var rest := TextSegments(parts[1..]);
      assert forall k :: 1 <= k < |parts| ==> parts[k] == parts[1..][k - 1];
      var p := parts[0];
      if p.partType == "text" && p.textContent.Some? && p.textContent.value != "" then [p.textContent.value] + rest else rest
  }

  /** The role a stored message gets in memory: `assistant` is kept, everything else is `user`. */
  function HistoryRole(role: string): (r: string)
    ensures r == "assistant" || r == "user"
    ensures r == "assistant" <==> role == "assistant"
  {
    if role == "assistant" then "assistant" else "user"
  }

  /** The history `ensure_history_loaded` builds from the stored messages. */
  function ConvertHistory(messages: seq<StoredMessage>): (h: seq<HistoryEntry>)
    ensures |h| <= |messages|
  {
    if messages == [] then []
    else
      var m := messages[|messages| - 1];
      var segments := TextSegments(m.parts);
      ConvertHistory(messages[..|messages| - 1])
      + (if segments == [] then [] else [HistoryEntry(HistoryRole(m.role), Join(segments, "\n"))])
  }

  /** Every converted record has role `user` or `assistant` and non-empty content. */
  lemma {:induction false} ConvertedHistoryShape(messages: seq<StoredMessage>)
    ensures forall k :: 0 <= k < |ConvertHistory(messages)| ==>
      (ConvertHistory(messages)[k].role == "user" || ConvertHistory(messages)[k].role == "assistant")
      && ConvertHistory(messages)[k].content != ""
  {
    if messages != [] {
      ConvertedHistoryShape(messages[..|messages| - 1]);
      var segments := TextSegments(messages[|messages| - 1].parts);
      if segments != [] {
        JoinContainsPart(segments, "\n", 0);
      }
    }
  }

  /** Messages without text are skipped; a message with text contributes one record, its segments joined by newlines. */
  lemma ConvertHistoryStep(messages: seq<StoredMessage>, m: StoredMessage)
    ensures TextSegments(m.parts) == [] ==> ConvertHistory(messages + [m]) == ConvertHistory(messages)
    ensures TextSegments(m.parts) != [] ==>
      ConvertHistory(messages + [m]) == ConvertHistory(messages) + [HistoryEntry(HistoryRole(m.role), Join(TextSegments(m.parts), "\n"))]
  {
    assert (messages + [m])[..|messages|] == messages;
  }

  /** The stored history replays in any manager: the converted roles are all `MessageRole` values. */
  lemma ConvertedRolesValid(messages: seq<StoredMessage>)
    ensures RolesValid(ConvertHistory(messages))
  {
    ConvertedHistoryShape(messages);
  }

  /**
    What `get_session` returns for a token, given the cached sessions: the
    token is required, a cached session is returned, and otherwise a new
    client must be buildable and must find a user with an id.
   */
  function SessionFor(backend: Backend, sessions: map<string, ManagedSession>, accessToken: string, refreshToken: Option<string>): (r: Result<ManagedSession>)
    ensures accessToken == "" ==> r.Failure?
    ensures accessToken != "" && accessToken in sessions ==> r == Success(sessions[accessToken])
    ensures r.Success? && accessToken !in sessions ==>
      && SupabaseAuth.ClientCredentials(backend.env).Success?
      && r.value.key == accessToken && r.value.userId != "" && r.value.refreshToken == refreshToken
  {
    if accessToken == "" then Failure("Supabase access token is required")
    else if accessToken in sessions then Success(sessions[accessToken])
    else if SupabaseAuth.ClientCredentials(backend.env).Failure? then Failure(SupabaseAuth.ClientCredentials(backend.env).error)
    else match backend.getUser(accessToken, refreshToken)
      case NoUser => Failure("Supabase user information not available")
      case UserFound(id) =>
        if id == "" then Failure("Supabase user id missing")
        else Success(ManagedSession(accessToken, id, accessToken, refreshToken))
  }

  /**
    Whether `get_chat_state` and `ensure_history_loaded` return for a
    session and a chat, given the chat id and the loaded flag of each
    cached chat state: the admin client is needed, then a cached state
    needs its history loaded or a history query that returns, and a new
    one needs its context loaded and then its history query to return.
   */
  function ChatSetupSucceeds(backend: Backend, cached: map<(string, string), (string, bool)>, s: ManagedSession,
                             projectId: string, chatId: string): (ok: bool)
    ensures ok ==> Admin(backend).Success?
  {
    && Admin(backend).Success?
    && var key := (s.key, backend.normalizeChatId(chatId));
       if key in cached then cached[key].1 || backend.chatHistory(cached[key].0, HistoryLimit).Success?
       else match LoadChatContext(backend, s.userId, backend.normalizeChatId(chatId), backend.normalizeChatId(projectId))
            case Failure(_) => false
            case Success(c) => backend.chatHistory(c.chatId, HistoryLimit).Success?
  }

  /** Whether `get_session`, `get_chat_state` and `ensure_history_loaded` all return for a token and a chat. */
  function SetupSucceeds(backend: Backend, sessions: map<string, ManagedSession>, cached: map<(string, string), (string, bool)>,
                         accessToken: string, refreshToken: Option<string>, projectId: string, chatId: string): (ok: bool)
    ensures ok ==> accessToken != "" && SessionFor(backend, sessions, accessToken, refreshToken).Success? && Admin(backend).Success?
  {
    match SessionFor(backend, sessions, accessToken, refreshToken)
    case Failure(_) => false
    case Success(s) => ChatSetupSucceeds(backend, cached, s, projectId, chatId)
  }

  class SupabaseSessionManager {
    var sessions: map<string, ManagedSession>
    var chatStates: map<(string, string), SupabaseChatState>
    /** How many times the client factory has been called. */
    var clientsBuilt: nat

    constructor ()
      ensures sessions == map[] && chatStates == map[] && clientsBuilt == 0
    {
      sessions := map[];
      chatStates := map[];
      clientsBuilt := 0;
    }

    /** The chat id and the loaded flag of every cached chat state. */
    ghost function Cached(): map<(string, string), (string, bool)>
      reads this`chatStates, chatStates.Values
    {
      map k | k in chatStates :: (chatStates[k].chatId, chatStates[k].historyLoaded)
    }

    /**
      `get_session`: the cached session of the token when there is one;
      otherwise a new client asks for the user, and only a user with an id
      is cached.  Building the client fails without the Supabase
      configuration.
     */
    method GetSession(backend: Backend, accessToken: string, refreshToken: Option<string>) returns (r: Result<ManagedSession>)
      modifies this`sessions, this`clientsBuilt
      ensures r == SessionFor(backend, old(sessions), accessToken, refreshToken)
      ensures accessToken == "" ==>
        r == Failure("Supabase access token is required") && sessions == old(sessions) && clientsBuilt == old(clientsBuilt)
      ensures accessToken != "" && accessToken in old(sessions) ==>
        r == Success(old(sessions)[accessToken]) && sessions == old(sessions) && clientsBuilt == old(clientsBuilt)
      ensures accessToken != "" && accessToken !in old(sessions) && SupabaseAuth.ClientCredentials(backend.env).Failure? ==>
        r == Failure(SupabaseAuth.ConfigError) && sessions == old(sessions) && clientsBuilt == old(clientsBuilt)
      ensures accessToken != "" && accessToken !in old(sessions) && SupabaseAuth.ClientCredentials(backend.env).Success? ==>
        && clientsBuilt == old(clientsBuilt) + 1
        && match backend.getUser(accessToken, refreshToken)
           case NoUser => r == Failure("Supabase user information not available") && sessions == old(sessions)
           case UserFound(id) =>
             if id == "" then r == Failure("Supabase user id missing") && sessions == old(sessions)
             else r == Success(ManagedSession(accessToken, id, accessToken, refreshToken))
                  && sessions == old(sessions)[accessToken := r.value]
    {
      if accessToken == "" {
        return Failure("Supabase access token is required");
      }
      var sessionKey := accessToken;
      if sessionKey in sessions {
        return Success(sessions[sessionKey]);
      }
      var client := SupabaseAuth.ClientCredentials(backend.env);
      if client.Failure? {
        return Failure(client.error);
      }
      clientsBuilt := clientsBuilt + 1;
      var user := backend.getUser(accessToken, refreshToken);
      if user.NoUser? {
        return Failure("Supabase user information not available");
      }
      if user.id == "" {
        return Failure("Supabase user id missing");
      }
      var session := ManagedSession(sessionKey, user.id, accessToken, refreshToken);
      sessions := sessions[sessionKey := session];
      return Success(session);
    }

    /**
      `get_chat_state`: one chat state per (session key, normalised chat
      id); a new one is loaded with the chat's context before it is cached.
      The admin client is needed first; when it or the loading raises,
      nothing is cached.
     */
    method GetChatState(backend: Backend, session: ManagedSession, projectId: string, chatId: string) returns (r: Result<SupabaseChatState>)
      modifies this`chatStates
      ensures Admin(backend).Failure? ==> r == Failure(Admin(backend).error) && chatStates == old(chatStates)
      ensures var key := (session.key, backend.normalizeChatId(chatId));
        Admin(backend).Success? && key in old(chatStates) ==> r == Success(old(chatStates)[key]) && chatStates == old(chatStates)
      ensures var key := (session.key, backend.normalizeChatId(chatId));
        Admin(backend).Success? && key !in old(chatStates) ==>
          match LoadChatContext(backend, session.userId, backend.normalizeChatId(chatId), backend.normalizeChatId(projectId))
          case Failure(e) => r == Failure(e) && chatStates == old(chatStates)
          case Success(c) =>
            && r.Success? && fresh(r.value) && chatStates == old(chatStates)[key := r.value]
            && r.value.sessionKey == session.key && r.value.projectId == backend.normalizeChatId(projectId)
            && r.value.chatId == c.chatId && r.value.databaseUrl == c.databaseUrl && r.value.deploymentInfo == c.deploymentInfo
            && r.value.history == [] && !r.value.historyLoaded
    {
      var admin := Admin(backend);
      if admin.Failure? {
        return Failure(admin.error);
      }
      var normalizedProjectId := backend.normalizeChatId(projectId);
      var normalizedChatId := backend.normalizeChatId(chatId);
      var key := (session.key, normalizedChatId);
      if key in chatStates {
        return Success(chatStates[key]);
      }
      var state := new SupabaseChatState(session.key, normalizedChatId, normalizedProjectId);
      var context := LoadChatContext(backend, session.userId, normalizedChatId, normalizedProjectId);
      if context.Failure? {
        return Failure(context.error);
      }
      state.chatId := context.value.chatId;
      state.databaseUrl := context.value.databaseUrl;
      state.deploymentInfo := context.value.deploymentInfo;
      chatStates := chatStates[key := state];
      return Success(state);
    }

    /**
      `ensure_history_loaded`: once loaded, the history is left alone;
      otherwise it is replaced by the converted store history.  When the
      admin client or the history query raises, the state is unchanged and
      still not loaded.
     */
    method EnsureHistoryLoaded(backend: Backend, state: SupabaseChatState) returns (r: Result<()>)
      modifies state`history, state`historyLoaded
      ensures old(state.historyLoaded) ==> r == Success(()) && state.history == old(state.history) && state.historyLoaded
      ensures !old(state.historyLoaded) && Admin(backend).Failure? ==>
        r == Failure(Admin(backend).error) && state.history == old(state.history) && !state.historyLoaded
      ensures !old(state.historyLoaded) && Admin(backend).Success? ==>
        match backend.chatHistory(state.chatId, HistoryLimit)
        case Failure(e) => r == Failure(e) && state.history == old(state.history) && !state.historyLoaded
        case Success(messages) => r == Success(()) && state.history == ConvertHistory(messages) && state.historyLoaded
    {
      if state.historyLoaded {
        return Success(());
      }
      var admin := Admin(backend);
      if admin.Failure? {
        return Failure(admin.error);
      }
      var fetched := backend.chatHistory(state.chatId, HistoryLimit);
      if fetched.Failure? {
        return Failure(fetched.error);
      }
      var messages := fetched.value;
      var history: seq<HistoryEntry> := [];
      var i := 0;
      while i < |messages|
        invariant 0 <= i <= |messages|
        invariant history == ConvertHistory(messages[..i])
      {
        var message := messages[i];
        var segments := TextSegments(message.parts);
        ConvertHistoryStep(messages[..i], message);
        assert messages[..i + 1] == messages[..i] + [message];
        if segments != [] {
          var content := Join(segments, "\n");
          var role := if message.role == "assistant" then "assistant" else "user";
          history := history + [HistoryEntry(role, content)];
        }
        i := i + 1;
      }
      assert messages[..i] == messages;
      state.history := history;
      state.historyLoaded := true;
      return Success(());
    }

    /**
      `record_message`: after a successful save, exactly one record at the
      end of the history; a save that raises, or an admin client that
      cannot be built, changes nothing.
     */
    method RecordMessage(backend: Backend, session: ManagedSession, state: SupabaseChatState, role: string, content: string) returns (saved: bool)
      modifies state`history
      ensures saved <==> Admin(backend).Success? && backend.saveMessage(state.chatId, session.userId, role, content)
      ensures saved ==> state.history == old(state.history) + [HistoryEntry(role, content)]
      ensures !saved ==> state.history == old(state.history)
    {
      saved := Admin(backend).Success? && backend.saveMessage(state.chatId, session.userId, role, content);
      if saved {
        state.history := state.history + [HistoryEntry(role, content)];
      }
    }
  }

  // ---------------------------------------------------------------------
  // What the caches promise
  // ---------------------------------------------------------------------

  /** The url comes from the first of `connection_string`, `database_url` and `fqdn` that is truthy. */
  lemma DatabaseUrlFirstMatch(info: map<string, Json>, i: int)
    requires 0 <= i < |DatabaseUrlKeys| && DatabaseUrlKeys[i] in info && Truthy(info[DatabaseUrlKeys[i]])
    requires forall j :: 0 <= j < i ==> !(DatabaseUrlKeys[j] in info && Truthy(info[DatabaseUrlKeys[j]]))
    ensures DetermineDatabaseUrl(Some(info)) == Some(info[DatabaseUrlKeys[i]])
  {
    var k := FirstTruthyKey(info, DatabaseUrlKeys);
    assert k == i;
  }

  /** Without a usable deployment record the url is the environment's. */
  lemma NoDeploymentUsesEnv(backend: Backend, userId: string, chatId: string, projectId: string)
    requires LoadChatContext(backend, userId, chatId, projectId).Success?
    requires DetermineDatabaseUrl(LoadChatContext(backend, userId, chatId, projectId).value.deploymentInfo).None?
    ensures LoadChatContext(backend, userId, chatId, projectId).value.databaseUrl == OptJson(EnvDatabaseUrl(backend.env))
  {
  }

  /** A new chat whose context cannot be loaded (`ensure_chat_exists` or a query raises) fails the setup. */
  lemma ChatLoadFailureFailsSetup(backend: Backend, sessions: map<string, ManagedSession>, cached: map<(string, string), (string, bool)>,
                                  accessToken: string, refreshToken: Option<string>, projectId: string, chatId: string)
    requires SessionFor(backend, sessions, accessToken, refreshToken).Success?
    requires var s := SessionFor(backend, sessions, accessToken, refreshToken).value;
      && (s.key, backend.normalizeChatId(chatId)) !in cached
      && LoadChatContext(backend, s.userId, backend.normalizeChatId(chatId), backend.normalizeChatId(projectId)).Failure?
    ensures !SetupSucceeds(backend, sessions, cached, accessToken, refreshToken, projectId, chatId)
  {
  }

  /** A history that is not loaded yet and whose query raises fails the setup, for a cached chat state or a new one. */
  lemma HistoryFailureFailsSetup(backend: Backend, sessions: map<string, ManagedSession>, cached: map<(string, string), (string, bool)>,
                                 accessToken: string, refreshToken: Option<string>, projectId: string, chatId: string)
    requires SessionFor(backend, sessions, accessToken, refreshToken).Success?
    ensures var s := SessionFor(backend, sessions, accessToken, refreshToken).value;
      var key := (s.key, backend.normalizeChatId(chatId));
      key in cached && !cached[key].1 && backend.chatHistory(cached[key].0, HistoryLimit).Failure? ==>
        !SetupSucceeds(backend, sessions, cached, accessToken, refreshToken, projectId, chatId)
    ensures var s := SessionFor(backend, sessions, accessToken, refreshToken).value;
      var key := (s.key, backend.normalizeChatId(chatId));
      var c := LoadChatContext(backend, s.userId, backend.normalizeChatId(chatId), backend.normalizeChatId(projectId));
      key !in cached && c.Success? && backend.chatHistory(c.value.chatId, HistoryLimit).Failure? ==>
        !SetupSucceeds(backend, sessions, cached, accessToken, refreshToken, projectId, chatId)
  {
  }

  /** A cached chat state whose history is loaded needs only the session and the admin client. */
  lemma LoadedChatSetup(backend: Backend, sessions: map<string, ManagedSession>, cached: map<(string, string), (string, bool)>,
                        accessToken: string, refreshToken: Option<string>, projectId: string, chatId: string)
    requires SessionFor(backend, sessions, accessToken, refreshToken).Success? && Admin(backend).Success?
    requires var s := SessionFor(backend, sessions, accessToken, refreshToken).value;
      var key := (s.key, backend.normalizeChatId(chatId));
      key in cached && cached[key].1
    ensures SetupSucceeds(backend, sessions, cached, accessToken, refreshToken, projectId, chatId)
  {
  }

  /**
    With the Supabase url and anonymous key configured but no service-role
    key, no setup succeeds: `get_chat_state` needs the admin client, whose
    factory raises `SupabaseAuthError`.
   */
  lemma MissingServiceKeyFailsSetup(backend: Backend, sessions: map<string, ManagedSession>, cached: map<(string, string), (string, bool)>,
                                    accessToken: string, refreshToken: Option<string>, projectId: string, chatId: string)
    requires Env(backend.env, "SUPABASE_SERVICE_ROLE_KEY") in {None, Some("")}
    ensures Admin(backend).Failure?
    ensures !SetupSucceeds(backend, sessions, cached, accessToken, refreshToken, projectId, chatId)
  {
    if SupabaseAuth.LoadConfig(backend.env).Success? {
      assert SupabaseAuth.LoadConfig(backend.env).value.serviceRoleKey == Env(backend.env, "SUPABASE_SERVICE_ROLE_KEY");
    }
  }
}
