/**
  The text-to-SQL agent around the LLM: the resolver that reads the user
  from cookies, headers and the environment, the choice of SQL runner from
  a database URL, the cleaning of the model's reply, the message list sent
  to the model, and the steps of `handle_prompt` that turn the reply and
  the query result into the response (preview, visualization, summary).
  The LLM, JSON parsing, the SQL tool, the filesystem and the uuid are
  parameters.
 */
module Agent {
  import opened Wrappers
  import opened PyStr
  import opened JsonValue
  import opened Core
  import Visualization

  /** The exceptions the modelled code raises, with the text `str(exc)` gives where it is used. */
  datatype Exception =
    | ValueError(message: string)
    | FileNotFoundError(message: string)
    | RuntimeError(message: string)
    | AttributeError(attribute: string)
    | TypeError(operation: string)
    | IndexError

  /** A call that returns a value or raises. */
  datatype Attempt<T> = Ok(value: T) | Raise(error: Exception)

  // ---------------------------------------------------------------------
  // EnvUserResolver
  // ---------------------------------------------------------------------

  /** A value Python's `if value:` accepts: present and non-empty. */
  predicate Given(s: Option<string>) {
    s.Some? && s.value != ""
  }

  /** `EnvUserResolver.resolve_user`: `env` stands for `os.environ`. */
  function ResolveEnvUser(ctx: RequestContext, env: map<string, string>): (u: User)
    ensures Given(GetCookie(ctx, "user_id")) ==> u.id == GetCookie(ctx, "user_id").value
    ensures !Given(GetCookie(ctx, "user_id")) && Given(GetHeader(ctx, "x-user-id")) ==> u.id == GetHeader(ctx, "x-user-id").value
    ensures !Given(GetCookie(ctx, "user_id")) && !Given(GetHeader(ctx, "x-user-id")) ==>
      u.id == EnvOr(env, "QWERY_DEFAULT_USER_ID", "demo-user")
    ensures Given(GetHeader(ctx, "x-user-groups")) ==>
      forall g :: g in u.groupMemberships <==> g != "" && g in StripEach(Split(GetHeader(ctx, "x-user-groups").value, ';'))
    ensures !Given(GetHeader(ctx, "x-user-groups")) ==>
      forall g :: g in u.groupMemberships <==> g != "" && g in StripEach(Split(EnvOr(env, "QWERY_DEFAULT_GROUPS", "read_data"), ','))
  {
    var given := OrElse(GetCookie(ctx, "user_id"), GetHeader(ctx, "x-user-id"));
    var id := if Given(given) then given.value else EnvOr(env, "QWERY_DEFAULT_USER_ID", "demo-user");
    var memberships := GetHeader(ctx, "x-user-groups");
    var groups :=
      if Given(memberships) then StripAll(Split(memberships.value, ';'))
      else StripAll(Split(EnvOr(env, "QWERY_DEFAULT_GROUPS", "read_data"), ','));
    User(id, groups)
  }

  /** Every resolved group is non-empty and has no surrounding whitespace. */
  lemma GroupsAreClean(ctx: RequestContext, env: map<string, string>, g: string)
    requires g in ResolveEnvUser(ctx, env).groupMemberships
    ensures g != "" && IsStripped(g)
  {
    var header := GetHeader(ctx, "x-user-groups");
    var parts := if Given(header) then Split(header.value, ';') else Split(EnvOr(env, "QWERY_DEFAULT_GROUPS", "read_data"), ',');
    assert g in StripEach(parts);
    var k :| 0 <= k < |parts| && StripEach(parts)[k] == g;
  }

  /** Stripping and dropping empties leaves a list of clean names as it is. */
  lemma {:induction false} StripAllClean(parts: seq<string>)
    requires forall k :: 0 <= k < |parts| ==> parts[k] != "" && IsStripped(parts[k])
    ensures StripAll(parts) == parts
  {
    if parts != [] {
      StripOfStripped(parts[0]);
      StripAllClean(parts[1..]);
    }
  }

  /** Group names joined with `;` in `x-user-groups` are read back exactly, in order. */
  lemma GroupsHeaderRoundTrip(ctx: RequestContext, env: map<string, string>, groups: seq<string>)
    requires groups != []
    requires forall k :: 0 <= k < |groups| ==> groups[k] != "" && IsStripped(groups[k]) && ';' !in groups[k]
    requires GetHeader(ctx, "x-user-groups") == Some(Join(groups, ";"))
    ensures ResolveEnvUser(ctx, env).groupMemberships == groups
  {
    JoinedNotEmpty(groups);
    HeaderGroups(ctx, env);
    SplitJoin(groups, ';');
    StripAllClean(groups);
  }

  /** The groups of a request carrying `x-user-groups`, read off the header. */
  lemma HeaderGroups(ctx: RequestContext, env: map<string, string>)
    requires Given(GetHeader(ctx, "x-user-groups"))
    ensures ResolveEnvUser(ctx, env).groupMemberships == StripAll(Split(GetHeader(ctx, "x-user-groups").value, ';'))
  {
  }

  lemma JoinedNotEmpty(groups: seq<string>)
    requires groups != [] && groups[0] != ""
    ensures Join(groups, ";") != ""
  {
    if |groups| > 1 {
      assert Join(groups, ";") == groups[0] + ";" + Join(groups[1..], ";");
    }
  }

  /** With nothing in the request and nothing in the environment, the user is `demo-user` in `read_data`. */
  lemma DefaultEnvUser(ctx: RequestContext, env: map<string, string>)
    requires !Given(GetCookie(ctx, "user_id")) && !Given(GetHeader(ctx, "x-user-id")) && !Given(GetHeader(ctx, "x-user-groups"))
    requires "QWERY_DEFAULT_USER_ID" !in env && "QWERY_DEFAULT_GROUPS" !in env
    ensures ResolveEnvUser(ctx, env) == User("demo-user", ["read_data"])
  {
    var s := "read_data";
    assert ',' !in s;
    SplitNoSep(s, ',');
    StripOfStripped(s);
  }

  // ---------------------------------------------------------------------
  // The scheme of a database URL and `_build_sql_runner`
  // ---------------------------------------------------------------------

  predicate IsAsciiAlpha(c: char) {
    'a' <= c <= 'z' || 'A' <= c <= 'Z'
  }

  /** The characters `urllib.parse` allows in a scheme. */
  predicate IsSchemeChar(c: char) {
    IsAsciiAlpha(c) || '0' <= c <= '9' || c == '+' || c == '-' || c == '.'
  }

  /** The position of the first character of `s` in `cs`, `|s|` when there is none. */
  function FindAny(s: string, cs: set<char>): (i: nat)
    ensures i <= |s|
    ensures forall k :: 0 <= k < i ==> s[k] !in cs
    ensures i < |s| ==> s[i] in cs
  {
    if s == [] then 0 else if s[0] in cs then 0 else 1 + FindAny(s[1..], cs)
  }

  /** Whether `urlparse` splits a scheme off `url`: a letter, then scheme characters up to the first `:`. */
  predicate HasScheme(url: string) {
    var i := FindAny(url, {':'});
    0 < i < |url| && IsAsciiAlpha(url[0]) && forall k :: 0 <= k < i ==> IsSchemeChar(url[k])
  }

  /** `urlparse(url).scheme`, lowercased as the parser and then `_build_sql_runner` do. */
  function Scheme(url: string): string {
    if HasScheme(url) then Lower(url[..FindAny(url, {':'})]) else ""
  }

  /** What `urlparse` goes on parsing after the scheme and its `:`. */
  function AfterScheme(url: string): string {
    if HasScheme(url) then url[FindAny(url, {':'}) + 1..] else url
  }

  /** What is left once a `//netloc` part, up to the next `/`, `?` or `#`, is removed. */
  function DropNetloc(rest: string): string {
    if |rest| >= 2 && rest[..2] == "//" then rest[2 + FindAny(rest[2..], {'/', '?', '#'})..] else rest
  }

  /** `urlparse(url).path`: the `//netloc` part, the `#fragment` and the `?query` removed. */
  function UrlPath(url: string): string {
    var local := DropNetloc(AfterScheme(url));
    var noFragment := local[..FindAny(local, {'#'})];
    noFragment[..FindAny(noFragment, {'?'})]
  }

  predicate IsPostgres(scheme: string) {
    scheme == "postgres" || scheme == "postgresql"
  }

  predicate IsSqlite(scheme: string) {
    scheme == "sqlite" || scheme == "file" || scheme == ""
  }

  /** The file a SQLite URL names: the parsed path, or the whole string when there is no scheme. */
  function SqlitePath(url: string): string {
    if Scheme(url) != "" then UrlPath(url) else url
  }

  datatype SqlRunner = PostgresRunner(connectionString: string) | SqliteRunner(databasePath: string)

  /**
    `_build_sql_runner(database_url)`, with `os.path.abspath` and
    `os.path.exists` given as `absPath` and `exists`.
   */
  function BuildSqlRunner(url: string, absPath: string -> string, fileExists: string -> bool): (r: Attempt<SqlRunner>)
    ensures IsPostgres(Scheme(url)) ==> r == Ok(PostgresRunner(url))
    ensures IsSqlite(Scheme(url)) && SqlitePath(url) == "" ==>
      r == Raise(ValueError("SQLite connection must include a file path"))
    ensures IsSqlite(Scheme(url)) && SqlitePath(url) != "" && !fileExists(absPath(SqlitePath(url))) ==>
      r == Raise(FileNotFoundError("SQLite database not found: " + absPath(SqlitePath(url))))
    ensures IsSqlite(Scheme(url)) && SqlitePath(url) != "" && fileExists(absPath(SqlitePath(url))) ==>
      r == Ok(SqliteRunner(absPath(SqlitePath(url))))
    ensures !IsPostgres(Scheme(url)) && !IsSqlite(Scheme(url)) ==>
      r == Raise(ValueError("Unsupported database scheme: " + Scheme(url)))
  {
    var scheme := Scheme(url);
    if IsPostgres(scheme) then Ok(PostgresRunner(url))
    else if IsSqlite(scheme) then
      var path := SqlitePath(url);
      if path == "" then Raise(ValueError("SQLite connection must include a file path"))
      else
        var abs := absPath(path);
        if !fileExists(abs) then Raise(FileNotFoundError("SQLite database not found: " + abs))
        else Ok(SqliteRunner(abs))
    else Raise(ValueError("Unsupported database scheme: " + scheme))
  }

  /** A runner is built only for a Postgres scheme or for a SQLite file that exists. */
  lemma RunnerKinds(url: string, absPath: string -> string, fileExists: string -> bool)
    ensures BuildSqlRunner(url, absPath, fileExists).Ok? <==>
      IsPostgres(Scheme(url)) || (IsSqlite(Scheme(url)) && SqlitePath(url) != "" && fileExists(absPath(SqlitePath(url))))
    ensures BuildSqlRunner(url, absPath, fileExists).Raise? ==>
      (BuildSqlRunner(url, absPath, fileExists).error.ValueError? || BuildSqlRunner(url, absPath, fileExists).error.FileNotFoundError?)
  {
  }

  /** `scheme:rest` with a well-formed scheme parses as that scheme, lowercased, followed by `rest`. */
  lemma ParseScheme(s: string, rest: string)
    requires s != [] && IsAsciiAlpha(s[0])
    requires forall k :: 0 <= k < |s| ==> IsSchemeChar(s[k])
    ensures Scheme(s + ":" + rest) == Lower(s)
    ensures AfterScheme(s + ":" + rest) == rest
  {
    var url := s + ":" + rest;
    var i := FindAny(url, {':'});
    assert url[|s|] == ':';
    assert forall k :: 0 <= k < |s| ==> url[k] == s[k];
    assert i == |s|;
    assert url[..i] == s;
    assert url[i + 1..] == rest;
  }

  lemma FindAnyNone(s: string, cs: set<char>)
    requires forall k :: 0 <= k < |s| ==> s[k] !in cs
    ensures FindAny(s, cs) == |s|
  {
  }

  /** The host of `//host/path` is dropped. */
  lemma DropNetlocOf(host: string, path: string)
    requires forall k :: 0 <= k < |host| ==> host[k] !in {'/', '?', '#'}
    requires path == [] || path[0] == '/'
    ensures DropNetloc("//" + host + path) == path
  {
    var rest := "//" + host + path;
    assert rest[..2] == "//";
    assert rest[2..] == host + path;
    var j := FindAny(host + path, {'/', '?', '#'});
    assert forall k :: 0 <= k < |host| ==> (host + path)[k] == host[k];
    if path != [] {
      assert (host + path)[|host|] == '/';
    }
    assert j == |host|;
    assert rest[2 + j..] == path;
  }

  /** `scheme://host/path` names the file `/path`: the host is dropped. */
  lemma UrlPathOf(s: string, host: string, path: string)
    requires s != [] && IsAsciiAlpha(s[0])
    requires forall k :: 0 <= k < |s| ==> IsSchemeChar(s[k])
    requires forall k :: 0 <= k < |host| ==> host[k] !in {'/', '?', '#'}
    requires path == [] || path[0] == '/'
    requires '#' !in path && '?' !in path
    ensures UrlPath(s + "://" + host + path) == path
  {
    var url := s + "://" + host + path;
    var rest := "//" + host + path;
    assert url == s + ":" + rest;
    ParseScheme(s, rest);
    DropNetlocOf(host, path);
    UrlPathFrom(url, path);
  }

  /** A local part without a fragment or a query is the whole path. */
  lemma UrlPathFrom(url: string, path: string)
    requires DropNetloc(AfterScheme(url)) == path
    requires '#' !in path && '?' !in path
    ensures UrlPath(url) == path
  {
    FindAnyNone(path, {'#'});
    assert path[..|path|] == path;
    FindAnyNone(path, {'?'});
  }

  /** A string without `:` has no scheme and is taken as a SQLite file path as it stands. */
  lemma PlainPathIsSqlite(url: string)
    requires ':' !in url
    ensures Scheme(url) == "" && IsSqlite(Scheme(url)) && SqlitePath(url) == url
  {
    assert FindAny(url, {':'}) == |url|;
  }

  // ---------------------------------------------------------------------
  // _clean_json
  // ---------------------------------------------------------------------

  const Fence := "```"

  /** `[line for line in lines if not line.strip().startswith("```")]`. */
  function Unfenced(lines: seq<string>): seq<string> {
    if lines == [] then []
    else if StartsWith(Strip(lines[0]), Fence) then Unfenced(lines[1..])
    else [lines[0]] + Unfenced(lines[1..])
  }

  /** The kept lines are exactly the lines whose stripped form does not start with the fence. */
  lemma {:induction false} UnfencedFilters(lines: seq<string>, l: string)
    ensures l in Unfenced(lines) <==> l in lines && !StartsWith(Strip(l), Fence)
  {
    if lines != [] {
      UnfencedFilters(lines[1..], l);
      assert lines == [lines[0]] + lines[1..];
    }
  }

  /** `_clean_json(text)`. */
  function CleanJson(text: string): (r: string)
    ensures IsStripped(r)
    ensures !StartsWith(Strip(text), Fence) ==> r == Strip(text)
  {
    var t := Strip(text);
    if StartsWith(t, Fence) then Strip(Join(Unfenced(SplitLines(t)), "\n")) else t
  }

  predicate NoLineBreak(s: string) {
    forall k :: 0 <= k < |s| ==> !IsLineBreak(s[k])
  }

  lemma {:induction false} SplitLinesSingle(a: string)
    requires a != [] && NoLineBreak(a)
    ensures SplitLines(a) == [a]
  {
    if |a| == 1 {
      assert a[1..] == [];
      assert a == [a[0]];
    } else {
      assert NoLineBreak(a[1..]) by {
        assert forall k :: 0 <= k < |a| - 1 ==> a[1..][k] == a[k + 1];
      }
      SplitLinesSingle(a[1..]);
      assert a == [a[0]] + a[1..];
    }
  }

  lemma {:induction false} SplitLinesCons(a: string, b: string)
    requires a != [] && NoLineBreak(a)
    ensures SplitLines(a + "\n" + b) == [a] + SplitLines(b)
  {
    var s := a + "\n" + b;
    assert s[0] == a[0];
    assert !IsLineBreak(s[0]);
    if |a| == 1 {
      assert s[1..] == "\n" + b;
      assert ("\n" + b)[1..] == b;
      assert SplitLines("\n" + b) == [""] + SplitLines(b);
      assert [s[0]] + "" == a;
    } else {
      assert NoLineBreak(a[1..]) by {
        assert forall k :: 0 <= k < |a| - 1 ==> a[1..][k] == a[k + 1];
      }
      assert s[1..] == a[1..] + "\n" + b;
      SplitLinesCons(a[1..], b);
      assert a == [a[0]] + a[1..];
    }
  }

  /** A line starting with the fence still starts with it once stripped. */
  lemma FenceSurvivesStrip(s: string)
    requires StartsWith(s, Fence)
    ensures StartsWith(Strip(s), Fence)
  {
    assert !IsSpace(s[0]) && !IsSpace(s[1]) && !IsSpace(s[2]);
    assert LStrip(s) == s;
    var r := RStrip(s);
    assert |r| >= 3;
    assert r[..3] == s[..3];
  }

  /** The three lines of a fenced one-line reply. */
  lemma FencedLines(tag: string, body: string)
    requires NoLineBreak(tag) && NoLineBreak(body) && body != []
    ensures SplitLines(Fence + tag + "\n" + body + "\n" + Fence) == [Fence + tag, body, Fence]
  {
    var open := Fence + tag;
    assert NoLineBreak(open) by {
      forall k | 0 <= k < |open|
        ensures !IsLineBreak(open[k])
      {
        if k >= 3 {
          assert open[k] == tag[k - 3];
        }
      }
    }
    assert Fence + tag + "\n" + body + "\n" + Fence == open + "\n" + (body + "\n" + Fence);
    SplitLinesCons(open, body + "\n" + Fence);
    SplitLinesCons(body, Fence);
    SplitLinesSingle(Fence);
  }

  /** Of three lines, the fence lines around the middle one are dropped. */
  lemma UnfencedKeepsMiddle(a: string, b: string, c: string)
    requires StartsWith(Strip(a), Fence) && !StartsWith(Strip(b), Fence) && StartsWith(Strip(c), Fence)
    ensures Unfenced([a, b, c]) == [b]
  {
    assert [c][1..] == [];
    assert Unfenced([c]) == Unfenced([]);
    assert [b, c][0] == b && [b, c][1..] == [c];
    assert Unfenced([b, c]) == [b] + Unfenced([c]);
    assert [a, b, c][0] == a && [a, b, c][1..] == [b, c];
  }

  /** The fences are dropped and the payload line kept. */
  lemma UnfencedThree(tag: string, body: string)
    requires !StartsWith(Strip(body), Fence)
    ensures Unfenced([Fence + tag, body, Fence]) == [body]
  {
    assert (Fence + tag)[..|Fence|] == Fence;
    FenceSurvivesStrip(Fence + tag);
    FenceSurvivesStrip(Fence);
    UnfencedKeepsMiddle(Fence + tag, body, Fence);
  }

  /** A fenced reply opens and closes with a backtick, so it has no whitespace to strip. */
  lemma FencedText(tag: string, body: string)
    ensures IsStripped(Fence + tag + "\n" + body + "\n" + Fence)
    ensures StartsWith(Fence + tag + "\n" + body + "\n" + Fence, Fence)
  {
    var text := Fence + tag + "\n" + body + "\n" + Fence;
    assert text == Fence + (tag + "\n" + body + "\n" + Fence);
    assert text[..|Fence|] == Fence;
    assert text[0] == '`' && text[|text| - 1] == '`';
  }

  /** `_clean_json` on a stripped fenced text whose only kept line is `body`. */
  lemma CleanFenced(text: string, body: string)
    requires IsStripped(text) && StartsWith(text, Fence)
    requires Unfenced(SplitLines(text)) == [body]
    ensures CleanJson(text) == Strip(body)
  {
    StripOfStripped(text);
    assert Join([body], "\n") == body;
  }

  /**
    A reply wrapped in a fenced block (an opening fence with an optional
    language tag, one line of payload, a closing fence) is cleaned to the
    stripped payload.
   */
  lemma FencedPayload(tag: string, body: string)
    requires NoLineBreak(tag) && NoLineBreak(body) && body != []
    requires !StartsWith(Strip(body), Fence)
    ensures CleanJson(Fence + tag + "\n" + body + "\n" + Fence) == Strip(body)
  {
    FencedText(tag, body);
    FencedLines(tag, body);
    UnfencedThree(tag, body);
    CleanFenced(Fence + tag + "\n" + body + "\n" + Fence, body);
  }

  /** A reply without the fence is only stripped. */
  lemma UnfencedReply(text: string)
    requires !StartsWith(Strip(text), Fence)
    ensures CleanJson(text) == Strip(text)
  {
  }

  // ---------------------------------------------------------------------
  // The messages sent to the model
  // ---------------------------------------------------------------------

  datatype Message = Message(role: string, content: string)

  /** `SYSTEM_PROMPT`. */
  const SystemPrompt :=
    "You are a PostgreSQL analytics assistant. Convert the user request into a valid SQL query.\n"
    + "Respond with JSON containing:\n"
    + "{\n"
    + "  \"sql\": \"<SQL query>\",\n"
    + "  \"summary\": \"<short description of what the query does>\",\n"
    + "  \"visualization\": {\n"
    + "    \"type\": \"bar|line|scatter|none\",\n"
    + "    \"x\": \"column name for x axis\",\n"
    + "    \"y\": \"column name for y axis\",\n"
    + "    \"title\": \"Chart title\"\n"
    + "  }\n"
    + "}\n"
    + "If no visualization is appropriate, set \"visualization\": null.\n"
    + "Guidelines:\n"
    + "- Always inline literal values directly in the SQL. Do NOT use parameter placeholders such as %s or $1.\n"
    + "- If you need to perform multiple operations, separate them with semicolons in a single SQL string.\n"
    + "- Ensure every statement you generate is valid when executed as-is.\n"
    + "- When inserting data, provide explicit values for all NOT NULL columns using realistic sample data.\n"
    + "- Prefer DROP ... IF EXISTS patterns when deleting objects.\n"
    + "Do not include any markdown or commentary outside the JSON."

  const Roles: set<string> := {"user", "assistant", "system"}

  /** One chat-history record as a message: an unknown or missing role becomes `user`, missing content the empty string. */
  function RecordMessage(record: map<string, string>): (m: Message)
    ensures m.role in Roles
    ensures "role" in record && record["role"] in Roles ==> m.role == record["role"]
    ensures !("role" in record && record["role"] in Roles) ==> m.role == "user"
    ensures "content" in record ==> m.content == record["content"]
    ensures "content" !in record ==> m.content == ""
  {
    var role := if "role" in record then record["role"] else "user";
    Message(if role in Roles then role else "user", if "content" in record then record["content"] else "")
  }

  /** The message list: the system prompt, one message per history record, the prompt. */
  function Messages(history: seq<map<string, string>>, prompt: string): (r: seq<Message>)
    ensures |r| == |history| + 2
    ensures r[0] == Message("system", SystemPrompt)
    ensures r[|r| - 1] == Message("user", prompt)
    ensures forall i :: 0 <= i < |history| ==> r[i + 1] == RecordMessage(history[i])
    ensures forall i :: 0 <= i < |r| ==> r[i].role in Roles
  {
    [Message("system", SystemPrompt)] + seq(|history|, i requires 0 <= i < |history| => RecordMessage(history[i])) + [Message("user", prompt)]
  }

  /** The loop of `handle_prompt` that builds `messages`; an absent history is the empty one. */
  method BuildMessages(history: seq<map<string, string>>, prompt: string) returns (messages: seq<Message>)
    ensures messages == Messages(history, prompt)
  {
    messages := [Message("system", SystemPrompt)];
    var i := 0;
    while i < |history|
      invariant 0 <= i <= |history|
      invariant messages == [Message("system", SystemPrompt)] + seq(i, k requires 0 <= k < i => RecordMessage(history[k]))
    {
      var record := history[i];
      var role := if "role" in record then record["role"] else "user";
      if role !in Roles {
        role := "user";
      }
      messages := messages + [Message(role, if "content" in record then record["content"] else "")];
      i := i + 1;
    }
    messages := messages + [Message("user", prompt)];
  }

  // ---------------------------------------------------------------------
  // Reading the model's reply
  // ---------------------------------------------------------------------

  /** The decoded reply: its truthy `sql` value and all its fields. */
  datatype Payload = Payload(sql: Json, fields: map<string, Json>)

  const ParseFailure := "Failed to parse model response as JSON: "
  const NoSql := "Model response did not include 'sql'"

  /** A value `len()` accepts: a string, a list or an object. */
  predicate Sized(j: Json) {
    j.JStr? || j.JArr? || j.JObj?
  }

  /**
    `json.loads(payload_text)`, `payload.get("sql")` and the `len(sql)` of
    the log line that follows; `parse` is `None` where `json.loads` raises.
    A truthy number or boolean has no length.
   */
  function DecodePayload(text: string, parse: string -> Option<Json>): (r: Attempt<Payload>)
    ensures parse(text).None? ==> r == Raise(RuntimeError(ParseFailure + text))
    ensures r.Ok? ==>
      && parse(text) == Some(JObj(r.value.fields)) && Get(r.value.fields, "sql") == Some(r.value.sql)
      && Truthy(r.value.sql) && Sized(r.value.sql)
    ensures r.Raise? ==> r.error.RuntimeError? || r.error.AttributeError? || r.error.TypeError?
  {
    match parse(text)
    case None => Raise(RuntimeError(ParseFailure + text))
    case Some(JObj(fields)) =>
      var sql := Get(fields, "sql");
      if sql.None? || !Truthy(sql.value) then Raise(RuntimeError(NoSql))
      else if Sized(sql.value) then Ok(Payload(sql.value, fields))
      else Raise(TypeError("len"))
    case Some(_) => Raise(AttributeError("get"))
  }

  /** The reply, cleaned and decoded. */
  function ReadPayload(content: string, parse: string -> Option<Json>): (r: Attempt<Payload>)
    ensures r.Ok? ==> parse(CleanJson(content)) == Some(JObj(r.value.fields)) && Get(r.value.fields, "sql") == Some(r.value.sql)
    ensures r.Ok? ==> Truthy(r.value.sql) && Sized(r.value.sql)
    ensures r.Raise? ==> r.error.RuntimeError? || r.error.AttributeError? || r.error.TypeError?
  {
    DecodePayload(CleanJson(content), parse)
  }

  /** A decoded object whose `sql` is missing or falsy is refused with the same error, and only such an object. */
  lemma NoSqlRaises(text: string, parse: string -> Option<Json>, fields: map<string, Json>)
    requires parse(text) == Some(JObj(fields))
    ensures DecodePayload(text, parse) == Raise(RuntimeError(NoSql)) <==> !("sql" in fields && Truthy(fields["sql"]))
  {
  }

  /** An object with a non-empty string `sql` is accepted with that query. */
  lemma SqlAccepted(text: string, parse: string -> Option<Json>, fields: map<string, Json>, sql: string)
    requires parse(text) == Some(JObj(fields))
    requires "sql" in fields && fields["sql"] == JStr(sql) && sql != ""
    ensures DecodePayload(text, parse) == Ok(Payload(JStr(sql), fields))
  {
  }

  /**
    A truthy `sql` that is a list or an object is accepted too; one that is
    a number or a boolean makes `len(sql)` raise `TypeError`.
   */
  lemma SqlValueKinds(text: string, parse: string -> Option<Json>, fields: map<string, Json>)
    requires parse(text) == Some(JObj(fields))
    requires "sql" in fields && Truthy(fields["sql"])
    ensures (fields["sql"].JArr? || fields["sql"].JObj?) ==> DecodePayload(text, parse) == Ok(Payload(fields["sql"], fields))
    ensures (fields["sql"].JNum? || fields["sql"].JBool?) ==> DecodePayload(text, parse) == Raise(TypeError("len"))
  {
  }

  /** `str(sql)` as an f-string prints it: a string as it is, a list or an object as `repr` gives it. */
  function SqlText(sql: Json, repr: Json -> string): (t: string)
    ensures sql.JStr? ==> t == sql.s
  {
    if sql.JStr? then sql.s else repr(sql)
  }

  // ---------------------------------------------------------------------
  // Running the query
  // ---------------------------------------------------------------------

  datatype QueryResult = QueryResult(columns: seq<string>, rows: seq<seq<Value>>)

  /** An explicit URL wins when it is truthy; otherwise `QWERY_DB_URL` or `QWERY_DB_PATH`, when one is truthy. */
  function DatabaseUrl(explicit: Option<string>, env: map<string, string>): (r: Option<string>)
    ensures Given(explicit) ==> r == explicit
    ensures !Given(explicit) && Given(OrElse(Env(env, "QWERY_DB_URL"), Env(env, "QWERY_DB_PATH"))) ==>
      r == OrElse(Env(env, "QWERY_DB_URL"), Env(env, "QWERY_DB_PATH"))
    ensures !Given(explicit) && !Given(OrElse(Env(env, "QWERY_DB_URL"), Env(env, "QWERY_DB_PATH"))) ==> r == explicit
  {
    var fromEnv := OrElse(Env(env, "QWERY_DB_URL"), Env(env, "QWERY_DB_PATH"));
    if !Given(explicit) && Given(fromEnv) then fromEnv else explicit
  }

  /** `str(exc)` for the exceptions raised while the runner is built. */
  function ExceptionText(e: Exception): string {
    match e
    case ValueError(m) => m
    case FileNotFoundError(m) => m
    case RuntimeError(m) => m
    case AttributeError(a) => a
    case TypeError(o) => o
    case IndexError => ""
  }

  const SqlTrailer := "\nSQL:\n"
  const NotRegistered := "run_sql tool is not registered and no database URL provided"

  /** `RuntimeError(f"{exc}\nSQL:\n{sql}")`. */
  function WithSql(text: string, sql: string): (e: Exception)
    ensures e.RuntimeError? && EndsWith(e.message, SqlTrailer + sql)
  {
    var m := text + SqlTrailer + sql;
    assert m == text + (SqlTrailer + sql);
    assert m[|m| - |SqlTrailer + sql|..] == SqlTrailer + sql;
    RuntimeError(m)
  }

  /**
    The `try` block of `handle_prompt` that runs the query: with a truthy URL
    a runner is built and a fresh SQL tool runs `sql` on it; otherwise the
    registered `run_sql` tool does.  `runSql(Some(runner), sql)` and
    `runSql(None, sql)` stand for those tools' `execute`; `text` is
    `str(sql)`, which every error carries.
   */
  function RunQuery(sql: Json, text: string, url: Option<string>, registered: bool, absPath: string -> string, fileExists: string -> bool,
                    runSql: (Option<SqlRunner>, Json) -> Result<QueryResult>): (r: Attempt<QueryResult>)
    ensures r.Raise? ==> r.error.RuntimeError? && EndsWith(r.error.message, SqlTrailer + text)
    ensures r.Ok? ==> Given(url) || registered
    ensures !Given(url) && registered ==> (r.Ok? <==> runSql(None, sql).Success?)
  {
    if Given(url) then
      match BuildSqlRunner(url.value, absPath, fileExists)
      case Raise(e) => Raise(WithSql(ExceptionText(e), text))
      case Ok(runner) =>
        match runSql(Some(runner), sql)
        case Failure(m) => Raise(WithSql(m, text))
        case Success(q) => Ok(q)
    else if !registered then Raise(WithSql(NotRegistered, text))
    else
      match runSql(None, sql)
      case Failure(m) => Raise(WithSql(m, text))
      case Success(q) => Ok(q)
  }

  /** Every failure while running the query is a `RuntimeError` that ends with the SQL. */
  lemma QueryErrorsCarrySql(sql: Json, text: string, url: Option<string>, registered: bool, absPath: string -> string, fileExists: string -> bool,
                            runSql: (Option<SqlRunner>, Json) -> Result<QueryResult>)
    ensures RunQuery(sql, text, url, registered, absPath, fileExists, runSql).Raise? ==>
      RunQuery(sql, text, url, registered, absPath, fileExists, runSql).error.RuntimeError?
      && EndsWith(RunQuery(sql, text, url, registered, absPath, fileExists, runSql).error.message, SqlTrailer + text)
  {
  }

  /** Without a URL the registered tool runs the query; with one, the tool on the runner the URL selects. */
  lemma QueryRoute(sql: Json, text: string, url: Option<string>, registered: bool, absPath: string -> string, fileExists: string -> bool,
                   runSql: (Option<SqlRunner>, Json) -> Result<QueryResult>)
    ensures !Given(url) && registered && runSql(None, sql).Success? ==>
      RunQuery(sql, text, url, registered, absPath, fileExists, runSql) == Ok(runSql(None, sql).value)
    ensures Given(url) && BuildSqlRunner(url.value, absPath, fileExists).Ok? && runSql(Some(BuildSqlRunner(url.value, absPath, fileExists).value), sql).Success? ==>
      RunQuery(sql, text, url, registered, absPath, fileExists, runSql) == Ok(runSql(Some(BuildSqlRunner(url.value, absPath, fileExists).value), sql).value)
    ensures RunQuery(sql, text, url, registered, absPath, fileExists, runSql).Ok? ==> Given(url) || registered
  {
  }

  // ---------------------------------------------------------------------
  // The preview
  // ---------------------------------------------------------------------

  const PreviewLimit := 20

  /** `[list(row) for row in result.rows[:20]]`. */
  function PreviewRows(rows: seq<seq<Value>>): (p: seq<seq<Value>>)
    ensures |p| <= PreviewLimit && |p| <= |rows| && p == rows[..|p|]
    ensures |rows| <= PreviewLimit ==> p == rows
    ensures |rows| > PreviewLimit ==> |p| == PreviewLimit
  {
    if |rows| > PreviewLimit then rows[..PreviewLimit] else rows
  }

  /** `len(result.rows) > 20`. */
  function Truncated(rows: seq<seq<Value>>): bool {
    |rows| > PreviewLimit
  }

  /** The preview is marked truncated exactly when it leaves rows out. */
  lemma TruncatedIffRowsLeftOut(rows: seq<seq<Value>>)
    ensures Truncated(rows) <==> PreviewRows(rows) != rows
    ensures Truncated(rows) <==> |PreviewRows(rows)| < |rows|
  {
  }

  // ---------------------------------------------------------------------
  // The visualization
  // ---------------------------------------------------------------------

  /** `{"title": title, "type": viz_type}`. */
  datatype VizSummary = VizSummary(title: Json, chartType: string)

  const ChartTypes: set<string> := {"bar", "line", "scatter"}

  /** `result.columns.index(name)`: the first column of that name. */
  function ColumnIndex(columns: seq<string>, name: string): (i: nat)
    requires name in columns
    ensures i < |columns| && columns[i] == name
    ensures forall j :: 0 <= j < i ==> columns[j] != name
  {
    if columns[0] == name then 0 else 1 + ColumnIndex(columns[1..], name)
  }

  /** `[row[k] for row in rows]`, `None` where a row is too short and Python raises `IndexError`. */
  function ColumnValues(rows: seq<seq<Value>>, k: nat): (r: Option<seq<Value>>)
    ensures r.Some? <==> forall i :: 0 <= i < |rows| ==> k < |rows[i]|
    ensures r.Some? ==> |r.value| == |rows| && forall i :: 0 <= i < |rows| ==> r.value[i] == rows[i][k]
  {
    if forall i :: 0 <= i < |rows| ==> k < |rows[i]| then Some(seq(|rows|, i requires 0 <= i < |rows| && k < |rows[i]| => rows[i][k]))
    else None
  }

  function AsList(values: seq<Value>): Visualization.PyObj {
    Visualization.Sequence(seq(|values|, i requires 0 <= i < |values| => Visualization.Scalar(values[i])))
  }

  /** `(viz_payload.get("type") or "").lower()`: a truthy value that is not a string has no `lower`. */
  function VizType(fields: map<string, Json>): Attempt<string> {
    var t := Get(fields, "type");
    if t.None? || !Truthy(t.value) then Ok("")
    else if t.value.JStr? then Ok(Lower(t.value.s))
    else Raise(AttributeError("lower"))
  }

  /** `viz_payload.get("title") or "Visualization"`. */
  function VizTitle(fields: map<string, Json>): (r: Json)
    ensures Truthy(r)
  {
    var t := Get(fields, "title");
    if t.Some? && Truthy(t.value) then t.value else JStr("Visualization")
  }

  /** Whether the requested axes name result columns and the type is one `handle_prompt` draws. */
  predicate VizRequested(fields: map<string, Json>, vizType: string, columns: seq<string>) {
    && vizType in ChartTypes
    && "x" in fields && fields["x"].JStr? && fields["x"].s in columns
    && "y" in fields && fields["y"].JStr? && fields["y"].s in columns
  }

  /**
    The dictionary handed to the visualization tool: the x column then the
    y column; when both name the same column the dictionary has one key.
   */
  function VizData(x: string, y: string, xs: seq<Value>, ys: seq<Value>): (d: seq<(string, Visualization.PyObj)>)
    ensures Visualization.DistinctKeys(d)
    ensures x == y ==> |d| == 1
    ensures x != y ==> |d| == 2 && d[0].0 == x && d[1].0 == y
  {
    if x == y then [(x, AsList(ys))] else [(x, AsList(xs)), (y, AsList(ys))]
  }

  /**
    The visualization step of `handle_prompt`: nothing for a falsy
    `visualization`, a summary when the type and both axes are accepted and
    the tool draws the chart, and the tool's `ValueError` when it refuses.
   */
  function VisualizationFor(viz: Option<Json>, q: QueryResult): (r: Attempt<Option<VizSummary>>)
    ensures r.Ok? && r.value.Some? ==>
      (&& viz.Some? && viz.value.JObj?
       && VizType(viz.value.fields) == Ok(r.value.value.chartType)
       && VizRequested(viz.value.fields, r.value.value.chartType, q.columns)
       && r.value.value.title == VizTitle(viz.value.fields))
  {
    if viz.None? || !Truthy(viz.value) then Ok(None)
    else if !viz.value.JObj? then Raise(AttributeError("get"))
    else
      var fields := viz.value.fields;
      match VizType(fields)
      case Raise(e) => Raise(e)
      case Ok(vizType) =>
        if !VizRequested(fields, vizType, q.columns) then Ok(None)
        else
          var x := fields["x"].s;
          var y := fields["y"].s;
          var xs := ColumnValues(q.rows, ColumnIndex(q.columns, x));
          var ys := ColumnValues(q.rows, ColumnIndex(q.columns, y));
          if xs.None? || ys.None? then Raise(IndexError)
          else
            match Visualization.Execute(VizData(x, y, xs.value, ys.value), Some(vizType), VizTitle(fields))
            case Failure(m) => Raise(ValueError(m))
            case Success(_) => Ok(Some(VizSummary(VizTitle(fields), vizType)))
  }

  /** Every row reaches both requested columns. */
  predicate RowsCover(q: QueryResult, fields: map<string, Json>)
    requires "x" in fields && fields["x"].JStr? && fields["x"].s in q.columns
    requires "y" in fields && fields["y"].JStr? && fields["y"].s in q.columns
  {
    forall i :: 0 <= i < |q.rows| ==>
      ColumnIndex(q.columns, fields["x"].s) < |q.rows[i]| && ColumnIndex(q.columns, fields["y"].s) < |q.rows[i]|
  }

  /** Two different accepted axes over full rows are drawn, and the summary carries the title and type. */
  lemma VizAccepted(fields: map<string, Json>, q: QueryResult, vizType: string)
    requires VizType(fields) == Ok(vizType) && VizRequested(fields, vizType, q.columns)
    requires fields["x"].s != fields["y"].s
    requires RowsCover(q, fields)
    ensures VisualizationFor(Some(JObj(fields)), q) == Ok(Some(VizSummary(VizTitle(fields), vizType)))
  {
    assert fields != map[] by {
      assert "x" in fields;
    }
  }

  /** A request naming the same column for both axes gives the tool a one-key dictionary, which it refuses. */
  lemma SameAxisRaises(fields: map<string, Json>, q: QueryResult, vizType: string)
    requires VizType(fields) == Ok(vizType) && VizRequested(fields, vizType, q.columns)
    requires fields["x"].s == fields["y"].s
    requires RowsCover(q, fields)
    ensures VisualizationFor(Some(JObj(fields)), q) == Raise(ValueError(Visualization.TooFewColumns))
  {
    assert fields != map[] by {
      assert "x" in fields;
    }
  }

  /** A type outside bar, line and scatter, or an axis that is not a result column, gives no visualization. */
  lemma VizDeclined(fields: map<string, Json>, q: QueryResult, vizType: string)
    requires VizType(fields) == Ok(vizType) && !VizRequested(fields, vizType, q.columns)
    ensures VisualizationFor(Some(JObj(fields)), q) == Ok(None)
  {
  }

  // ---------------------------------------------------------------------
  // The summary
  // ---------------------------------------------------------------------

  /** `(payload.get("summary") or "").strip()`: a truthy value that is not a string has no `strip`. */
  function SummaryField(fields: map<string, Json>): (r: Attempt<string>)
    ensures r.Ok? ==> IsStripped(r.value)
  {
    var s := Get(fields, "summary");
    if s.None? || !Truthy(s.value) then Ok("")
    else if s.value.JStr? then Ok(Strip(s.value.s))
    else Raise(AttributeError("strip"))
  }

  function SavedLine(csv: string): string {
    "Results saved to " + csv + "."
  }

  const TruncatedMarker := "... (truncated)"

  /** The rows the fallback summary shows: the first five of the preview. */
  function PreviewHead(preview: seq<seq<Value>>): (h: seq<seq<Value>>)
    ensures |h| <= 5 && |h| <= |preview| && h == preview[..|h|]
    ensures h == [] <==> preview == []
  {
    if |preview| > 5 then preview[..5] else preview
  }

  /** The lines of the summary written when the model gave none. */
  function FallbackLines(csv: string, sql: string, columns: seq<string>, preview: seq<seq<Value>>, truncated: bool): seq<string> {
    var head := PreviewHead(preview);
    ["Query executed successfully.", SavedLine(csv), "", "SQL:", sql]
    + if columns != [] && head != [] then
        ["", "Preview:", Join(columns, ", ")]
        + seq(|head|, i requires 0 <= i < |head| => JoinValues(head[i], ", "))
        + (if truncated then [TruncatedMarker] else [])
      else []
  }

  /** The summary text of the response. */
  function SummaryText(summary: string, csv: string, sql: string, columns: seq<string>, preview: seq<seq<Value>>, truncated: bool): string {
    if summary != "" then Join([summary, SavedLine(csv)], "\n")
    else Join(FallbackLines(csv, sql, columns, preview, truncated), "\n")
  }

  /** The summary-building code of `handle_prompt`, with its loop over the preview rows. */
  method ComposeSummary(summary: string, csv: string, sql: string, columns: seq<string>, preview: seq<seq<Value>>, truncated: bool)
    returns (text: string)
    ensures text == SummaryText(summary, csv, sql, columns, preview, truncated)
  {
    if summary != "" {
      text := Join([summary, SavedLine(csv)], "\n");
    } else {
      var lines := ["Query executed successfully.", SavedLine(csv), "", "SQL:", sql];
      var head := if |preview| > 5 then preview[..5] else preview;
      if columns != [] && head != [] {
        lines := lines + ["", "Preview:", Join(columns, ", ")];
        ghost var top := lines;
        var i := 0;
        while i < |head|
          invariant 0 <= i <= |head|
          invariant lines == top + seq(i, k requires 0 <= k < i => JoinValues(head[k], ", "))
        {
          lines := lines + [JoinValues(head[i], ", ")];
          i := i + 1;
        }
        if truncated {
          lines := lines + [TruncatedMarker];
        }
      }
      assert lines == FallbackLines(csv, sql, columns, preview, truncated);
      text := Join(lines, "\n");
    }
  }

  /** A summary from the model is kept and followed by the line naming the CSV file. */
  lemma SummaryKept(summary: string, csv: string, sql: string, columns: seq<string>, preview: seq<seq<Value>>, truncated: bool)
    requires summary != ""
    ensures SummaryText(summary, csv, sql, columns, preview, truncated) == summary + "\n" + SavedLine(csv)
  {
    var parts := [summary, SavedLine(csv)];
    assert parts[1..] == [SavedLine(csv)];
    assert Join(parts[1..], "\n") == SavedLine(csv);
    assert Join(parts, "\n") == summary + "\n" + Join(parts[1..], "\n");
  }

  /**
    The fallback summary: the success line, the CSV line, a blank line,
    `SQL:` and the query; then, only with columns and preview rows, a blank
    line, `Preview:`, the column names, up to five rows, and the truncation
    marker only when the result was truncated.
   */
  lemma FallbackLayout(csv: string, sql: string, columns: seq<string>, preview: seq<seq<Value>>, truncated: bool)
    ensures var lines := FallbackLines(csv, sql, columns, preview, truncated);
      && lines[..5] == ["Query executed successfully.", SavedLine(csv), "", "SQL:", sql]
      && (columns == [] || preview == [] ==> |lines| == 5)
      && (columns != [] && preview != [] ==>
            && |lines| == 8 + |PreviewHead(preview)| + (if truncated then 1 else 0)
            && lines[5..8] == ["", "Preview:", Join(columns, ", ")]
            && (forall k :: 0 <= k < |PreviewHead(preview)| ==> lines[8 + k] == JoinValues(preview[k], ", "))
            && (truncated ==> lines[|lines| - 1] == TruncatedMarker))
  {
    var head := PreviewHead(preview);
    var lines := FallbackLines(csv, sql, columns, preview, truncated);
    var top := ["Query executed successfully.", SavedLine(csv), "", "SQL:", sql];
    if columns != [] && head != [] {
      var rowLines := seq(|head|, i requires 0 <= i < |head| => JoinValues(head[i], ", "));
      var tail := if truncated then [TruncatedMarker] else [];
      assert lines == top + ["", "Preview:", Join(columns, ", ")] + rowLines + tail;
      forall k | 0 <= k < |head|
        ensures lines[8 + k] == JoinValues(preview[k], ", ")
      {
        assert head[k] == preview[k];
      }
    } else {
      assert lines == top;
    }
  }

  /** Either way the summary names the CSV file the results were saved to. */
  lemma SummaryNamesCsv(summary: string, csv: string, sql: string, columns: seq<string>, preview: seq<seq<Value>>, truncated: bool)
    ensures Contains(SummaryText(summary, csv, sql, columns, preview, truncated), SavedLine(csv))
  {
    if summary != "" {
      JoinContainsPart([summary, SavedLine(csv)], "\n", 1);
    } else {
      FallbackLayout(csv, sql, columns, preview, truncated);
      JoinContainsPart(FallbackLines(csv, sql, columns, preview, truncated), "\n", 1);
    }
  }

  // ---------------------------------------------------------------------
  // handle_prompt
  // ---------------------------------------------------------------------

  /** The dictionary `handle_prompt` returns. */
  datatype PromptResult = PromptResult(
    columns: seq<string>,
    previewRows: seq<seq<Value>>,
    truncated: bool,
    csvFilename: string,
    summary: string,
    visualization: Option<VizSummary>,
    sql: Json)

  /** `f"query_results_{uuid4().hex[:8]}.csv"`, with the eight hex digits given. */
  function CsvFilename(token: string): string {
    "query_results_" + token + ".csv"
  }

  const JoinFailure := "join"

  /**
    What `handle_prompt` does with the model's reply `content`: read it, run
    the query, present the result.  Without a summary the `sql` value is a
    line of the fallback text, so `"\n".join` raises `TypeError` unless it
    is a string.
   */
  function Present(content: string, parse: string -> Option<Json>, repr: Json -> string, url: Option<string>, registered: bool,
                   absPath: string -> string, fileExists: string -> bool,
                   runSql: (Option<SqlRunner>, Json) -> Result<QueryResult>, token: string): (r: Attempt<PromptResult>)
    ensures ReadPayload(content, parse).Raise? ==> r == Raise(ReadPayload(content, parse).error)
    ensures r.Ok? ==> ReadPayload(content, parse).Ok? && r.value.sql == ReadPayload(content, parse).value.sql
    ensures r.Ok? ==> r.value.csvFilename == CsvFilename(token) && |r.value.previewRows| <= 20
  {
    match ReadPayload(content, parse)
    case Raise(e) => Raise(e)
    case Ok(p) =>
      match RunQuery(p.sql, SqlText(p.sql, repr), url, registered, absPath, fileExists, runSql)
      case Raise(e) => Raise(e)
      case Ok(q) =>
        var csv := CsvFilename(token);
        var preview := PreviewRows(q.rows);
        match VisualizationFor(Get(p.fields, "visualization"), q)
        case Raise(e) => Raise(e)
        case Ok(viz) =>
          match SummaryField(p.fields)
          case Raise(e) => Raise(e)
          case Ok(s) =>
            if s == "" && !p.sql.JStr? then Raise(TypeError(JoinFailure))
            else Ok(PromptResult(q.columns, preview, Truncated(q.rows), csv,
                                 SummaryText(s, csv, SqlText(p.sql, repr), q.columns, preview, Truncated(q.rows)), viz, p.sql))
  }

  /**
    `handle_prompt(agent, request_context, prompt, database_url, chat_history)`:
    `llm` answers the message list with its reply text, `registered` says
    whether the registry holds a `run_sql` tool, `token` is the uuid's
    first eight hex digits and `repr` is `str()` of a list or an object.
   */
  method HandlePrompt(history: seq<map<string, string>>, prompt: string, llm: seq<Message> -> string,
                      parse: string -> Option<Json>, repr: Json -> string, databaseUrl: Option<string>, env: map<string, string>, registered: bool,
                      absPath: string -> string, fileExists: string -> bool,
                      runSql: (Option<SqlRunner>, Json) -> Result<QueryResult>, token: string)
    returns (r: Attempt<PromptResult>)
    ensures r == Present(llm(Messages(history, prompt)), parse, repr, DatabaseUrl(databaseUrl, env), registered, absPath, fileExists, runSql, token)
  {
    var messages := BuildMessages(history, prompt);
    var content := llm(messages);
    var read := ReadPayload(content, parse);
    if read.Raise? {
      return Raise(read.error);
    }
    var payload := read.value;
    var text := SqlText(payload.sql, repr);
    var ran := RunQuery(payload.sql, text, DatabaseUrl(databaseUrl, env), registered, absPath, fileExists, runSql);
    if ran.Raise? {
      return Raise(ran.error);
    }
    var result := ran.value;
    var csv := CsvFilename(token);
    var preview := PreviewRows(result.rows);
    var truncated := Truncated(result.rows);
    var viz := VisualizationFor(Get(payload.fields, "visualization"), result);
    if viz.Raise? {
      return Raise(viz.error);
    }
    var summaryField := SummaryField(payload.fields);
    if summaryField.Raise? {
      return Raise(summaryField.error);
    }
    if summaryField.value == "" && !payload.sql.JStr? {
      return Raise(TypeError(JoinFailure));
    }
    var summary := ComposeSummary(summaryField.value, csv, text, result.columns, preview, truncated);
    r := Ok(PromptResult(result.columns, preview, truncated, csv, summary, viz.value, payload.sql));
  }

  /**
    A response always carries the model's truthy `sql`, a preview of at
    most twenty rows, the CSV file name, a summary naming that file, and a
    visualization only of a type the agent draws; a `sql` that is not a
    string comes only with a summary of the model's own.
   */
  lemma ResponseShape(content: string, parse: string -> Option<Json>, repr: Json -> string, url: Option<string>, registered: bool,
                      absPath: string -> string, fileExists: string -> bool,
                      runSql: (Option<SqlRunner>, Json) -> Result<QueryResult>, token: string)
    ensures var r := Present(content, parse, repr, url, registered, absPath, fileExists, runSql, token);
      r.Ok? ==>
        && Truthy(r.value.sql) && Sized(r.value.sql)
        && (!r.value.sql.JStr? ==>
              && ReadPayload(content, parse).Ok? && SummaryField(ReadPayload(content, parse).value.fields).Ok?
              && SummaryField(ReadPayload(content, parse).value.fields).value != "")
        && |r.value.previewRows| <= PreviewLimit
        && (r.value.truncated ==> |r.value.previewRows| == PreviewLimit)
        && r.value.csvFilename == CsvFilename(token)
        && Contains(r.value.summary, SavedLine(CsvFilename(token)))
        && (r.value.visualization.Some? ==> r.value.visualization.value.chartType in ChartTypes)
  {
    var r := Present(content, parse, repr, url, registered, absPath, fileExists, runSql, token);
    if r.Ok? {
      var p := ReadPayload(content, parse).value;
      var q := RunQuery(p.sql, SqlText(p.sql, repr), url, registered, absPath, fileExists, runSql).value;
      var viz := VisualizationFor(Get(p.fields, "visualization"), q).value;
      var s := SummaryField(p.fields).value;
      var csv := CsvFilename(token);
      var preview := PreviewRows(q.rows);
      assert r.value == PromptResult(q.columns, preview, Truncated(q.rows), csv,
                                     SummaryText(s, csv, SqlText(p.sql, repr), q.columns, preview, Truncated(q.rows)), viz, p.sql);
      SummaryNamesCsv(s, csv, SqlText(p.sql, repr), q.columns, preview, Truncated(q.rows));
    }
  }

  /** A reply without a truthy `sql` fails before any query is run. */
  lemma NoSqlNoQuery(content: string, parse: string -> Option<Json>, repr: Json -> string, url: Option<string>, registered: bool,
                     absPath: string -> string, fileExists: string -> bool,
                     runSql: (Option<SqlRunner>, Json) -> Result<QueryResult>, token: string, fields: map<string, Json>)
    requires parse(CleanJson(content)) == Some(JObj(fields))
    requires !("sql" in fields && Truthy(fields["sql"]))
    ensures Present(content, parse, repr, url, registered, absPath, fileExists, runSql, token) == Raise(RuntimeError("Model response did not include 'sql'"))
  {
    NoSqlRaises(CleanJson(content), parse, fields);
  }

  /**
    A list or an object as `sql` is run like a query, and a failure carries
    its `str()` text; once the query has run, the response needs a summary
    of the model's own, for the fallback text cannot join it.
   */
  lemma CollectionSqlPath(content: string, parse: string -> Option<Json>, repr: Json -> string, url: Option<string>, registered: bool,
                          absPath: string -> string, fileExists: string -> bool,
                          runSql: (Option<SqlRunner>, Json) -> Result<QueryResult>, token: string, fields: map<string, Json>)
    requires parse(CleanJson(content)) == Some(JObj(fields))
    requires "sql" in fields && Truthy(fields["sql"]) && (fields["sql"].JArr? || fields["sql"].JObj?)
    ensures var q := RunQuery(fields["sql"], repr(fields["sql"]), url, registered, absPath, fileExists, runSql);
      q.Raise? ==> Present(content, parse, repr, url, registered, absPath, fileExists, runSql, token) == Raise(q.error)
    ensures var q := RunQuery(fields["sql"], repr(fields["sql"]), url, registered, absPath, fileExists, runSql);
      q.Ok? && VisualizationFor(Get(fields, "visualization"), q.value).Ok? && SummaryField(fields) == Ok("") ==>
        Present(content, parse, repr, url, registered, absPath, fileExists, runSql, token) == Raise(TypeError(JoinFailure))
  {
    SqlValueKinds(CleanJson(content), parse, fields);
  }
}
