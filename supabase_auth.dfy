/**
  Supabase authentication: the configuration read from the environment,
  the `bearer ` prefix, the normalisation of a group claim into a list of
  group names, and `SupabaseUserResolver.resolve_user`, which picks the
  tokens from a request, asks Supabase for the user and reads its groups
  from the user metadata.  The Supabase client is a function parameter.
 */
module SupabaseAuth {
  import opened Wrappers
  import opened PyStr
  import opened JsonValue
  import opened Core

  // ---------------------------------------------------------------------
  // Configuration
  // ---------------------------------------------------------------------

  datatype SupabaseConfig = SupabaseConfig(url: string, anonKey: string, serviceRoleKey: Option<string>)

  const ConfigError := "SUPABASE_URL and SUPABASE_ANON_KEY must be configured"
  const AdminKeyError := "SUPABASE_SERVICE_ROLE_KEY must be set for admin access"

  /** `_load_config()`: the URL and the anonymous key must both be set and non-empty. */
  function LoadConfig(env: map<string, string>): (r: Result<SupabaseConfig>)
    ensures r.Failure? <==> Env(env, "SUPABASE_URL") in {None, Some("")} || Env(env, "SUPABASE_ANON_KEY") in {None, Some("")}
    ensures r.Failure? ==> r.error == ConfigError
    ensures r.Success? ==> (r.value.url == env["SUPABASE_URL"] && r.value.anonKey == env["SUPABASE_ANON_KEY"]
      && r.value.serviceRoleKey == Env(env, "SUPABASE_SERVICE_ROLE_KEY"))
  {
    var url := Env(env, "SUPABASE_URL");
    var anonKey := Env(env, "SUPABASE_ANON_KEY");
    if url.None? || url.value == "" || anonKey.None? || anonKey.value == "" then Failure(ConfigError)
    else Success(SupabaseConfig(url.value, anonKey.value, Env(env, "SUPABASE_SERVICE_ROLE_KEY")))
  }

  /** `build_supabase_client()`: the client is created from the URL and the anonymous key. */
  function ClientCredentials(env: map<string, string>): (r: Result<(string, string)>)
    ensures r.Success? <==> LoadConfig(env).Success?
    ensures r.Success? ==> r.value == (LoadConfig(env).value.url, LoadConfig(env).value.anonKey)
  {
    var config :- LoadConfig(env);
    Success((config.url, config.anonKey))
  }

  /** `get_supabase_admin_client()`: the client is created from the URL and the service-role key, which must be set. */
  function AdminCredentials(env: map<string, string>): (r: Result<(string, string)>)
    ensures LoadConfig(env).Failure? ==> r == Failure(ConfigError)
    ensures LoadConfig(env).Success? ==> (r.Failure? <==> LoadConfig(env).value.serviceRoleKey in {None, Some("")})
    ensures r.Failure? && LoadConfig(env).Success? ==> r.error == AdminKeyError
    ensures r.Success? ==> r.value == (env["SUPABASE_URL"], env["SUPABASE_SERVICE_ROLE_KEY"])
  {
    var config :- LoadConfig(env);
    if config.serviceRoleKey.None? || config.serviceRoleKey.value == "" then Failure(AdminKeyError)
    else Success((config.url, config.serviceRoleKey.value))
  }

  // ---------------------------------------------------------------------
  // The bearer prefix
  // ---------------------------------------------------------------------

  const BearerPrefix := "bearer "

  /** `_strip_bearer`: one leading `bearer `, in any letter case, is removed. */
  function StripBearer(token: string): (r: string)
    ensures |r| == |token| || |r| + |BearerPrefix| == |token|
    ensures r == token[|token| - |r|..]
  {
    if StartsWith(Lower(token), BearerPrefix) then token[|BearerPrefix|..] else token
  }

  /** Whatever the case of the prefix, exactly one is removed, even when the rest starts with another. */
  lemma StripBearerOnce(prefix: string, rest: string)
    requires Lower(prefix) == BearerPrefix
    ensures StripBearer(prefix + rest) == rest
  {
    var t := prefix + rest;
    assert Lower(t)[..|BearerPrefix|] == Lower(prefix);
    assert t[|prefix|..] == rest;
  }

  /** A token without the prefix is passed on untouched, so stripping it again changes nothing either. */
  lemma StripBearerKeeps(token: string)
    requires !StartsWith(Lower(token), BearerPrefix)
    ensures StripBearer(token) == token
    ensures StripBearer(StripBearer(token)) == token
  {
  }

  // ---------------------------------------------------------------------
  // Group claims
  // ---------------------------------------------------------------------

  /**
    `str(value)` for a claim element: a string is itself, a number its
    decimal form, a boolean `True`/`False`; lists and dicts are printed by
    `repr`.
   */
  function StrOf(v: Json, repr: Json -> string): (r: string)
    ensures v.JStr? ==> r == v.s
    ensures v.JBool? ==> r == (if v.b then "True" else "False")
    ensures v.JNum? ==> r == IntToString(v.n)
  {
    match v
    case JStr(s) => s
    case JBool(b) => if b then "True" else "False"
    case JNum(n) => IntToString(n)
    case _ => repr(v)
  }

  /** `[str(v) for v in items if v]`. */
  function TruthyStrings(items: seq<Json>, repr: Json -> string): (r: seq<string>)
    ensures |r| <= |items|
    ensures forall g :: g in r ==> exists i :: 0 <= i < |items| && Truthy(items[i]) && g == StrOf(items[i], repr)
    ensures forall i :: 0 <= i < |items| && Truthy(items[i]) ==> StrOf(items[i], repr) in r
    ensures r == [] <==> forall i :: 0 <= i < |items| ==> !Truthy(items[i])
  {
    if items == [] then []
    else
      var init := items[..|items| - 1];
      var last := items[|items| - 1];
      var head := TruthyStrings(init, repr);
      assert forall i :: 0 <= i < |init| ==> init[i] == items[i];
      if Truthy(last) then head + [StrOf(last, repr)] else head
  }

  /** A dict claim iterates over its keys, in the dict's insertion order, which `keyOrder` gives. */
  function KeyItems(fields: map<string, Json>, keyOrder: map<string, Json> -> seq<string>): seq<Json> {
    var keys := keyOrder(fields);
    seq(|keys|, i requires 0 <= i < |keys| => JStr(keys[i]))
  }

  /** `_normalize_groups(raw_groups, fallback)`. */
  function NormalizedGroups(raw: Json, fallback: seq<string>, keyOrder: map<string, Json> -> seq<string>, repr: Json -> string): (r: seq<string>)
    ensures fallback != [] ==> r != []
    ensures raw.JNull? || raw.JNum? || raw.JBool? ==> r == fallback
    ensures raw.JStr? ==> r == [raw.s]
  {
    match raw
    case JNull => fallback
    case JStr(s) => [s]
    case JArr(items) =>
      var g := TruthyStrings(items, repr);
      if g == [] then fallback else g
    case JObj(fields) =>
      var g := TruthyStrings(KeyItems(fields, keyOrder), repr);
      if g == [] then fallback else g
    case _ => fallback
  }

  /** The loop of `_normalize_groups` over a list or a dict's keys. */
  method NormalizeGroups(raw: Json, fallback: seq<string>, keyOrder: map<string, Json> -> seq<string>, repr: Json -> string) returns (groups: seq<string>)
    ensures groups == NormalizedGroups(raw, fallback, keyOrder, repr)
  {
    if raw.JNull? {
      return fallback;
    }
    if raw.JStr? {
      return [raw.s];
    }
    if !raw.JArr? && !raw.JObj? {
      return fallback;
    }
    var items := if raw.JArr? then raw.items else KeyItems(raw.fields, keyOrder);
    groups := [];
    var i := 0;
    while i < |items|
      invariant 0 <= i <= |items|
      invariant groups == TruthyStrings(items[..i], repr)
    {
      assert items[..i + 1][..i] == items[..i];
      if Truthy(items[i]) {
        groups := groups + [StrOf(items[i], repr)];
      }
      i := i + 1;
    }
    assert items[..i] == items;
    if groups == [] {
      groups := fallback;
    }
  }

  /** `None` and values that are neither strings nor iterable give the fallback; a string, even empty, is one group. */
  lemma ScalarClaims(s: string, fallback: seq<string>, keyOrder: map<string, Json> -> seq<string>, repr: Json -> string)
    ensures NormalizedGroups(JNull, fallback, keyOrder, repr) == fallback
    ensures forall b :: NormalizedGroups(JBool(b), fallback, keyOrder, repr) == fallback
    ensures forall n :: NormalizedGroups(JNum(n), fallback, keyOrder, repr) == fallback
    ensures NormalizedGroups(JStr(s), fallback, keyOrder, repr) == [s]
  {
  }

  /** An iterable claim with no truthy element gives the fallback. */
  lemma FalsyItemsFallBack(items: seq<Json>, fallback: seq<string>, keyOrder: map<string, Json> -> seq<string>, repr: Json -> string)
    requires forall i :: 0 <= i < |items| ==> !Truthy(items[i])
    ensures NormalizedGroups(JArr(items), fallback, keyOrder, repr) == fallback
  {
  }

  /** A non-empty fallback always yields at least one group: a claim never empties the list. */
  lemma NormalizedNeverEmpty(raw: Json, fallback: seq<string>, keyOrder: map<string, Json> -> seq<string>, repr: Json -> string)
    requires fallback != []
    ensures NormalizedGroups(raw, fallback, keyOrder, repr) != []
  {
  }

  /** A list claim keeps its truthy elements as strings, in order, dropping the falsy ones. */
  lemma {:induction false} ListClaimKeepsOrder(items: seq<Json>, fallback: seq<string>, keyOrder: map<string, Json> -> seq<string>, repr: Json -> string)
    requires forall i :: 0 <= i < |items| ==> items[i].JStr?
    requires exists i :: 0 <= i < |items| && Truthy(items[i])
    ensures NormalizedGroups(JArr(items), fallback, keyOrder, repr) == NonEmpty(seq(|items|, i requires 0 <= i < |items| => items[i].s))
  {
    StringItems(items, repr);
  }

  lemma {:induction false} StringItems(items: seq<Json>, repr: Json -> string)
    requires forall i :: 0 <= i < |items| ==> items[i].JStr?
    ensures TruthyStrings(items, repr) == NonEmpty(seq(|items|, i requires 0 <= i < |items| => items[i].s))
  {
    if items != [] {
      var init := items[..|items| - 1];
      var last := items[|items| - 1];
      StringItems(init, repr);
      TextsSnoc(items);
      TruthyStringsSnoc(items, repr);
      NonEmptyAppend(seq(|init|, i requires 0 <= i < |init| => init[i].s), last.s);
    }
  }

  lemma TextsSnoc(items: seq<Json>)
    requires items != [] && forall i :: 0 <= i < |items| ==> items[i].JStr?
    ensures var init := items[..|items| - 1];
      seq(|items|, i requires 0 <= i < |items| => items[i].s)
      == seq(|init|, i requires 0 <= i < |init| => init[i].s) + [items[|items| - 1].s]
  {
  }

  lemma TruthyStringsSnoc(items: seq<Json>, repr: Json -> string)
    requires items != [] && items[|items| - 1].JStr?
    ensures TruthyStrings(items, repr)
         == TruthyStrings(items[..|items| - 1], repr) + (if items[|items| - 1].s != "" then [items[|items| - 1].s] else [])
  {
  }

  lemma NonEmptyAppend(lines: seq<string>, x: string)
    ensures NonEmpty(lines + [x]) == NonEmpty(lines) + (if x != "" then [x] else [])
  {
    NonEmptyConcat(lines, [x]);
  }

  // ---------------------------------------------------------------------
  // Metadata groups
  // ---------------------------------------------------------------------

  /** `metadata.get(key)`, `None` for a missing key. */
  function GetOrNull(d: map<string, Json>, key: string): Json {
    if key in d then d[key] else JNull
  }

  /** Python's `a or b`: `a` when it is truthy, else `b`, whatever `b` is. */
  function Or(a: Json, b: Json): (r: Json)
    ensures Truthy(a) ==> r == a
    ensures !Truthy(a) ==> r == b
  {
    if Truthy(a) then a else b
  }

  /** The metadata keys read for groups, after the configured claim. */
  const MetadataKeys := ["groups", "roles", "permissions"]

  /** The value the `or` chain of `_extract_metadata_groups` selects. */
  function GroupCandidates(metadata: map<string, Json>, claim: string): Json {
    Or(GetOrNull(metadata, claim), Or(GetOrNull(metadata, "groups"), Or(GetOrNull(metadata, "roles"), GetOrNull(metadata, "permissions"))))
  }

  /** `_extract_metadata_groups(metadata, group_claim, fallback)`. */
  function ExtractMetadataGroups(metadata: map<string, Json>, claim: string, fallback: seq<string>,
                                 keyOrder: map<string, Json> -> seq<string>, repr: Json -> string): (r: seq<string>)
    ensures metadata == map[] ==> r == fallback
  {
    if metadata == map[] then fallback
    else NormalizedGroups(GroupCandidates(metadata, claim), fallback, keyOrder, repr)
  }

  /**
    The chain picks the first truthy value among the claim, `groups`,
    `roles` and `permissions`; when none is truthy it yields whatever
    `permissions` holds.
   */
  lemma CandidatesFirstTruthy(metadata: map<string, Json>, claim: string)
    ensures FirstTruthy(metadata, [claim] + MetadataKeys).Some? ==>
      GroupCandidates(metadata, claim) == FirstTruthy(metadata, [claim] + MetadataKeys).value
    ensures FirstTruthy(metadata, [claim] + MetadataKeys).None? ==>
      GroupCandidates(metadata, claim) == GetOrNull(metadata, "permissions") && !Truthy(GroupCandidates(metadata, claim))
  {
    var keys := [claim] + MetadataKeys;
    var i := FirstTruthyKey(metadata, keys);
    assert keys[1..] == MetadataKeys && keys[1..][1..] == ["roles", "permissions"];
    assert i == 0 ==> Truthy(GetOrNull(metadata, claim));
    assert i > 0 ==> !Truthy(GetOrNull(metadata, claim)) by {
      if i > 0 {
        assert !(keys[0] in metadata && Truthy(metadata[keys[0]]));
      }
    }
    assert i > 1 ==> !Truthy(GetOrNull(metadata, "groups")) by {
      if i > 1 {
        assert !(keys[1] in metadata && Truthy(metadata[keys[1]]));
      }
    }
    assert i > 2 ==> !Truthy(GetOrNull(metadata, "roles")) by {
      if i > 2 {
        assert !(keys[2] in metadata && Truthy(metadata[keys[2]]));
      }
    }
    assert i > 3 ==> !Truthy(GetOrNull(metadata, "permissions")) by {
      if i > 3 {
        assert !(keys[3] in metadata && Truthy(metadata[keys[3]]));
      }
    }
  }

  /** The groups come from the first truthy of the four keys. */
  lemma MetadataGroupsFirstMatch(metadata: map<string, Json>, claim: string, fallback: seq<string>,
                                 keyOrder: map<string, Json> -> seq<string>, repr: Json -> string)
    requires FirstTruthy(metadata, [claim] + MetadataKeys).Some?
    ensures ExtractMetadataGroups(metadata, claim, fallback, keyOrder, repr)
      == NormalizedGroups(FirstTruthy(metadata, [claim] + MetadataKeys).value, fallback, keyOrder, repr)
  {
    CandidatesFirstTruthy(metadata, claim);
  }

  /**
    An empty-string `permissions` with no truthy key before it does not
    fall back to the defaults: a string claim, even empty, becomes a
    one-element list.
   */
  lemma EmptyPermissionsGroup(fallback: seq<string>, keyOrder: map<string, Json> -> seq<string>, repr: Json -> string)
    ensures ExtractMetadataGroups(map["permissions" := JStr("")], "roles", fallback, keyOrder, repr) == [""]
  {
    var m := map["permissions" := JStr("")];
    assert "roles" !in m && "groups" !in m by {
      assert "roles" != "permissions" && "groups" != "permissions";
    }
    assert GroupCandidates(m, "roles") == JStr("");
  }

  // ---------------------------------------------------------------------
  // The resolver
  // ---------------------------------------------------------------------

  /** `SupabaseUserResolver`: the group claim and the default groups fixed at construction. */
  datatype SupabaseUserResolver = SupabaseUserResolver(config: SupabaseConfig, groupClaim: string, defaultGroups: seq<string>)

  /** `group_claim or os.getenv("QWERY_SUPABASE_GROUP_CLAIM", "roles")`. */
  function GroupClaim(groupClaim: Option<string>, env: map<string, string>): (r: string)
    ensures groupClaim.Some? && groupClaim.value != "" ==> r == groupClaim.value
    ensures (groupClaim.None? || groupClaim.value == "") ==> r == EnvOr(env, "QWERY_SUPABASE_GROUP_CLAIM", "roles")
  {
    if groupClaim.Some? && groupClaim.value != "" then groupClaim.value else EnvOr(env, "QWERY_SUPABASE_GROUP_CLAIM", "roles")
  }

  /** The explicit default groups, else the comma-separated `QWERY_DEFAULT_GROUPS` (default `read_data`), stripped, empties dropped. */
  function DefaultGroups(defaultGroups: Option<seq<string>>, env: map<string, string>): (r: seq<string>)
    ensures defaultGroups.Some? ==> r == defaultGroups.value
    ensures defaultGroups.None? ==> forall g :: g in r <==> g != "" && g in StripEach(Split(EnvOr(env, "QWERY_DEFAULT_GROUPS", "read_data"), ','))
  {
    if defaultGroups.Some? then defaultGroups.value else StripAll(Split(EnvOr(env, "QWERY_DEFAULT_GROUPS", "read_data"), ','))
  }

  /** Without the variable, the default groups are `read_data` alone. */
  lemma DefaultGroupsUnset(env: map<string, string>)
    requires "QWERY_DEFAULT_GROUPS" !in env
    ensures DefaultGroups(None, env) == ["read_data"]
  {
    var s := "read_data";
    assert ',' !in s;
    SplitNoSep(s, ',');
    StripOfStripped(s);
  }

  /** `SupabaseUserResolver(...)`: construction reads the configuration and fails with it. */
  function NewResolver(env: map<string, string>, groupClaim: Option<string>, defaultGroups: Option<seq<string>>): (r: Result<SupabaseUserResolver>)
    ensures r.Failure? <==> LoadConfig(env).Failure?
    ensures r.Success? ==> r.value.groupClaim == GroupClaim(groupClaim, env) && r.value.defaultGroups == DefaultGroups(defaultGroups, env)
  {
    var config :- LoadConfig(env);
    Success(SupabaseUserResolver(config, GroupClaim(groupClaim, env), DefaultGroups(defaultGroups, env)))
  }

  /** What `client.auth.get_user()` answers, after `set_session`: a response carrying a user object, or an exception. */
  datatype AuthResponse = Raised(message: string) | Answered(user: Json)

  /** `request_context.get_header("authorization") or request_context.get_cookie("sb-access-token")`. */
  function AccessToken(ctx: RequestContext): (r: Option<string>)
    ensures GetHeader(ctx, "authorization").Some? && GetHeader(ctx, "authorization").value != "" ==> r == GetHeader(ctx, "authorization")
    ensures GetHeader(ctx, "authorization").None? || GetHeader(ctx, "authorization").value == "" ==> r == GetCookie(ctx, "sb-access-token")
  {
    OrElse(GetHeader(ctx, "authorization"), GetCookie(ctx, "sb-access-token"))
  }

  /** `request_context.get_header("x-refresh-token") or request_context.get_cookie("sb-refresh-token")`. */
  function RefreshToken(ctx: RequestContext): (r: Option<string>)
    ensures GetHeader(ctx, "x-refresh-token").Some? && GetHeader(ctx, "x-refresh-token").value != "" ==> r == GetHeader(ctx, "x-refresh-token")
    ensures GetHeader(ctx, "x-refresh-token").None? || GetHeader(ctx, "x-refresh-token").value == "" ==> r == GetCookie(ctx, "sb-refresh-token")
  {
    OrElse(GetHeader(ctx, "x-refresh-token"), GetCookie(ctx, "sb-refresh-token"))
  }

  const MissingTokenError := "Missing Supabase access token"
  const UserNotFoundError := "Supabase session user not found"
  const MissingIdError := "Supabase user is missing an id"
  const ResolveErrorPrefix := "Failed to resolve Supabase user: "

  /** `user_metadata`, `{}` when it is absent, falsy or not a dict. */
  function Metadata(user: map<string, Json>): map<string, Json> {
    var m := GetOrNull(user, "user_metadata");
    if m.JObj? then m.fields else map[]
  }

  /** `resolve_user(request_context)`, with `auth` standing for the client's `set_session` and `get_user`. */
  function ResolveUser(resolver: SupabaseUserResolver, ctx: RequestContext, auth: (string, Option<string>) -> AuthResponse,
                       keyOrder: map<string, Json> -> seq<string>, repr: Json -> string): (r: Result<User>)
    ensures AccessToken(ctx) in {None, Some("")} ==> r == Failure(MissingTokenError)
    ensures AccessToken(ctx) !in {None, Some("")} ==>
      var response := auth(StripBearer(AccessToken(ctx).value), RefreshToken(ctx));
      && (response.Raised? ==> r == Failure(ResolveErrorPrefix + response.message))
      && (response.Answered? && !Truthy(response.user) ==> r == Failure(UserNotFoundError))
      && (response.Answered? && Truthy(response.user) && !(response.user.JObj? && Truthy(GetOrNull(response.user.fields, "id"))) ==> r == Failure(MissingIdError))
      && (r.Success? ==> (response.Answered? && response.user.JObj?
            && r.value.id == StrOf(response.user.fields["id"], repr)
            && r.value.groupMemberships == ExtractMetadataGroups(Metadata(response.user.fields), resolver.groupClaim, resolver.defaultGroups, keyOrder, repr)))
  {
    var access := AccessToken(ctx);
    if access.None? || access.value == "" then Failure(MissingTokenError)
    else
      match auth(StripBearer(access.value), RefreshToken(ctx))
      case Raised(message) => Failure(ResolveErrorPrefix + message)
      case Answered(user) =>
        if !Truthy(user) then Failure(UserNotFoundError)
        else if !user.JObj? || !Truthy(GetOrNull(user.fields, "id")) then Failure(MissingIdError)
        else
          var groups := ExtractMetadataGroups(Metadata(user.fields), resolver.groupClaim, resolver.defaultGroups, keyOrder, repr);
          Success(User(StrOf(user.fields["id"], repr), groups))
  }

  /** The header wins over the cookie, and a `bearer ` header reaches Supabase without its prefix. */
  lemma HeaderTokenPreferred(ctx: RequestContext, prefix: string, token: string)
    requires Lower(prefix) == BearerPrefix
    requires GetHeader(ctx, "authorization") == Some(prefix + token)
    ensures AccessToken(ctx) == Some(prefix + token)
    ensures StripBearer(AccessToken(ctx).value) == token
  {
    StripBearerOnce(prefix, token);
  }

  /** Without the header, or with it empty, the cookie is used. */
  lemma CookieTokenFallback(ctx: RequestContext)
    requires GetHeader(ctx, "authorization") in {None, Some("")}
    ensures AccessToken(ctx) == GetCookie(ctx, "sb-access-token")
  {
  }

  /**
    A resolved user whose id is a string, a number or a boolean has a
    non-empty id (the id is truthy, and `str` of such a value is never
    empty); with non-empty defaults it belongs to at least one group.
   */
  lemma ResolvedUserShape(resolver: SupabaseUserResolver, ctx: RequestContext, auth: (string, Option<string>) -> AuthResponse,
                          keyOrder: map<string, Json> -> seq<string>, repr: Json -> string)
    requires resolver.defaultGroups != []
    requires ResolveUser(resolver, ctx, auth, keyOrder, repr).Success?
    ensures var id := auth(StripBearer(AccessToken(ctx).value), RefreshToken(ctx)).user.fields["id"];
      (id.JStr? || id.JNum? || id.JBool?) ==> ResolveUser(resolver, ctx, auth, keyOrder, repr).value.id != ""
    ensures ResolveUser(resolver, ctx, auth, keyOrder, repr).value.groupMemberships != []
  {
    var response := auth(StripBearer(AccessToken(ctx).value), RefreshToken(ctx));
    var user := response.user.fields;
    var metadata := Metadata(user);
    if metadata != map[] {
      NormalizedNeverEmpty(GroupCandidates(metadata, resolver.groupClaim), resolver.defaultGroups, keyOrder, repr);
    }
  }
}
