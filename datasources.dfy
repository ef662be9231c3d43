/**
  The in-memory datasource table: records indexed by id in one dictionary
  and, per project, the set of their ids in a second one; the slug derived
  from a name; and the connection URL read out of a record's
  configuration.
 */
module Datasources {
  import opened Wrappers
  import opened PyStr
  import opened JsonValue

  // ---------------------------------------------------------------------
  // Slugs
  // ---------------------------------------------------------------------

  /** `ch.isalnum()`, restricted to ASCII. */
  predicate IsAlnum(c: char) {
    ('a' <= c <= 'z') || ('A' <= c <= 'Z') || ('0' <= c <= '9')
  }

  /** `"".join(ch if ch.isalnum() else "-" for ch in value.lower())`. */
  function Dashed(s: string): (r: string)
    ensures |r| == |s|
    ensures forall i :: 0 <= i < |s| ==> r[i] == (if IsAlnum(Lower(s)[i]) then Lower(s)[i] else '-')
  {
    var low := Lower(s);
    seq(|low|, i requires 0 <= i < |low| => if IsAlnum(low[i]) then low[i] else '-')
  }

  /** `_slugify(value)`. */
  function Slugify(value: string): (r: string)
    ensures r == "" <==> value == ""
  {
    var slug := Join(NonEmpty(Split(Dashed(value), '-')), "-");
    if slug != "" then slug else Lower(value)
  }

  /** A slug proper: lowercase letters and digits in runs separated by single dashes, none at either end. */
  predicate SlugShaped(s: string) {
    && s != ""
    && s[0] != '-' && s[|s| - 1] != '-'
    && (forall i :: 0 <= i < |s| ==> (IsAlnum(s[i]) && !('A' <= s[i] <= 'Z')) || s[i] == '-')
    && (forall i :: 0 <= i < |s| - 1 ==> !(s[i] == '-' && s[i + 1] == '-'))
  }

  predicate LowerAlnum(s: string) {
    forall i :: 0 <= i < |s| ==> IsAlnum(s[i]) && !('A' <= s[i] <= 'Z')
  }

  /** Joining non-empty lowercase alphanumeric runs with single dashes gives a slug. */
  lemma {:induction false} JoinShaped(parts: seq<string>)
    requires parts != []
    requires forall k :: 0 <= k < |parts| ==> parts[k] != "" && LowerAlnum(parts[k])
    ensures SlugShaped(Join(parts, "-"))
  {
    if |parts| > 1 {
      JoinShaped(parts[1..]);
      var rest := Join(parts[1..], "-");
      var s := Join(parts, "-");
      assert s == parts[0] + "-" + rest;
      var n := |parts[0]|;
      forall i | 0 <= i < |s|
        ensures (IsAlnum(s[i]) && !('A' <= s[i] <= 'Z')) || s[i] == '-'
      {
        if i < n {
          assert s[i] == parts[0][i];
        } else if i > n {
          assert s[i] == rest[i - n - 1];
        }
      }
      forall i | 0 <= i < |s| - 1
        ensures !(s[i] == '-' && s[i + 1] == '-')
      {
        if i < n - 1 {
          assert s[i] == parts[0][i];
        } else if i == n - 1 {
          assert s[i] == parts[0][n - 1];
        } else if i == n {
          assert s[i + 1] == rest[0];
        } else {
          assert s[i] == rest[i - n - 1] && s[i + 1] == rest[i - n];
        }
      }
      assert s[|s| - 1] == rest[|rest| - 1];
    }
  }

  /** The pieces of the dashed name are runs of lowercase letters and digits. */
  lemma DashedPieces(value: string)
    ensures forall k :: 0 <= k < |NonEmpty(Split(Dashed(value), '-'))| ==>
      NonEmpty(Split(Dashed(value), '-'))[k] != "" && LowerAlnum(NonEmpty(Split(Dashed(value), '-'))[k])
  {
    var d := Dashed(value);
    assert forall i :: 0 <= i < |d| ==> d[i] == '-' || LowerAlnum([d[i]]);
    SplitPiecesFrom(d);
  }

  lemma {:induction false} SplitPiecesFrom(d: string)
    requires forall i :: 0 <= i < |d| ==> d[i] == '-' || LowerAlnum([d[i]])
    ensures forall k :: 0 <= k < |Split(d, '-')| ==> LowerAlnum(Split(d, '-')[k])
    ensures forall k :: 0 <= k < |NonEmpty(Split(d, '-'))| ==> NonEmpty(Split(d, '-'))[k] != "" && LowerAlnum(NonEmpty(Split(d, '-'))[k])
  {
    if d != [] {
      SplitPiecesFrom(d[1..]);
      var rest := Split(d[1..], '-');
      if d[0] != '-' {
        assert LowerAlnum([d[0]]);
        assert LowerAlnum([d[0]] + rest[0]) by {
          assert forall i :: 1 <= i < |[d[0]] + rest[0]| ==> ([d[0]] + rest[0])[i] == rest[0][i - 1];
        }
      }
    }
    var parts := Split(d, '-');
    forall k | 0 <= k < |NonEmpty(parts)|
      ensures LowerAlnum(NonEmpty(parts)[k])
    {
      assert NonEmpty(parts)[k] in parts;
    }
  }

  /**
    `_slugify` yields a slug proper whenever the name holds a letter or a
    digit, and otherwise the lowercased name.
   */
  lemma SlugifyShape(value: string)
    ensures (exists i :: 0 <= i < |value| && IsAlnum(Lower(value)[i])) ==> SlugShaped(Slugify(value))
    ensures (forall i :: 0 <= i < |value| ==> !IsAlnum(Lower(value)[i])) ==> Slugify(value) == Lower(value)
  {
    var d := Dashed(value);
    var parts := NonEmpty(Split(d, '-'));
    DashedPieces(value);
    if exists i :: 0 <= i < |value| && IsAlnum(Lower(value)[i]) {
      var i :| 0 <= i < |value| && IsAlnum(Lower(value)[i]);
      assert parts != [] by {
        JoinSplit(d, '-');
        if parts == [] {
          AllEmptyJoin(Split(d, '-'), "-");
          assert false;
        }
      }
      JoinShaped(parts);
    } else {
      assert forall i :: 0 <= i < |d| ==> d[i] == '-';
      NoPieces(d);
    }
  }

  /** Only dashes leave no piece. */
  lemma {:induction false} NoPieces(d: string)
    requires forall i :: 0 <= i < |d| ==> d[i] == '-'
    ensures NonEmpty(Split(d, '-')) == []
  {
    if d != [] {
      NoPieces(d[1..]);
      assert Split(d, '-') == [""] + Split(d[1..], '-');
    }
  }

  /** When every piece is empty, the pieces join to separators only. */
  lemma {:induction false} AllEmptyJoin(parts: seq<string>, sep: string)
    requires NonEmpty(parts) == []
    requires sep == "-"
    ensures forall i :: 0 <= i < |Join(parts, sep)| ==> Join(parts, sep)[i] == '-'
  {
    if |parts| > 1 {
      AllEmptyJoin(parts[1..], sep);
    }
  }

  /** A slug proper splits on dashes into non-empty pieces only. */
  lemma {:induction false} ShapedPieces(s: string)
    requires s != [] && s[|s| - 1] != '-'
    requires forall i :: 0 <= i < |s| - 1 ==> !(s[i] == '-' && s[i + 1] == '-')
    ensures forall k :: 1 <= k < |Split(s, '-')| ==> Split(s, '-')[k] != ""
    ensures Split(s, '-')[0] == "" <==> s[0] == '-'
  {
    var t := s[1..];
    if t != [] {
      ShapedPieces(t);
      if s[0] == '-' {
        assert t[0] == s[1];
      }
    }
  }

  lemma {:induction false} NonEmptyOfNonEmpty(parts: seq<string>)
    requires forall k :: 0 <= k < |parts| ==> parts[k] != ""
    ensures NonEmpty(parts) == parts
  {
    if parts != [] {
      NonEmptyOfNonEmpty(parts[1..]);
    }
  }

  /** Slugifying a slug gives it back. */
  lemma SlugifyIdempotent(s: string)
    requires SlugShaped(s)
    ensures Slugify(s) == s
  {
    assert Lower(s) == s;
    assert Dashed(s) == s;
    ShapedPieces(s);
    NonEmptyOfNonEmpty(Split(s, '-'));
    JoinSplit(s, '-');
  }

  // ---------------------------------------------------------------------
  // Connection URLs
  // ---------------------------------------------------------------------

  /** The configuration keys that may hold a connection URL, most preferred first. */
  const PreferredKeys := ["connection_url", "connectionUrl", "connection_string", "connectionString",
                          "database_url", "databaseUrl", "url", "dsn"]

  predicate HoldsUrl(config: map<string, Json>, key: string) {
    key in config && config[key].JStr? && config[key].s != ""
  }

  /** The position of the first key holding a non-empty string, `|keys|` when none does. */
  function FirstUrlKey(config: map<string, Json>, keys: seq<string>): (i: nat)
    ensures i <= |keys|
    ensures i < |keys| ==> HoldsUrl(config, keys[i])
    ensures forall j :: 0 <= j < i ==> !HoldsUrl(config, keys[j])
  {
    if keys == [] then 0
    else if HoldsUrl(config, keys[0]) then 0
    else 1 + FirstUrlKey(config, keys[1..])
  }

  /** `_extract_connection_url(config)`. */
  function ExtractConnectionUrl(config: Json): (r: Option<string>)
    ensures config.JStr? ==> r == Some(config.s)
    ensures !config.JStr? && !config.JObj? ==> r.None?
    ensures config.JObj? ==> (r.None? <==> forall j :: 0 <= j < |PreferredKeys| ==> !HoldsUrl(config.fields, PreferredKeys[j]))
    ensures config.JObj? && r.Some? ==> exists i :: (0 <= i < |PreferredKeys| && HoldsUrl(config.fields, PreferredKeys[i])
      && r.value == config.fields[PreferredKeys[i]].s && forall j :: 0 <= j < i ==> !HoldsUrl(config.fields, PreferredKeys[j]))
  {
    match config
    case JStr(s) => Some(s)
    case JObj(fields) =>
      var i := FirstUrlKey(fields, PreferredKeys);
      if i < |PreferredKeys| then Some(fields[PreferredKeys[i]].s) else None
    case _ => None
  }

  // ---------------------------------------------------------------------
  // Records and the store
  // ---------------------------------------------------------------------

  /** `DatasourceRecord`; the fields `upsert` never assigns are constants. */
  class DatasourceRecord {
    const id: string
    const projectId: string
    const createdBy: string
    const createdAt: int
    var name: string
    var description: string
    var slug: string
    var provider: string
    var driver: string
    var kind: string
    var config: Json
    var updatedBy: string
    var updatedAt: int

    constructor (id: string, projectId: string, name: string, description: string, slug: string,
                 provider: string, driver: string, kind: string, config: Json,
                 createdBy: string, updatedBy: string, now: int)
      ensures this.id == id && this.projectId == projectId && this.createdBy == createdBy && this.createdAt == now
      ensures this.name == name && this.description == description && this.slug == slug
      ensures this.provider == provider && this.driver == driver && this.kind == kind && this.config == config
      ensures this.updatedBy == updatedBy && this.updatedAt == now
    {
      this.id := id;
      this.projectId := projectId;
      this.createdBy := createdBy;
      this.createdAt := now;
      this.name := name;
      this.description := description;
      this.slug := slug;
      this.provider := provider;
      this.driver := driver;
      this.kind := kind;
      this.config := config;
      this.updatedBy := updatedBy;
      this.updatedAt := now;
    }
  }

  /** A non-empty optional string, as `if value:` reads it. */
  predicate Given(s: Option<string>) {
    s.Some? && s.value != ""
  }

  class DatasourceStore {
    var items: map<string, DatasourceRecord>
    var byProject: map<string, set<string>>

    /** Each record is stored under its own id, and a project indexes exactly its records' ids. */
    ghost predicate Valid()
      reads this
    {
      && (forall id :: id in items ==> items[id].id == id)
      && (forall p, id :: p in byProject && id in byProject[p] ==> id in items && items[id].projectId == p)
      && (forall id :: id in items ==> items[id].projectId in byProject && id in byProject[items[id].projectId])
      && (forall p :: p in byProject ==> byProject[p] != {})
    }

    constructor ()
      ensures Valid()
      ensures items == map[] && byProject == map[]
    {
      items := map[];
      byProject := map[];
    }

    /** The record `upsert` updates in place, if any. */
    function Existing(datasourceId: Option<string>): set<DatasourceRecord>
      reads this
    {
      if Given(datasourceId) && datasourceId.value in items then {items[datasourceId.value]} else {}
    }

    /**
      `upsert(...)`: an existing id updates that same record in place and
      keeps its id, project, creator and creation time; otherwise a new
      record is stored under the given id or `freshId` (standing for
      `uuid4()`) and indexed under its project.
     */
    method Upsert(projectId: string, name: string, description: string, provider: string, driver: string, kind: string,
                  config: Json, createdBy: string, updatedBy: string, datasourceId: Option<string>, slug: Option<string>,
                  now: int, freshId: string) returns (record: DatasourceRecord)
      requires Valid()
      requires !Given(datasourceId) ==> freshId !in items
      modifies this, Existing(datasourceId)
      ensures Valid()
      ensures record.name == name && record.description == description && record.provider == provider
      ensures record.driver == driver && record.kind == kind && record.config == config
      ensures record.updatedBy == updatedBy && record.updatedAt == now
      ensures Given(datasourceId) && datasourceId.value in old(items) ==>
        && record == old(items[datasourceId.value])
        && record.slug == (if Given(slug) then slug.value else old(record.slug))
        && items == old(items) && byProject == old(byProject)
      ensures !(Given(datasourceId) && datasourceId.value in old(items)) ==>
        var newId := if Given(datasourceId) then datasourceId.value else freshId;
        && fresh(record)
        && record.id == newId && record.projectId == projectId && record.createdBy == createdBy && record.createdAt == now
        && record.slug == (if Given(slug) then slug.value else Slugify(name))
        && items == old(items)[newId := record]
        && byProject == old(byProject)[projectId := (if projectId in old(byProject) then old(byProject[projectId]) else {}) + {newId}]
    {
      if Given(datasourceId) && datasourceId.value in items {
        record := items[datasourceId.value];
        Revise(record, name, description, provider, driver, kind, config, updatedBy, slug, now);
        return;
      }
      var newId := if Given(datasourceId) then datasourceId.value else freshId;
      var newSlug := if Given(slug) then slug.value else Slugify(name);
      record := new DatasourceRecord(newId, projectId, name, description, newSlug, provider, driver, kind, config, createdBy, updatedBy, now);
      Insert(record);
    }

    /** The update branch of `upsert`, on the stored record. */
    static method Revise(record: DatasourceRecord, name: string, description: string, provider: string, driver: string, kind: string,
                         config: Json, updatedBy: string, slug: Option<string>, now: int)
      modifies record
      ensures record.name == name && record.description == description && record.provider == provider
      ensures record.driver == driver && record.kind == kind && record.config == config
      ensures record.updatedBy == updatedBy && record.updatedAt == now
      ensures record.slug == (if Given(slug) then slug.value else old(record.slug))
    {
      record.name := name;
      record.description := description;
      record.provider := provider;
      record.driver := driver;
      record.kind := kind;
      record.config := config;
      record.updatedBy := updatedBy;
      record.updatedAt := now;
      if Given(slug) {
        record.slug := slug.value;
      }
    }

    method Insert(record: DatasourceRecord)
      requires Valid() && record.id !in items
      modifies this
      ensures Valid()
      ensures items == old(items)[record.id := record]
      ensures byProject == old(byProject)[record.projectId := (if record.projectId in old(byProject) then old(byProject[record.projectId]) else {}) + {record.id}]
    {
      items := items[record.id := record];
      var ids := if record.projectId in byProject then byProject[record.projectId] else {};
      byProject := byProject[record.projectId := ids + {record.id}];
    }

    /** `delete(project_id, datasource_id)`: only a record of that very project is removed, and an emptied project index goes too. */
    method Delete(projectId: string, datasourceId: string) returns (deleted: bool)
      requires Valid()
      modifies this
      ensures Valid()
      ensures deleted <==> datasourceId in old(items) && old(items[datasourceId]).projectId == projectId
      ensures !deleted ==> items == old(items) && byProject == old(byProject)
      ensures deleted ==>
        var rest := old(byProject[projectId]) - {datasourceId};
        && items == old(items) - {datasourceId}
        && byProject == (if rest == {} then old(byProject) - {projectId} else old(byProject)[projectId := rest])
    {
      if datasourceId !in items || items[datasourceId].projectId != projectId {
        return false;
      }
      items := items - {datasourceId};
      var rest := byProject[projectId] - {datasourceId};
      if rest == {} {
        byProject := byProject - {projectId};
      } else {
        byProject := byProject[projectId := rest];
      }
      deleted := true;
    }

    /** `get(datasource_id)`. */
    function Get(datasourceId: string): (r: Option<DatasourceRecord>)
      reads this
      ensures r.Some? <==> datasourceId in items
      ensures r.Some? ==> r.value == items[datasourceId]
    {
      if datasourceId in items then Some(items[datasourceId]) else None
    }

    /** The ids indexed under a project, the empty set for an unknown one. */
    function ProjectIds(projectId: string): set<string>
      reads this
    {
      if projectId in byProject then byProject[projectId] else {}
    }

    /** `list(project_id)`: the project's records, each once, in the set's iteration order. */
    method List(projectId: string) returns (records: seq<DatasourceRecord>)
      requires Valid()
      ensures |records| == |ProjectIds(projectId)|
      ensures forall r :: r in records <==> r in items.Values && r.projectId == projectId
      ensures forall i, j :: 0 <= i < j < |records| ==> records[i] != records[j]
    {
      var ids := ProjectIds(projectId);
      ghost var seen: set<string> := {};
      records := [];
      while ids != {}
        invariant ids !! seen && ids + seen == ProjectIds(projectId)
        invariant |records| == |seen|
        invariant forall r :: r in records <==> r.id in seen && r.id in items && items[r.id] == r
        invariant forall i, j :: 0 <= i < j < |records| ==> records[i].id != records[j].id
        decreases |ids|
      {
        var id :| id in ids;
        records := records + [items[id]];
        seen := seen + {id};
        ids := ids - {id};
      }
      forall r | r in items.Values && r.projectId == projectId
        ensures r in records
      {
        var id :| id in items && items[id] == r;
        assert id in ProjectIds(projectId);
      }
    }

    /** The project's records whose id or slug is the identifier. */
    ghost predicate Matches(projectId: string, identifier: string, r: DatasourceRecord)
      reads this, r
    {
      r in items.Values && r.projectId == projectId && (r.id == identifier || r.slug == identifier)
    }

    /** `get_for_project(project_id, identifier)`: some record of the project matching by id or slug, `None` when none does. */
    method GetForProject(projectId: string, identifier: string) returns (found: Option<DatasourceRecord>)
      requires Valid()
      ensures found.Some? ==> Matches(projectId, identifier, found.value)
      ensures found.None? <==> forall id :: id in items ==> !Matches(projectId, identifier, items[id])
    {
      var ids := ProjectIds(projectId);
      while ids != {}
        invariant ids <= ProjectIds(projectId)
        invariant forall id :: id in ProjectIds(projectId) - ids ==> !Matches(projectId, identifier, items[id])
        decreases |ids|
      {
        var id :| id in ids;
        var record := items[id];
        if record.id == identifier || record.slug == identifier {
          return Some(record);
        }
        ids := ids - {id};
      }
      forall id | id in items
        ensures !Matches(projectId, identifier, items[id])
      {
        if items[id].projectId == projectId {
          assert id in ProjectIds(projectId);
        }
      }
      return None;
    }

    /** `resolve_connection_url(project_id, identifier)`: the matched record's URL, `None` when nothing matches. */
    method ResolveConnectionUrl(projectId: string, identifier: string) returns (url: Option<string>)
      requires Valid()
      ensures (forall id :: id in items ==> !Matches(projectId, identifier, items[id])) ==> url.None?
      ensures url.Some? ==> exists id :: id in items && Matches(projectId, identifier, items[id]) && url == ExtractConnectionUrl(items[id].config)
      ensures (exists id :: id in items && Matches(projectId, identifier, items[id])) ==>
        exists id :: id in items && Matches(projectId, identifier, items[id]) && url == ExtractConnectionUrl(items[id].config)
    {
      var record := GetForProject(projectId, identifier);
      if record.None? {
        return None;
      }
      url := ExtractConnectionUrl(record.value.config);
      assert record.value.id in items && items[record.value.id] == record.value;
    }
  }

  /** A slug supplied on update replaces the old one; a missing or empty one keeps it. */
  method UpdateKeepsIdentity(store: DatasourceStore, id: string, name: string, now: int) returns (record: DatasourceRecord)
    requires store.Valid() && id in store.items && id != ""
    modifies store, store.items[id]
    ensures store.Valid() && record == old(store.items[id])
    ensures record.id == id && record.projectId == old(store.items[id].projectId) && record.createdAt == old(store.items[id].createdAt)
    ensures record.slug == old(store.items[id].slug) && record.name == name
  {
    record := store.Upsert("", name, "", "", "", "", JNull, "", "", Some(id), None, now, "");
  }

  /** Deleting under another project removes nothing. */
  method DeleteOtherProject(store: DatasourceStore, id: string, other: string) returns (deleted: bool)
    requires store.Valid() && id in store.items && store.items[id].projectId != other
    modifies store
    ensures !deleted && store.items == old(store.items) && store.byProject == old(store.byProject)
  {
    deleted := store.Delete(other, id);
  }
}
