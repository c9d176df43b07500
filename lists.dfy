/**
 * What `SharePoint` reads off the listings it fetches and how it names what it sends:
 * the library chosen at construction, the column index `list_columns` builds, the column
 * `delete_column` addresses, the definition `create_column` sends, the endpoints, and the
 * folder paths `mkdir` may create on the way to a path.
 */
module Lists {
  import opened Wrappers
  import opened Json
  import opened Merge
  import opened Paths
  import opened Api

  // ---- reading decoded responses ----

  /** `r.json()`: the decoded body, or a decoding failure. */
  function JsonOf(response: Response): (r: Result<Value, Error>)
    ensures r.Ok? <==> response.body.Some?
    ensures r.Ok? ==> r.value == response.body.value
  {
    if response.body.Some? then Ok(response.body.value) else Err(BadJson)
  }

  /** `j[key]`: `TypeError` on something that is not a mapping, `KeyError` on a missing key. */
  function Member(j: Value, key: string): (r: Result<Value, Error>)
    ensures r.Ok? <==> Field(j, key).Some?
    ensures r.Ok? ==> r.value == j.fields[key]
    ensures r.Err? && j.Obj? ==> r.error == MissingKey(key)
  {
    if !j.Obj? then Err(WrongType(key))
    else if key !in j.fields then Err(MissingKey(key))
    else Ok(j.fields[key])
  }

  /** `j[key]` used as text (an id or a name put into an endpoint or used as a key). */
  function TextMember(j: Value, key: string): (r: Result<string, Error>)
    ensures r.Ok? <==> StrField(j, key).Some?
    ensures r.Ok? ==> StrField(j, key) == Some(r.value)
  {
    match Member(j, key)
    case Err(e) => Err(e)
    case Ok(Str(s)) => Ok(s)
    case Ok(_) => Err(WrongType(key))
  }

  /** `r.json()['id']` of what a call returned, or the exception the call raised. */
  function IdOf(outcome: Result<Response, Error>): (r: Result<string, Error>)
    ensures r.Ok? <==> outcome.Ok? && outcome.value.body.Some? && StrField(outcome.value.body.value, "id").Some?
    ensures r.Ok? ==> StrField(outcome.value.body.value, "id") == Some(r.value)
    ensures outcome.Err? ==> r == Err(outcome.error)
  {
    match outcome
    case Err(e) => Err(e)
    case Ok(response) => if response.body.None? then Err(BadJson) else TextMember(response.body.value, "id")
  }

  /** A listing response read as `r.json()['value']`. */
  function Entries(response: Response): (r: Result<seq<Value>, Error>)
    ensures r.Ok? <==>
      response.body.Some? && Field(response.body.value, "value").Some? && Field(response.body.value, "value").value.Arr?
    ensures r.Ok? ==> response.body.Some? && Field(response.body.value, "value") == Some(Arr(r.value))
  {
    match JsonOf(response)
    case Err(e) => Err(e)
    case Ok(j) =>
      match Member(j, "value")
      case Err(e) => Err(e)
      case Ok(Arr(items)) => Ok(items)
      case Ok(_) => Err(WrongType("value"))
  }

  /** A GET with the default retry budget, read as `r.json()`. */
  function Fetch(remote: Remote, log: seq<Exchange>, endpoint: string): (r: Reply<Value>)
    ensures |log| < |r.log| && r.log[..|log|] == log
  {
    var reply := Call(remote, log, GET, endpoint, None, None, JsonContent, DefaultRetries);
    match reply.outcome
    case Err(e) => Reply(Err(e), reply.log)
    case Ok(response) => Reply(JsonOf(response), reply.log)
  }

  /** A GET of a listing endpoint with the default retry budget, read as its `value` array. */
  function Listing(remote: Remote, log: seq<Exchange>, endpoint: string): (r: Reply<seq<Value>>)
    ensures |log| < |r.log| && r.log[..|log|] == log
  {
    var reply := Call(remote, log, GET, endpoint, None, None, JsonContent, DefaultRetries);
    match reply.outcome
    case Err(e) => Reply(Err(e), reply.log)
    case Ok(response) => Reply(Entries(response), reply.log)
  }

  // ---- endpoints ----
  // Every endpoint is relative: `call` puts it under the Graph API root.

  function ListsEndpoint(host: string, site: string): (e: string)
    ensures Absolute(e) == GraphApiEndpoint + e
  {
    RelativeEndpoint("/sites/" + host + ":/sites/" + site + ":/lists");
    "/sites/" + host + ":/sites/" + site + ":/lists"
  }

  /** The drive of the library: below the library's own address. */
  function DriveEndpoint(host: string, site: string, libraryId: string): (e: string)
    ensures Absolute(e) == GraphApiEndpoint + e
    ensures StartsWith(e, ListsEndpoint(host, site) + "/" + libraryId + "/")
  {
    RelativeEndpoint(ListsEndpoint(host, site) + "/" + libraryId + "/drive");
    ListsEndpoint(host, site) + "/" + libraryId + "/drive"
  }

  /** The columns of the library: below the library's own address. */
  function ColumnsEndpoint(host: string, site: string, libraryId: string): (e: string)
    ensures Absolute(e) == GraphApiEndpoint + e
    ensures StartsWith(e, ListsEndpoint(host, site) + "/" + libraryId + "/")
  {
    RelativeEndpoint(ListsEndpoint(host, site) + "/" + libraryId + "/columns");
    ListsEndpoint(host, site) + "/" + libraryId + "/columns"
  }

  /** Where `mkdir` posts a folder: the drive root, or the children of the parent's item. */
  function FolderEndpoint(host: string, driveId: string, parentId: Option<string>): (e: string)
    ensures Absolute(e) == GraphApiEndpoint + e
    ensures parentId.Some? ==> StartsWith(e, "/sites/" + host + "/drives/" + driveId + "/items/" + parentId.value + "/")
  {
    match parentId
    case None =>
      RelativeEndpoint("/sites/" + host + "/drives/" + driveId + "/root/children");
      "/sites/" + host + "/drives/" + driveId + "/root/children"
    case Some(id) =>
      RelativeEndpoint("/sites/" + host + "/drives/" + driveId + "/items/" + id + "/children");
      "/sites/" + host + "/drives/" + driveId + "/items/" + id + "/children"
  }

  /** Where `upload` puts a file's content: under the drive root or under the parent's item. */
  function ContentEndpoint(driveId: string, parentId: Option<string>, filename: string): (e: string)
    ensures Absolute(e) == GraphApiEndpoint + e
    ensures parentId.Some? ==> StartsWith(e, "/drives/" + driveId + "/items/" + parentId.value + ":/" + filename + ":")
    ensures parentId.None? ==> StartsWith(e, "/drives/" + driveId + "/items/root:/" + filename + ":")
  {
    match parentId
    case None =>
      RelativeEndpoint("/drives/" + driveId + "/items/root:/" + filename + ":/content");
      "/drives/" + driveId + "/items/root:/" + filename + ":/content"
    case Some(id) =>
      RelativeEndpoint("/drives/" + driveId + "/items/" + id + ":/" + filename + ":/content");
      "/drives/" + driveId + "/items/" + id + ":/" + filename + ":/content"
  }

  /** The item `annotate` looks up: addressed by its path below the drive root. */
  function ItemEndpoint(driveId: string, relPath: string): (e: string)
    ensures Absolute(e) == GraphApiEndpoint + e
    ensures StartsWith(e, "/drives/" + driveId + "/items/root:/")
  {
    RelativeEndpoint("/drives/" + driveId + "/items/root:" + Rooted(relPath));
    "/drives/" + driveId + "/items/root:" + Rooted(relPath)
  }

  /** The list-item fields of the item `itemId`, which `annotate` patches. */
  function FieldsEndpoint(host: string, driveId: string, itemId: string): (e: string)
    ensures Absolute(e) == GraphApiEndpoint + e
    ensures StartsWith(e, "/sites/" + host + "/drives/" + driveId + "/items/" + itemId + "/")
  {
    RelativeEndpoint("/sites/" + host + "/drives/" + driveId + "/items/" + itemId + "/listItem/fields");
    "/sites/" + host + "/drives/" + driveId + "/items/" + itemId + "/listItem/fields"
  }

  /** The last component of a split path: the name of the item itself. */
  function Leaf(parts: seq<string>): string
    requires |parts| >= 1
  {
    parts[|parts| - 1]
  }

  /** The cached id of the parent folder of the item at `parts`; `None` for an item at the root. */
  function ParentIdIn(paths: map<string, string>, parts: seq<string>): Option<string>
    requires |parts| >= 1
  {
    if |parts| >= 2 && ParentPath(parts) in paths then Some(paths[ParentPath(parts)]) else None
  }

  /** The folder description `mkdir` posts: a folder that replaces any item of that name. */
  function FolderDetails(name: string): (d: Value)
    ensures d.Obj? && d.fields.Keys == {"name", "folder", "@microsoft.graph.conflictBehavior"}
    ensures d.fields["name"] == Str(name) && d.fields["folder"] == Obj(map[])
    ensures Truthy(d)
  {
    Obj(map["name" := Str(name), "folder" := Obj(map[]), "@microsoft.graph.conflictBehavior" := Str("replace")])
  }

  // ---- the library chosen at construction ----

  /**
   * The library the constructor settles on after scanning the lists in order: every entry's
   * `name` is read (a missing one raises), and each entry whose name equals `name` replaces
   * the previous choice.
   */
  function Selection(libs: seq<Value>, name: string): (r: Result<Option<Value>, Error>)
    ensures r.Ok? <==> forall i :: 0 <= i < |libs| ==> Member(libs[i], "name").Ok?
    ensures r.Ok? && r.value.Some? ==> Field(r.value.value, "name") == Some(Str(name))
  {
    if libs == [] then Ok(None)
    else
      var n := |libs| - 1;
      var prev := Selection(libs[..n], name);
      assert forall i :: 0 <= i < n ==> libs[..n][i] == libs[i];
      if prev.Err? then prev
      else
        match Member(libs[n], "name")
        case Err(e) => Err(e)
        case Ok(v) => if v == Str(name) then Ok(Some(libs[n])) else prev
  }

  /** The constructor keeps the last list with the requested name. */
  lemma {:induction false} SelectionLast(libs: seq<Value>, name: string, i: nat)
    requires forall j :: 0 <= j < |libs| ==> Member(libs[j], "name").Ok?
    requires i < |libs| && Field(libs[i], "name") == Some(Str(name))
    requires forall j :: i < j < |libs| ==> Field(libs[j], "name") != Some(Str(name))
    ensures Selection(libs, name) == Ok(Some(libs[i]))
  {
    var n := |libs| - 1;
    if i < n {
      var prefix := libs[..n];
      forall j | 0 <= j < n ensures Member(prefix[j], "name").Ok? { assert prefix[j] == libs[j]; }
      forall j | i < j < n ensures Field(prefix[j], "name") != Some(Str(name)) { assert prefix[j] == libs[j]; }
      assert prefix[i] == libs[i];
      SelectionLast(prefix, name, i);
    }
  }

  /** A list without a name stops the scan: the lists after it are never looked at. */
  lemma {:induction false} SelectionStops(libs: seq<Value>, name: string, i: nat)
    requires i <= |libs| && Selection(libs[..i], name).Err?
    ensures Selection(libs, name) == Selection(libs[..i], name)
  {
    if i < |libs| {
      var n := |libs| - 1;
      assert libs[..n][..i] == libs[..i];
      SelectionStops(libs[..n], name, i);
      assert libs[..|libs|] == libs;
    } else {
      assert libs[..i] == libs;
    }
  }

  /** No list with the requested name: the constructor finds nothing (and then raises). */
  lemma {:induction false} SelectionNone(libs: seq<Value>, name: string)
    requires forall j :: 0 <= j < |libs| ==> Member(libs[j], "name").Ok?
    requires forall j :: 0 <= j < |libs| ==> Field(libs[j], "name") != Some(Str(name))
    ensures Selection(libs, name) == Ok(None)
  {
    if libs != [] {
      var n := |libs| - 1;
      var prefix := libs[..n];
      forall j | 0 <= j < n ensures Member(prefix[j], "name").Ok? && Field(prefix[j], "name") != Some(Str(name)) {
        assert prefix[j] == libs[j];
      }
      SelectionNone(prefix, name);
    }
  }

  // ---- the column index of list_columns ----

  /** The columns indexed so far, and the error that stopped the scan, if any. */
  datatype Indexed = Indexed(columns: map<string, Value>, error: Option<Error>)

  /**
   * What `list_columns` leaves in `self.columns` after scanning `cols` in order: each column is
   * stored under its `name`, a later one replacing an earlier one; the first column without a
   * name stops the scan, keeping what was stored before it.
   */
  function Index(cols: seq<Value>): (r: Indexed)
    ensures r.error.None? <==> forall i :: 0 <= i < |cols| ==> StrField(cols[i], "name").Some?
    ensures forall c :: c in r.columns ==> StrField(r.columns[c], "name") == Some(c)
  {
    if cols == [] then Indexed(map[], None)
    else
      var n := |cols| - 1;
      var prev := Index(cols[..n]);
      assert forall i :: 0 <= i < n ==> cols[..n][i] == cols[i];
      if prev.error.Some? then prev
      else
        match TextMember(cols[n], "name")
        case Err(e) => Indexed(prev.columns, Some(e))
        case Ok(name) => Indexed(prev.columns[name := cols[n]], None)
  }

  /** Once the scan has stopped, later columns change nothing. */
  lemma {:induction false} IndexStops(cols: seq<Value>, i: nat)
    requires i <= |cols| && Index(cols[..i]).error.Some?
    ensures Index(cols) == Index(cols[..i])
  {
    if i < |cols| {
      var n := |cols| - 1;
      assert cols[..n][..i] == cols[..i];
      IndexStops(cols[..n], i);
      assert cols[..|cols|] == cols;
    } else {
      assert cols[..i] == cols;
    }
  }

  /** A named column after a clean scan is stored under its name. */
  lemma IndexStep(cols: seq<Value>)
    requires cols != [] && Index(cols[..|cols| - 1]).error.None?
    requires StrField(cols[|cols| - 1], "name").Some?
    ensures Index(cols).error.None?
    ensures Index(cols).columns
      == Index(cols[..|cols| - 1]).columns[StrField(cols[|cols| - 1], "name").value := cols[|cols| - 1]]
  {
  }

  /** The names of a fully named listing, in order. */
  function Names(cols: seq<Value>): (names: seq<string>)
    requires forall i :: 0 <= i < |cols| ==> StrField(cols[i], "name").Some?
    ensures |names| == |cols|
    ensures forall i :: 0 <= i < |cols| ==> StrField(cols[i], "name") == Some(names[i])
  {
    seq(|cols|, i requires 0 <= i < |cols| => StrField(cols[i], "name").value)
  }

  lemma NamesSnoc(cols: seq<Value>)
    requires cols != []
    requires forall i :: 0 <= i < |cols| ==> StrField(cols[i], "name").Some?
    ensures Names(cols) == Names(cols[..|cols| - 1]) + [StrField(cols[|cols| - 1], "name").value]
  {
    var n := |cols| - 1;
    var prefix := cols[..n];
    forall i | 0 <= i < n ensures Names(prefix)[i] == Names(cols)[i] {
      assert prefix[i] == cols[i];
    }
  }

  lemma ElementsSnoc(names: seq<string>, prefix: seq<string>, last: string)
    requires names == prefix + [last]
    ensures (set c | c in names) == (set c | c in prefix) + {last}
  {
  }

  /** A fully named listing is indexed under exactly the names it holds. */
  lemma {:induction false} IndexKeys(cols: seq<Value>)
    requires forall i :: 0 <= i < |cols| ==> StrField(cols[i], "name").Some?
    ensures Index(cols).columns.Keys == set c | c in Names(cols)
  {
    if cols != [] {
      var n := |cols| - 1;
      var prefix := cols[..n];
      forall j | 0 <= j < n ensures StrField(prefix[j], "name").Some? { assert prefix[j] == cols[j]; }
      IndexKeys(prefix);
      assert Index(prefix).error.None?;
      IndexStep(cols);
      NamesSnoc(cols);
      ElementsSnoc(Names(cols), Names(prefix), StrField(cols[n], "name").value);
    }
  }

  /** A fully named listing: each name maps to the last column that carries it. */
  lemma {:induction false} IndexLastWins(cols: seq<Value>, i: nat)
    requires forall j :: 0 <= j < |cols| ==> StrField(cols[j], "name").Some?
    requires i < |cols|
    requires forall j :: i < j < |cols| ==> StrField(cols[j], "name") != StrField(cols[i], "name")
    ensures StrField(cols[i], "name").value in Index(cols).columns
    ensures Index(cols).columns[StrField(cols[i], "name").value] == cols[i]
  {
    var n := |cols| - 1;
    if i < n {
      var prefix := cols[..n];
      forall j | 0 <= j < n ensures StrField(prefix[j], "name").Some? { assert prefix[j] == cols[j]; }
      forall j | i < j < n ensures StrField(prefix[j], "name") != StrField(prefix[i], "name") {
        assert prefix[j] == cols[j] && prefix[i] == cols[i];
      }
      IndexLastWins(prefix, i);
      assert prefix[i] == cols[i];
    }
  }

  // ---- delete_column ----

  /**
   * The id `delete_column` sends a DELETE for, as written: it tests `name in self.columns`
   * but then reads the column stored under the literal key `"name"`.
   */
  function DeleteTarget(columns: map<string, Value>, name: string): (r: Result<Option<string>, Error>)
    ensures r == Ok(None) <==> name !in columns
    ensures name in columns && "name" !in columns ==> r == Err(MissingKey("name"))
    ensures r.Ok? && r.value.Some? ==> "name" in columns && StrField(columns["name"], "id") == r.value
  {
    if name !in columns then Ok(None)
    else if "name" !in columns then Err(MissingKey("name"))
    else match TextMember(columns["name"], "id")
      case Err(e) => Err(e)
      case Ok(id) => Ok(Some(id))
  }

  /** The id of the column called `name`, which is what deleting that column needs. */
  function IntendedDeleteTarget(columns: map<string, Value>, name: string): (r: Result<Option<string>, Error>)
    ensures r == Ok(None) <==> name !in columns
    ensures r.Ok? && r.value.Some? ==> name in columns && StrField(columns[name], "id") == r.value
    ensures r.Err? ==> name in columns && StrField(columns[name], "id").None?
  {
    if name !in columns then Ok(None)
    else match TextMember(columns[name], "id")
      case Err(e) => Err(e)
      case Ok(id) => Ok(Some(id))
  }

  /**
   * Deleting an existing column `Title` from a library that has no column called `name`
   * raises instead of deleting; with a column called `name` present, that column's id is
   * used instead.
   */
  lemma DeleteTargetMisses()
    ensures var columns := map["Title" := Obj(map["name" := Str("Title"), "id" := Str("7")])];
      DeleteTarget(columns, "Title") == Err(MissingKey("name"))
      && IntendedDeleteTarget(columns, "Title") == Ok(Some("7"))
    ensures var columns := map["Title" := Obj(map["name" := Str("Title"), "id" := Str("7")]),
                               "name" := Obj(map["name" := Str("name"), "id" := Str("9")])];
      DeleteTarget(columns, "Title") == Ok(Some("9"))
      && IntendedDeleteTarget(columns, "Title") == Ok(Some("7"))
  {
    var one := map["Title" := Obj(map["name" := Str("Title"), "id" := Str("7")])];
    assert "name" !in one;
    var two := one["name" := Obj(map["name" := Str("name"), "id" := Str("9")])];
    assert two["name"].fields["id"] == Str("9");
    assert two["Title"].fields["id"] == Str("7");
  }

  /** The two agree exactly when the column asked for is the one stored under `"name"`. */
  lemma DeleteTargetAgrees(columns: map<string, Value>)
    ensures DeleteTarget(columns, "name") == IntendedDeleteTarget(columns, "name")
  {
  }

  // ---- create_column ----

  /** The definition `create_column` starts from before merging the caller's details. */
  function Defaults(name: string): (d: Dict)
    ensures d.Keys == {"columnGroup", "description", "displayName", "name", "enforceUniqueValues",
                       "hidden", "indexed", "readOnly", "required"}
    ensures forall k :: k in d ==> !d[k].Obj?
  {
    map["columnGroup" := Str("Custom Columns"),
        "description" := Str(""),
        "displayName" := Str(name),
        "name" := Str(name),
        "enforceUniqueValues" := Bool(false),
        "hidden" := Bool(false),
        "indexed" := Bool(false),
        "readOnly" := Bool(false),
        "required" := Bool(false)]
  }

  /**
   * `assign(defaults, details)` runs to completion exactly when `details` puts no mapping
   * under one of the default keys (whose values are all scalars).
   */
  lemma DefaultsCompatible(name: string, details: Dict)
    ensures Safe([Defaults(name), details]) <==> forall k :: k in details && k in Defaults(name) ==> !details[k].Obj?
  {
    var xs := [Defaults(name), details];
    assert xs[..0] == [] && xs[..1] == [Defaults(name)];
    MergeIntoEmpty(Defaults(name));
    assert MergeAll(xs[..1]) == MergeInto(MergeAll([]), Defaults(name));
    assert Compatible(MergeAll(xs[..0]), xs[0]);
  }

  /**
   * The definition `create_column` sends: a key the caller gives with a plain value keeps
   * it, a default the caller does not mention keeps its default, and every key of either
   * is present.
   */
  lemma ColumnDefinition(name: string, details: Dict, k: string)
    ensures var column := MergeAll([Defaults(name), details]);
      && column.Keys == Defaults(name).Keys + details.Keys
      && (k in details && !details[k].Obj? ==> column[k] == details[k])
      && (k in Defaults(name) && k !in details ==> column[k] == Defaults(name)[k])
  {
    MergeTwo(Defaults(name), details);
  }

  // ---- annotate ----

  /** `annotate` makes a relative path absolute by putting a `/` in front. */
  function Rooted(relPath: string): (path: string)
    ensures |path| >= 1 && path[0] == '/'
    ensures |relPath| <= |path| <= |relPath| + 1
    ensures path[|path| - |relPath|..] == relPath
  {
    if |relPath| >= 1 && relPath[0] == '/' then relPath else "/" + relPath
  }

  lemma RootedIdempotent(relPath: string)
    ensures Rooted(Rooted(relPath)) == Rooted(relPath)
  {
  }

  // ---- mkdir: the folders a call may create ----

  /** The folder paths above the item at `path`, as `mkdir` spells them: `/a`, `/a/b`, ... */
  function Ancestors(path: string): set<string>
  {
    var parts := SplitPath(path);
    set i | 1 <= i < |parts| :: JoinPath(parts[..i])
  }

  /** The parent and the parent's own ancestors are among the ancestors of a path. */
  lemma ParentAncestors(path: string)
    requires |SplitPath(path)| >= 2
    ensures ParentPath(SplitPath(path)) in Ancestors(path)
    ensures Ancestors(ParentPath(SplitPath(path))) <= Ancestors(path)
  {
    var parts := SplitPath(path);
    var n := |parts| - 1;
    var parent := ParentPath(parts);
    ParentPathParts(path);
    assert parent == JoinPath(parts[..n]);
    forall a | a in Ancestors(parent) ensures a in Ancestors(path) {
      var i :| 1 <= i < n && a == JoinPath(parts[..n][..i]);
      assert parts[..n][..i] == parts[..i];
    }
  }

  /** A path is never one of its own ancestors: those split into fewer components. */
  lemma NotOwnAncestor(path: string)
    ensures path !in Ancestors(path)
  {
    var parts := SplitPath(path);
    if path in Ancestors(path) {
      var i :| 1 <= i < |parts| && path == JoinPath(parts[..i]);
      assert forall j :: 0 <= j < i ==> parts[..i][j] == parts[j];
      SplitJoinPath(parts[..i]);
      assert false;
    }
  }
}
