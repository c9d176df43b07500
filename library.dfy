/**
 * `SharePoint` and `SafeSharePoint`: a document library of a SharePoint site reached through
 * the Graph API. The object caches the ids of the folders it created (`paths`), the column
 * definitions of the library (`columns`), the attribute-to-column aliases, the registered
 * loaders and a load counter; every request it makes is appended to `log`.
 *
 * `SafeSharePoint` is the same object with `safe` set: its public operations swallow every
 * failure, and the calls the base operations make on `self` (the parent `mkdir`, the
 * `list_columns` before a column change, the `annotate` after a load) reach the safe versions.
 */
module Library {
  import opened Wrappers
  import opened Json
  import opened Merge
  import opened Paths
  import opened Api
  import opened Attributes
  import opened Lists

  const OctetStream: string := "application/octet-stream"

  /** `b` is `a` followed by zero or more further exchanges. */
  predicate Extends(a: seq<Exchange>, b: seq<Exchange>)
  {
    |a| <= |b| && b[..|a|] == a
  }

  lemma ExtendsTrans(a: seq<Exchange>, b: seq<Exchange>, c: seq<Exchange>)
    requires Extends(a, b) && Extends(b, c)
    ensures Extends(a, c)
  {
    assert c[..|a|] == c[..|b|][..|a|];
  }

  /** The request is the one `call` builds for these arguments. */
  predicate Sends(q: Request, verb: Verb, endpoint: string, jsonInput: Option<Value>, data: Option<string>, contentType: string)
  {
    q.verb == verb && q.endpoint == Absolute(endpoint) && q.contentType == contentType && q.body == BodyOf(jsonInput, data)
  }

  /**
   * The last exchange of `log` sent this request and was answered with a JSON body whose
   * `id` is `id`.
   */
  predicate AnsweredWithId(log: seq<Exchange>, verb: Verb, endpoint: string, jsonInput: Option<Value>, id: string)
  {
    && |log| > 0
    && Sends(log[|log| - 1].request, verb, endpoint, jsonInput, None, JsonContent)
    && log[|log| - 1].response.body.Some?
    && StrField(log[|log| - 1].response.body.value, "id") == Some(id)
  }

  /** The last exchange of `log` was answered with `response`. */
  predicate RespondedWith(log: seq<Exchange>, response: Response)
  {
    |log| > 0 && log[|log| - 1].response == response
  }

  /** What a step of `mkdir` or `upload` leaves: its outcome, the exchange log and the folder cache. */
  datatype Effect<T> = Effect(outcome: Result<T, Error>, log: seq<Exchange>, paths: map<string, string>)

  /** What an operation that returns nothing makes of the outcome of its last call. */
  function Done(outcome: Result<Response, Error>): (r: Result<(), Error>)
    ensures r.Ok? <==> outcome.Ok?
    ensures r.Err? ==> r.error == outcome.error
  {
    if outcome.Ok? then Ok(()) else Err(outcome.error)
  }

  /** Every entry of `before` other than the one under `except` is still there, unchanged. */
  predicate KeepsOthers(before: map<string, string>, after: map<string, string>, except: string)
  {
    forall p :: p in before && p != except ==> p in after && after[p] == before[p]
  }

  /** Keeping every entry, then every entry but one, keeps every entry but that one. */
  lemma KeepsThenOthers(a: map<string, string>, b: map<string, string>, c: map<string, string>, except: string)
    requires forall p :: p in a ==> p in b && b[p] == a[p]
    requires KeepsOthers(b, c, except)
    ensures KeepsOthers(a, c, except)
  {
  }

  /**
   * The scan of the constructor: the library with the requested name that comes last in the
   * listing; an entry without a name raises.
   */
  method FindLibrary(libs: seq<Value>, name: string) returns (r: Result<Option<Value>, Error>)
    ensures r == Selection(libs, name)
  {
    var chosen: Option<Value> := None;
    for i := 0 to |libs|
      invariant Selection(libs[..i], name) == Ok(chosen)
    {
      assert libs[..i + 1][..i] == libs[..i];
      var named := Member(libs[i], "name");
      if named.Err? {
        SelectionStops(libs, name, i + 1);
        return Err(named.error);
      }
      if named.value == Str(name) {
        chosen := Some(libs[i]);
      }
    }
    assert libs[..|libs|] == libs;
    return Ok(chosen);
  }

  class SharePoint {
    const host: string
    const site: string
    const remote: Remote
    /** Set for a `SafeSharePoint`. */
    const safe: bool
    const library: Value
    const libraryId: string
    const drive: Value
    const driveId: string

    /** Every exchange with the Graph API so far. */
    var log: seq<Exchange>
    /** Folder path (as `mkdir` was given it) to item id. */
    var paths: map<string, string>
    /** Attribute key to column name. */
    var aliases: map<string, string>
    /** The column definitions by name, once listed. */
    var columns: Option<map<string, Value>>
    /** The sources a loader is registered for. */
    var loaders: set<string>
    /** Loads started since the clock was last reset. */
    var n: nat

    /** Nothing cached, nothing registered, nothing counted. */
    predicate Initial()
      reads this`paths, this`aliases, this`columns, this`loaders, this`n
    {
      paths == map[] && aliases == map[] && columns == None && loaders == {} && n == 0
    }

    constructor (host: string, site: string, remote: Remote, safe: bool, library: Value, libraryId: string,
                 drive: Value, driveId: string, log: seq<Exchange>)
      ensures this.host == host && this.site == site && this.remote == remote && this.safe == safe
      ensures this.library == library && this.libraryId == libraryId && this.drive == drive && this.driveId == driveId
      ensures this.log == log && Initial()
    {
      this.host := host;
      this.site := site;
      this.remote := remote;
      this.safe := safe;
      this.library := library;
      this.libraryId := libraryId;
      this.drive := drive;
      this.driveId := driveId;
      this.log := log;
      paths := map[];
      aliases := map[];
      columns := None;
      loaders := {};
      n := 0;
    }

    /**
     * `SharePoint(host, site, library, token)`: list the site's lists, keep the last one
     * called `libraryName` (raising when there is none), then fetch its drive.
     */
    static method Open(remote: Remote, log: seq<Exchange>, host: string, site: string, libraryName: string, safe: bool)
      returns (r: Result<SharePoint, Error>, history: seq<Exchange>)
      ensures Extends(log, history)
      ensures var listing := Listing(remote, log, ListsEndpoint(host, site));
        && (listing.outcome.Err? ==> r == Err(listing.outcome.error) && history == listing.log)
        && (listing.outcome.Ok? && Selection(listing.outcome.value, libraryName).Err? ==>
              r == Err(Selection(listing.outcome.value, libraryName).error) && history == listing.log)
        && (listing.outcome.Ok? && Selection(listing.outcome.value, libraryName) == Ok(None) ==>
              r == Err(LibraryNotFound(libraryName)) && history == listing.log)
        && (r.Ok? ==>
              && listing.outcome.Ok?
              && Selection(listing.outcome.value, libraryName) == Ok(Some(r.value.library))
              && var drive := Fetch(remote, listing.log, DriveEndpoint(host, site, r.value.libraryId));
                 history == drive.log && drive.outcome == Ok(r.value.drive))
      ensures var listing := Listing(remote, log, ListsEndpoint(host, site));
        listing.outcome.Ok? && Selection(listing.outcome.value, libraryName).Ok?
        && Selection(listing.outcome.value, libraryName).value.Some? ==>
          Opened(remote, listing.log, host, site, Selection(listing.outcome.value, libraryName).value.value, r, history)
      ensures r.Ok? ==> fresh(r.value) && r.value.Initial() && r.value.log == history
      ensures r.Ok? ==> r.value.host == host && r.value.site == site && r.value.remote == remote && r.value.safe == safe
      ensures r.Ok? ==> StrField(r.value.library, "id") == Some(r.value.libraryId)
      ensures r.Ok? ==> StrField(r.value.drive, "id") == Some(r.value.driveId)
    {
      var listing := Listing(remote, log, ListsEndpoint(host, site));
      history := listing.log;
      if listing.outcome.Err? {
        return Err(listing.outcome.error), history;
      }
      var found := FindLibrary(listing.outcome.value, libraryName);
      if found.Err? {
        return Err(found.error), history;
      }
      if found.value.None? {
        return Err(LibraryNotFound(libraryName)), history;
      }
      var lib := found.value.value;
      var libraryId := TextMember(lib, "id");
      if libraryId.Err? {
        return Err(libraryId.error), history;
      }
      var drive := Fetch(remote, history, DriveEndpoint(host, site, libraryId.value));
      ExtendsTrans(log, history, drive.log);
      history := drive.log;
      if drive.outcome.Err? {
        return Err(drive.outcome.error), history;
      }
      var driveId := TextMember(drive.outcome.value, "id");
      if driveId.Err? {
        return Err(driveId.error), history;
      }
      var sp := new SharePoint(host, site, remote, safe, lib, libraryId.value, drive.outcome.value, driveId.value, history);
      return Ok(sp), history;
    }

    /**
     * How construction ends once the library `lib` is chosen, from the log `log`: its `id` is
     * read, its drive is fetched and the drive's `id` is read, each of which may raise; when none
     * does, the object is built from them.
     */
    static ghost predicate Opened(remote: Remote, log: seq<Exchange>, host: string, site: string, lib: Value,
                                  r: Result<SharePoint, Error>, history: seq<Exchange>)
    {
      match TextMember(lib, "id")
      case Err(e) => r == Err(e) && history == log
      case Ok(libraryId) =>
        var drive := Fetch(remote, log, DriveEndpoint(host, site, libraryId));
        && history == drive.log
        && match drive.outcome
           case Err(e) => r == Err(e)
           case Ok(d) =>
             match TextMember(d, "id")
             case Err(e) => r == Err(e)
             case Ok(driveId) =>
               r.Ok? && r.value.library == lib && r.value.libraryId == libraryId && r.value.drive == d && r.value.driveId == driveId
    }

    /** `clock_start`: reset the load counter (the start time is not modelled). */
    method ClockStart()
      modifies this`n
      ensures n == 0
    {
      n := 0;
    }

    /** `clock_next`: count one more load and report the count. */
    method ClockNext() returns (count: nat)
      modifies this`n
      ensures n == old(n) + 1 && count == n
    {
      n := n + 1;
      count := n;
    }

    /**
     * `API.get`, `put`, `post`, `patch` and `delete` with the default retry budget: one `call`,
     * whose exchanges are appended to the log.
     */
    method Send(verb: Verb, endpoint: string, jsonInput: Option<Value>, data: Option<string>, contentType: string)
      returns (r: Result<Response, Error>)
      modifies this`log
      ensures var reply := Call(remote, old(log), verb, endpoint, jsonInput, data, contentType, DefaultRetries);
        log == reply.log && r == reply.outcome
      ensures Extends(old(log), log) && |old(log)| < |log|
      ensures forall i :: |old(log)| <= i < |log| ==> Sends(log[i].request, verb, endpoint, jsonInput, data, contentType)
      ensures r.Ok? ==> IsSuccess(r.value.status) && r.value == log[|log| - 1].response
    {
      var reply := Call(remote, log, verb, endpoint, jsonInput, data, contentType, DefaultRetries);
      CallSends(remote, log, verb, endpoint, jsonInput, data, contentType);
      CallVerdict(remote, log, verb, endpoint, jsonInput, data, contentType, DefaultRetries);
      log := reply.log;
      r := reply.outcome;
    }

    /** A request whose JSON response names an item: `...json()['id']`. */
    method SendForId(verb: Verb, endpoint: string, jsonInput: Option<Value>) returns (r: Result<string, Error>)
      modifies this`log
      ensures Extends(old(log), log) && |old(log)| < |log|
      ensures var reply := Call(remote, old(log), verb, endpoint, jsonInput, None, JsonContent, DefaultRetries);
        log == reply.log && r == IdOf(reply.outcome)
      ensures forall i :: |old(log)| <= i < |log| ==> Sends(log[i].request, verb, endpoint, jsonInput, None, JsonContent)
      ensures r.Ok? ==>
        && IsSuccess(log[|log| - 1].response.status)
        && log[|log| - 1].response.body.Some?
        && StrField(log[|log| - 1].response.body.value, "id") == Some(r.value)
    {
      var sent := Send(verb, endpoint, jsonInput, None, JsonContent);
      if sent.Ok? {
        var body := JsonOf(sent.value);
        r := if body.Ok? then TextMember(body.value, "id") else Err(body.error);
      } else {
        r := Err(sent.error);
      }
    }

    /**
     * The parent folder of the item at `path`, as `mkdir` and `upload` resolve it: none for an
     * item at the root; otherwise `join_path(parts[:-1])` is created first through `self.mkdir`
     * when `makeParents` is set and it is not cached, and its cached id is read (`KeyError`
     * when it is still missing).
     */
    method ParentFolder(path: string, makeParents: bool) returns (r: Result<Option<string>, Error>)
      modifies this`log, this`paths
      decreases |SplitPath(path)|, 0
      ensures Effect(r, log, paths) == Resolved(old(log), old(paths), path, makeParents)
      ensures Extends(old(log), log)
      ensures forall p :: p in old(paths) ==> p in paths && paths[p] == old(paths)[p]
      ensures paths.Keys <= old(paths).Keys + Ancestors(path)
      ensures r.Ok? ==> r.value == ParentIdIn(paths, SplitPath(path))
      ensures r.Ok? && |SplitPath(path)| >= 2 ==> ParentPath(SplitPath(path)) in paths
      ensures r.Err? ==> |SplitPath(path)| >= 2 && ParentPath(SplitPath(path)) !in paths
      ensures |SplitPath(path)| == 1 ==> r == Ok(None) && log == old(log) && paths == old(paths)
      ensures |SplitPath(path)| >= 2 && ParentPath(SplitPath(path)) in old(paths) ==>
        r == Ok(Some(old(paths)[ParentPath(SplitPath(path))])) && log == old(log) && paths == old(paths)
      ensures |SplitPath(path)| >= 2 && !makeParents && ParentPath(SplitPath(path)) !in old(paths) ==>
        r == Err(MissingKey(ParentPath(SplitPath(path)))) && log == old(log) && paths == old(paths)
    {
      var parts := SplitPath(path);
      if |parts| == 1 {
        return Ok(None);
      }
      var parent := ParentPath(parts);
      ParentPathParts(path);
      ParentAncestors(path);
      if makeParents && parent !in paths {
        var made := MkdirViaSelf(parent);
        if made.Err? {
          return Err(made.error);
        }
      }
      if parent !in paths {
        return Err(MissingKey(parent));
      }
      return Ok(Some(paths[parent]));
    }

    /** `self.mkdir(parent, make_parents=True)`: the safe version on a safe object. */
    method MkdirViaSelf(path: string) returns (r: Result<(), Error>)
      modifies this`log, this`paths
      decreases |SplitPath(path)|, 3
      ensures Effect(r, log, paths) == ViaSelf(old(log), old(paths), path)
      ensures Extends(old(log), log)
      ensures KeepsOthers(old(paths), paths, path)
      ensures paths.Keys <= old(paths).Keys + {path} + Ancestors(path)
      ensures r.Err? ==> (path in paths <==> path in old(paths))
      ensures safe ==> r.Ok?
    {
      if safe {
        SafeMkdir(path, true);
        return Ok(());
      }
      var made := Mkdir(path, true);
      return if made.Ok? then Ok(()) else Err(made.error);
    }

    /**
     * The last exchange created the folder at `path`: a POST of a folder named after its last
     * component, at the drive root or under its cached parent, answered with the id `id`.
     */
    ghost predicate FolderPosted(path: string, id: string)
      reads this`log, this`paths
    {
      AnsweredWithId(log, POST, FolderEndpoint(host, driveId, ParentIdIn(paths, SplitPath(path))),
                     Some(FolderDetails(Leaf(SplitPath(path)))), id)
    }

    /**
     * The end of `mkdir` once the parent folder is resolved, from the log `mid` and the cache
     * `midPaths` the resolution left: the POST of a folder named after the last component, at
     * the drive root or under the parent's cached id; on success its `id` is cached under `path`.
     */
    ghost predicate PostedFrom(mid: seq<Exchange>, midPaths: map<string, string>, path: string, r: Result<string, Error>)
      reads this`log, this`paths
    {
      var parts := SplitPath(path);
      var reply := Call(remote, mid, POST, FolderEndpoint(host, driveId, ParentIdIn(midPaths, parts)),
                        Some(FolderDetails(Leaf(parts))), None, JsonContent, DefaultRetries);
      && log == reply.log && r == IdOf(reply.outcome)
      && paths == (if r.Ok? then midPaths[path := r.value] else midPaths)
    }

    /** `PostedFrom` as a value: the folder POST from `log` and `paths`, and the id cached on success. */
    ghost function Posted(log: seq<Exchange>, paths: map<string, string>, path: string): Effect<string>
    {
      var parts := SplitPath(path);
      var reply := Call(remote, log, POST, FolderEndpoint(host, driveId, ParentIdIn(paths, parts)),
                        Some(FolderDetails(Leaf(parts))), None, JsonContent, DefaultRetries);
      var r := IdOf(reply.outcome);
      Effect(r, reply.log, if r.Ok? then paths[path := r.value] else paths)
    }

    /**
     * How `mkdir` and `upload` resolve the parent folder of `path` from the log `log` and the
     * cache `paths`: nothing at the root; otherwise, when `makeParents` is set and the parent
     * is not cached, `self.mkdir(parent, make_parents=True)` runs first, and then the parent's
     * cached id is read (`KeyError` when it is still missing).
     */
    ghost function Resolved(log: seq<Exchange>, paths: map<string, string>, path: string, makeParents: bool): Effect<Option<string>>
      decreases |SplitPath(path)|, 0
    {
      var parts := SplitPath(path);
      if |parts| == 1 then Effect(Ok(None), log, paths)
      else
        var parent := ParentPath(parts);
        var pre := if makeParents && parent !in paths then ParentPathParts(path); ViaSelf(log, paths, parent)
                   else Effect(Ok(()), log, paths);
        if pre.outcome.Err? then Effect(Err(pre.outcome.error), pre.log, pre.paths)
        else if parent !in pre.paths then Effect(Err(MissingKey(parent)), pre.log, pre.paths)
        else Effect(Ok(Some(pre.paths[parent])), pre.log, pre.paths)
    }

    /** `self.mkdir(path, make_parents=True)`: its failure is swallowed on a safe object. */
    ghost function ViaSelf(log: seq<Exchange>, paths: map<string, string>, path: string): Effect<()>
      decreases |SplitPath(path)|, 2
    {
      var m := Made(log, paths, path, true);
      Effect(if safe || m.outcome.Ok? then Ok(()) else Err(m.outcome.error), m.log, m.paths)
    }

    /**
     * The whole run of `mkdir(path, make_parents)` from the log `log` and the cache `paths`:
     * the parent is resolved (creating it first when allowed), then the folder is POSTed.
     */
    ghost function Made(log: seq<Exchange>, paths: map<string, string>, path: string, makeParents: bool): Effect<string>
      decreases |SplitPath(path)|, 1
    {
      var res := Resolved(log, paths, path, makeParents);
      if res.outcome.Err? then Effect(Err(res.outcome.error), res.log, res.paths)
      else Posted(res.log, res.paths, path)
    }

    /**
     * Resolving the parent sends requests exactly when `makeParents` is set and the parent is not
     * cached, and every request it sends is a POST: the missing folders are created first.
     */
    lemma {:induction false} ResolvedPosts(log: seq<Exchange>, paths: map<string, string>, path: string, makeParents: bool)
      decreases |SplitPath(path)|, 0
      ensures var res := Resolved(log, paths, path, makeParents);
        Extends(log, res.log) && forall i :: |log| <= i < |res.log| ==> res.log[i].request.verb == POST
      ensures |log| < |Resolved(log, paths, path, makeParents).log| <==>
        |SplitPath(path)| >= 2 && makeParents && ParentPath(SplitPath(path)) !in paths
    {
      var parts := SplitPath(path);
      if |parts| >= 2 && makeParents && ParentPath(parts) !in paths {
        ParentPathParts(path);
        MadePosts(log, paths, ParentPath(parts), true);
      }
    }

    /**
     * `mkdir` sends nothing only when it raises `KeyError` on a missing parent without
     * `makeParents`; everything it sends, the parents' folders included, is a POST.
     */
    lemma {:induction false} MadePosts(log: seq<Exchange>, paths: map<string, string>, path: string, makeParents: bool)
      decreases |SplitPath(path)|, 1
      ensures var m := Made(log, paths, path, makeParents);
        Extends(log, m.log) && forall i :: |log| <= i < |m.log| ==> m.log[i].request.verb == POST
      ensures |log| < |Made(log, paths, path, makeParents).log| <==>
        !(|SplitPath(path)| >= 2 && !makeParents && ParentPath(SplitPath(path)) !in paths)
    {
      var res := Resolved(log, paths, path, makeParents);
      ResolvedPosts(log, paths, path, makeParents);
      if res.outcome.Ok? {
        var m := Posted(res.log, res.paths, path);
        PostedPosts(res.log, res.paths, path);
        ExtendsTrans(log, res.log, m.log);
        forall i | |log| <= i < |m.log| ensures m.log[i].request.verb == POST {
          if i < |res.log| {
            assert m.log[i] == m.log[..|res.log|][i];
          }
        }
      }
    }

    /** The folder POST appends at least one exchange, every one of them a POST. */
    lemma PostedPosts(log: seq<Exchange>, paths: map<string, string>, path: string)
      ensures var m := Posted(log, paths, path);
        Extends(log, m.log) && |log| < |m.log| && forall i :: |log| <= i < |m.log| ==> m.log[i].request.verb == POST
    {
      var parts := SplitPath(path);
      var endpoint := FolderEndpoint(host, driveId, ParentIdIn(paths, parts));
      var reply := Call(remote, log, POST, endpoint, Some(FolderDetails(Leaf(parts))), None, JsonContent, DefaultRetries);
      assert Posted(log, paths, path).log == reply.log;
      CallSends(remote, log, POST, endpoint, Some(FolderDetails(Leaf(parts))), None, JsonContent);
      forall i | |log| <= i < |reply.log| ensures reply.log[i].request.verb == POST {
        assert Sends(reply.log[i].request, POST, endpoint, Some(FolderDetails(Leaf(parts))), None, JsonContent);
      }
    }

    /**
     * `mkdir(path, make_parents)`: post a folder named after the last component of `path`,
     * at the drive root or under the parent folder, and cache the new id under `path` exactly
     * as given.
     */
    method Mkdir(path: string, makeParents: bool) returns (r: Result<string, Error>)
      modifies this`log, this`paths
      decreases |SplitPath(path)|, 1
      ensures Effect(r, log, paths) == Made(old(log), old(paths), path, makeParents)
      ensures Extends(old(log), log)
      ensures KeepsOthers(old(paths), paths, path)
      ensures paths.Keys <= old(paths).Keys + {path} + Ancestors(path)
      ensures r.Ok? ==> path in paths && paths[path] == r.value
      ensures r.Ok? ==> |old(log)| < |log| && FolderPosted(path, r.value)
      ensures r.Ok? && |SplitPath(path)| >= 2 ==> ParentPath(SplitPath(path)) in paths
      ensures r.Err? ==> (path in paths <==> path in old(paths))
      ensures |SplitPath(path)| == 1 || ParentPath(SplitPath(path)) in paths ==>
        exists mid, midPaths :: Extends(old(log), mid) && PostedFrom(mid, midPaths, path, r)
      ensures |SplitPath(path)| == 1 || ParentPath(SplitPath(path)) in old(paths) ==> PostedFrom(old(log), old(paths), path, r)
      ensures |SplitPath(path)| >= 2 && ParentPath(SplitPath(path)) !in paths ==> r.Err?
      ensures |SplitPath(path)| >= 2 && !makeParents && ParentPath(SplitPath(path)) !in old(paths) ==>
        r == Err(MissingKey(ParentPath(SplitPath(path)))) && log == old(log) && paths == old(paths)
    {
      var parts := SplitPath(path);
      NotOwnAncestor(path);
      if |parts| >= 2 {
        ParentAncestors(path);
      }
      var parentId := ParentFolder(path, makeParents);
      if parentId.Err? {
        r := Err(parentId.error);
      } else {
        ghost var mid, midPaths := log, paths;
        r := PostAndCache(path, parentId.value);
        assert PostedFrom(mid, midPaths, path, r);
        ExtendsTrans(old(log), mid, log);
        KeepsThenOthers(old(paths), midPaths, paths, path);
      }
    }

    /** The end of `mkdir`: POST the folder under the resolved parent and cache its id. */
    method PostAndCache(path: string, parentId: Option<string>) returns (r: Result<string, Error>)
      requires parentId == ParentIdIn(paths, SplitPath(path))
      modifies this`log, this`paths
      ensures PostedFrom(old(log), old(paths), path, r)
      ensures paths == if r.Ok? then old(paths)[path := r.value] else old(paths)
      ensures KeepsOthers(old(paths), paths, path)
      ensures Extends(old(log), log)
      ensures r.Ok? ==> |old(log)| < |log| && FolderPosted(path, r.value)
    {
      var parts := SplitPath(path);
      NotOwnAncestor(path);
      if |parts| >= 2 {
        ParentAncestors(path);
      }
      r := PostFolder(parentId, Leaf(parts));
      if r.Ok? {
        paths := paths[path := r.value];
        assert ParentIdIn(paths, parts) == ParentIdIn(old(paths), parts);
        assert FolderPosted(path, r.value);
      }
    }

    /** The request `mkdir` ends with: POST a folder named `name` into the parent folder. */
    method PostFolder(parentId: Option<string>, name: string) returns (r: Result<string, Error>)
      modifies this`log
      ensures Extends(old(log), log) && |old(log)| < |log|
      ensures var reply := Call(remote, old(log), POST, FolderEndpoint(host, driveId, parentId), Some(FolderDetails(name)), None,
                                JsonContent, DefaultRetries);
        log == reply.log && r == IdOf(reply.outcome)
      ensures Sends(log[|log| - 1].request, POST, FolderEndpoint(host, driveId, parentId), Some(FolderDetails(name)), None, JsonContent)
      ensures r.Ok? ==> AnsweredWithId(log, POST, FolderEndpoint(host, driveId, parentId), Some(FolderDetails(name)), r.value)
    {
      r := SendForId(POST, FolderEndpoint(host, driveId, parentId), Some(FolderDetails(name)));
    }

    /** `SafeSharePoint.mkdir`: `mkdir`, with any failure swallowed. */
    method SafeMkdir(path: string, makeParents: bool)
      requires safe
      modifies this`log, this`paths
      decreases |SplitPath(path)|, 2
      ensures log == Made(old(log), old(paths), path, makeParents).log
      ensures paths == Made(old(log), old(paths), path, makeParents).paths
      ensures Extends(old(log), log)
      ensures KeepsOthers(old(paths), paths, path)
      ensures paths.Keys <= old(paths).Keys + {path} + Ancestors(path)
    {
      var outcome := Mkdir(path, makeParents);
    }

    /**
     * The end of `upload` once the parent folder is resolved, from the log `mid`: the PUT of
     * the content under the encoded last component, at the drive root or under the parent's
     * cached id; its response is returned only for an item below the root.
     */
    ghost predicate PutFrom(mid: seq<Exchange>, local: string, remotePath: string, r: Result<Option<Response>, Error>)
      reads this`log, this`paths
    {
      var parts := SplitPath(remotePath);
      var reply := Call(remote, mid, PUT, ContentEndpoint(driveId, ParentIdIn(paths, parts), UriEncode(Leaf(parts))),
                        None, Some(local), OctetStream, DefaultRetries);
      && log == reply.log
      && r == (if reply.outcome.Err? then Err(reply.outcome.error) else if |parts| == 1 then Ok(None) else Ok(Some(reply.outcome.value)))
    }

    /**
     * The content PUT `upload` ends with, from the log `log` and the cache `paths`: the cache is
     * left as it is, and the response is returned only for an item below the root.
     */
    ghost function Put(log: seq<Exchange>, paths: map<string, string>, local: string, remotePath: string): Effect<Option<Response>>
    {
      var parts := SplitPath(remotePath);
      var reply := Call(remote, log, PUT, ContentEndpoint(driveId, ParentIdIn(paths, parts), UriEncode(Leaf(parts))),
                        None, Some(local), OctetStream, DefaultRetries);
      Effect(if reply.outcome.Err? then Err(reply.outcome.error) else if |parts| == 1 then Ok(None) else Ok(Some(reply.outcome.value)),
             reply.log, paths)
    }

    /**
     * The whole run of `upload(local, remote, make_parents)` from the log `log` and the cache
     * `paths`: the parent is resolved (creating it first when allowed), then the content is PUT.
     */
    ghost function Uploaded(log: seq<Exchange>, paths: map<string, string>, local: string, remotePath: string,
                            makeParents: bool): Effect<Option<Response>>
    {
      var res := Resolved(log, paths, remotePath, makeParents);
      if res.outcome.Err? then Effect(Err(res.outcome.error), res.log, res.paths)
      else Put(res.log, res.paths, local, remotePath)
    }

    /**
     * The last exchange PUT the content of `local` under the encoded last component of
     * `remotePath`, at the drive root or under its cached parent.
     */
    ghost predicate ContentPut(local: string, remotePath: string)
      reads this`log, this`paths
    {
      && |log| > 0
      && Sends(log[|log| - 1].request, PUT,
               ContentEndpoint(driveId, ParentIdIn(paths, SplitPath(remotePath)), UriEncode(Leaf(SplitPath(remotePath)))),
               None, Some(local), OctetStream)
    }

    /**
     * `upload(local, remote, make_parents)`: PUT the content of `local` under the encoded last
     * component of `remote`, at the drive root or under the parent folder. The response is
     * returned only for an item below the root; nothing is cached for the file itself.
     */
    method Upload(local: string, remotePath: string, makeParents: bool) returns (r: Result<Option<Response>, Error>)
      modifies this`log, this`paths
      ensures Effect(r, log, paths) == Uploaded(old(log), old(paths), local, remotePath, makeParents)
      ensures Extends(old(log), log)
      ensures forall p :: p in old(paths) ==> p in paths && paths[p] == old(paths)[p]
      ensures paths.Keys <= old(paths).Keys + Ancestors(remotePath)
      ensures r.Ok? ==> (r.value.None? <==> |SplitPath(remotePath)| == 1)
      ensures r.Ok? ==> |old(log)| < |log| && ContentPut(local, remotePath)
      ensures r.Ok? && r.value.Some? ==> RespondedWith(log, r.value.value)
      ensures r.Ok? && |SplitPath(remotePath)| >= 2 ==> ParentPath(SplitPath(remotePath)) in paths
      ensures |SplitPath(remotePath)| == 1 || ParentPath(SplitPath(remotePath)) in paths ==>
        exists mid :: Extends(old(log), mid) && PutFrom(mid, local, remotePath, r)
      ensures |SplitPath(remotePath)| == 1 || ParentPath(SplitPath(remotePath)) in old(paths) ==>
        PutFrom(old(log), local, remotePath, r) && paths == old(paths)
      ensures |SplitPath(remotePath)| >= 2 && ParentPath(SplitPath(remotePath)) !in paths ==> r.Err?
      ensures |SplitPath(remotePath)| >= 2 && !makeParents && ParentPath(SplitPath(remotePath)) !in old(paths) ==>
        r == Err(MissingKey(ParentPath(SplitPath(remotePath)))) && log == old(log) && paths == old(paths)
    {
      var parentId := ParentFolder(remotePath, makeParents);
      if parentId.Err? {
        r := Err(parentId.error);
      } else {
        ghost var mid := log;
        r := PutUnder(local, remotePath, parentId.value);
        assert PutFrom(mid, local, remotePath, r);
        ExtendsTrans(old(log), mid, log);
      }
    }

    /** The end of `upload`: PUT the content under the resolved parent; the root gets no response back. */
    method PutUnder(local: string, remotePath: string, parentId: Option<string>) returns (r: Result<Option<Response>, Error>)
      requires parentId == ParentIdIn(paths, SplitPath(remotePath))
      modifies this`log
      ensures PutFrom(old(log), local, remotePath, r)
      ensures Extends(old(log), log) && |old(log)| < |log|
      ensures r.Ok? ==> (r.value.None? <==> |SplitPath(remotePath)| == 1)
      ensures ContentPut(local, remotePath)
      ensures r.Ok? && r.value.Some? ==> RespondedWith(log, r.value.value)
    {
      var parts := SplitPath(remotePath);
      var sent := PutContent(local, parentId, UriEncode(Leaf(parts)));
      r := if sent.Err? then Err(sent.error) else if |parts| == 1 then Ok(None) else Ok(Some(sent.value));
    }

    /** The request `upload` ends with: PUT the content of `local` as `filename` in the folder. */
    method PutContent(local: string, parentId: Option<string>, filename: string) returns (r: Result<Response, Error>)
      modifies this`log
      ensures Extends(old(log), log) && |old(log)| < |log|
      ensures var reply := Call(remote, old(log), PUT, ContentEndpoint(driveId, parentId, filename), None, Some(local),
                                OctetStream, DefaultRetries);
        log == reply.log && r == reply.outcome
      ensures Sends(log[|log| - 1].request, PUT, ContentEndpoint(driveId, parentId, filename), None, Some(local), OctetStream)
      ensures r.Ok? ==> r.value == log[|log| - 1].response
    {
      r := Send(PUT, ContentEndpoint(driveId, parentId, filename), None, Some(local), OctetStream);
    }

    /** `SafeSharePoint.upload`: `upload`, with any failure swallowed. */
    method SafeUpload(local: string, remotePath: string, makeParents: bool)
      requires safe
      modifies this`log, this`paths
      ensures log == Uploaded(old(log), old(paths), local, remotePath, makeParents).log
      ensures paths == Uploaded(old(log), old(paths), local, remotePath, makeParents).paths
      ensures Extends(old(log), log)
      ensures forall p :: p in old(paths) ==> p in paths && paths[p] == old(paths)[p]
      ensures paths.Keys <= old(paths).Keys + Ancestors(remotePath)
    {
      var outcome := Upload(local, remotePath, makeParents);
    }

    /** `loader(source, fn)`: register a loader for `source` (the callable is not modelled). */
    method Loader(source: string)
      modifies this`loaders
      ensures loaders == old(loaders) + {source}
    {
      loaders := loaders + {source};
    }

    /**
     * The scan of `list_columns` over a fetched listing: each column is stored in the cache
     * under its name as it is read, until one without a name raises.
     */
    method StoreColumns(cols: seq<Value>) returns (index: Indexed)
      modifies this`columns
      requires columns == Some(map[])
      ensures index == Index(cols) && columns == Some(index.columns)
    {
      var stored: map<string, Value> := map[];
      for i := 0 to |cols|
        invariant Index(cols[..i]) == Indexed(stored, None)
        invariant columns == Some(stored)
      {
        assert cols[..i + 1][..i] == cols[..i];
        var name := TextMember(cols[i], "name");
        if name.Err? {
          IndexStops(cols, i + 1);
          return Indexed(stored, Some(name.error));
        }
        stored := stored[name.value := cols[i]];
        columns := Some(stored);
      }
      assert cols[..|cols|] == cols;
      return Indexed(stored, None);
    }

    /** The log `list_columns()` leaves, from the log `before` and the cache `cached`. */
    function ListedLog(before: seq<Exchange>, cached: Option<map<string, Value>>): seq<Exchange>
    {
      if cached.Some? then before else Listing(remote, before, ColumnsEndpoint(host, site, libraryId)).log
    }

    /**
     * The cache `list_columns()` leaves: a cached index stays as it is; otherwise the cache is
     * emptied and holds what the scan of the listing stored before it finished or raised.
     */
    function ListedCache(before: seq<Exchange>, cached: Option<map<string, Value>>): map<string, Value>
    {
      if cached.Some? then cached.value
      else match Listing(remote, before, ColumnsEndpoint(host, site, libraryId)).outcome
        case Err(_) => map[]
        case Ok(cols) => Index(cols).columns
    }

    /** What `list_columns()` returns or raises; what it returns is the cache it leaves. */
    function ListedOutcome(before: seq<Exchange>, cached: Option<map<string, Value>>): (r: Result<map<string, Value>, Error>)
      ensures r.Ok? ==> r.value == ListedCache(before, cached)
      ensures cached.Some? ==> r == Ok(cached.value)
    {
      if cached.Some? then Ok(cached.value)
      else match Listing(remote, before, ColumnsEndpoint(host, site, libraryId)).outcome
        case Err(e) => Err(e)
        case Ok(cols) => if Index(cols).error.Some? then Err(Index(cols).error.value) else Ok(Index(cols).columns)
    }

    /**
     * `list_columns(force_reload)`: when nothing is cached or a reload is forced, empty the
     * cache, GET the library's columns and store each under its name; a failure leaves the
     * cache as far as it got.
     */
    method ListColumns(forceReload: bool) returns (r: Result<map<string, Value>, Error>)
      modifies this`log, this`columns
      ensures var cached := if forceReload then None else old(columns);
        && log == ListedLog(old(log), cached) && columns == Some(ListedCache(old(log), cached))
        && r == ListedOutcome(old(log), cached)
      ensures columns.Some? && Extends(old(log), log)
      ensures old(columns).Some? && !forceReload ==> r == Ok(old(columns).value) && log == old(log) && columns == old(columns)
      ensures r.Ok? ==> columns == Some(r.value)
    {
      if columns.Some? && !forceReload {
        return Ok(columns.value);
      }
      columns := Some(map[]);
      var sent := Send(GET, ColumnsEndpoint(host, site, libraryId), None, None, JsonContent);
      var entries := if sent.Ok? then Entries(sent.value) else Err(sent.error);
      if entries.Ok? {
        var index := StoreColumns(entries.value);
        r := if index.error.Some? then Err(index.error.value) else Ok(index.columns);
      } else {
        r := Err(entries.error);
      }
    }

    /** `SafeSharePoint.list_columns`: `list_columns`, with any failure swallowed. */
    method SafeListColumns(forceReload: bool)
      requires safe
      modifies this`log, this`columns
      ensures var cached := if forceReload then None else old(columns);
        log == ListedLog(old(log), cached) && columns == Some(ListedCache(old(log), cached))
      ensures columns.Some? && Extends(old(log), log)
      ensures old(columns).Some? && !forceReload ==> log == old(log) && columns == old(columns)
    {
      var outcome := ListColumns(forceReload);
    }

    /** `self.list_columns()` as the base operations call it: the safe version on a safe object. */
    method ListColumnsViaSelf() returns (r: Result<(), Error>)
      modifies this`log, this`columns
      ensures log == ListedLog(old(log), old(columns)) && columns == Some(ListedCache(old(log), old(columns)))
      ensures r == if safe || ListedOutcome(old(log), old(columns)).Ok? then Ok(()) else Err(ListedOutcome(old(log), old(columns)).error)
      ensures columns.Some? && Extends(old(log), log)
      ensures old(columns).Some? ==> log == old(log) && columns == old(columns) && r.Ok?
    {
      if safe {
        SafeListColumns(false);
        return Ok(());
      }
      var listed := ListColumns(false);
      return if listed.Ok? then Ok(()) else Err(listed.error);
    }

    /**
     * How `delete_column` ends once the columns are listed, from the log `before` and the cache
     * `cache`: a name that is not cached sends nothing; reading the target's id may raise;
     * otherwise the DELETE of that id is sent.
     */
    ghost predicate DeletedFrom(before: seq<Exchange>, cache: map<string, Value>, name: string, r: Result<(), Error>)
      reads this`log
    {
      match DeleteTarget(cache, name)
      case Err(e) => r == Err(e) && log == before
      case Ok(None) => r == Ok(()) && log == before
      case Ok(Some(id)) =>
        var reply := Call(remote, before, DELETE, "/sites/" + host + "/columns/" + id, None, None, JsonContent, DefaultRetries);
        log == reply.log && r == Done(reply.outcome)
    }

    /**
     * `delete_column(name)`: list the columns if needed, then, when `name` is among them,
     * DELETE the column whose id `DeleteTarget` reads (the one cached under `"name"`).
     */
    method DeleteColumn(name: string) returns (r: Result<(), Error>)
      modifies this`log, this`columns
      ensures columns == Some(ListedCache(old(log), old(columns))) && Extends(old(log), log)
      ensures var listed := ListedOutcome(old(log), old(columns));
        if listed.Err? && !safe then r == Err(listed.error) && log == ListedLog(old(log), old(columns))
        else DeletedFrom(ListedLog(old(log), old(columns)), ListedCache(old(log), old(columns)), name, r)
      ensures r.Ok? ==> DeleteTarget(columns.value, name).Ok?
      ensures r.Ok? && DeleteTarget(columns.value, name).value.Some? ==>
        && |old(log)| < |log|
        && Sends(log[|log| - 1].request, DELETE, "/sites/" + host + "/columns/" + DeleteTarget(columns.value, name).value.value,
                 None, None, JsonContent)
      ensures safe && name !in columns.value ==> r.Ok?
      ensures old(columns).Some? && name !in old(columns).value ==> r.Ok? && log == old(log)
    {
      var listed := ListColumnsViaSelf();
      if listed.Err? {
        return Err(listed.error);
      }
      var target := DeleteTarget(columns.value, name);
      if target.Err? {
        return Err(target.error);
      }
      if target.value.Some? {
        var sent := Send(DELETE, "/sites/" + host + "/columns/" + target.value.value, None, None, JsonContent);
        return if sent.Ok? then Ok(()) else Err(sent.error);
      }
      return Ok(());
    }

    /** `SafeSharePoint.delete_column`: `delete_column`, with any failure swallowed. */
    method SafeDeleteColumn(name: string)
      requires safe
      modifies this`log, this`columns
      ensures columns == Some(ListedCache(old(log), old(columns)))
      ensures exists r :: DeletedFrom(ListedLog(old(log), old(columns)), ListedCache(old(log), old(columns)), name, r)
    {
      var outcome := DeleteColumn(name);
    }

    /**
     * The last request saved `column` as the column `name`: a PATCH of the cached column of
     * that name, or a POST of a new one.
     */
    ghost predicate Saved(name: string, column: Dict)
      requires columns.Some?
      reads this`log, this`columns
    {
      && log != []
      && (name in columns.value ==>
            && StrField(columns.value[name], "id").Some?
            && Sends(log[|log| - 1].request, PATCH,
                     ColumnsEndpoint(host, site, libraryId) + "/" + StrField(columns.value[name], "id").value,
                     Some(Obj(column)), None, JsonContent))
      && (name !in columns.value ==>
            Sends(log[|log| - 1].request, POST, ColumnsEndpoint(host, site, libraryId), Some(Obj(column)), None, JsonContent))
    }

    /**
     * How `create_column` ends, from the log `before` and the column cache `cache`: a column
     * of that name is PATCHed at its id (reading the id may raise); otherwise the column is
     * POSTed.
     */
    ghost predicate SavedFrom(before: seq<Exchange>, cache: map<string, Value>, name: string, column: Dict, r: Result<(), Error>)
      reads this`log
    {
      if name in cache then
        match TextMember(cache[name], "id")
        case Err(e) => r == Err(e) && log == before
        case Ok(id) =>
          var reply := Call(remote, before, PATCH, ColumnsEndpoint(host, site, libraryId) + "/" + id, Some(Obj(column)), None,
                            JsonContent, DefaultRetries);
          log == reply.log && r == Done(reply.outcome)
      else
        var reply := Call(remote, before, POST, ColumnsEndpoint(host, site, libraryId), Some(Obj(column)), None,
                          JsonContent, DefaultRetries);
        log == reply.log && r == Done(reply.outcome)
    }

    /** The PATCH of an existing column of that name, or the POST of a new one. */
    method SaveColumn(name: string, column: Dict) returns (r: Result<(), Error>)
      requires columns.Some?
      modifies this`log
      ensures SavedFrom(old(log), columns.value, name, column, r)
      ensures Extends(old(log), log)
      ensures r.Ok? ==> |old(log)| < |log| && Saved(name, column)
    {
      if name in columns.value {
        var id := TextMember(columns.value[name], "id");
        if id.Err? {
          return Err(id.error);
        }
        var sent := Send(PATCH, ColumnsEndpoint(host, site, libraryId) + "/" + id.value, Some(Obj(column)), None, JsonContent);
        return if sent.Ok? then Ok(()) else Err(sent.error);
      }
      var sent := Send(POST, ColumnsEndpoint(host, site, libraryId), Some(Obj(column)), None, JsonContent);
      return if sent.Ok? then Ok(()) else Err(sent.error);
    }

    /**
     * The definition `create_column` sends: `assign(defaults, details)`, which raises when
     * `details` is not a mapping or puts a mapping over a default.
     */
    static method Definition(name: string, details: Value) returns (r: Result<Dict, Error>)
      ensures r.Ok? <==> details.Obj? && Safe([Defaults(name), details.fields])
      ensures r.Ok? ==> r.value == MergeAll([Defaults(name), details.fields])
      ensures r.Err? ==> r.error == WrongType("details")
    {
      if !details.Obj? || !Safe([Defaults(name), details.fields]) {
        return Err(WrongType("details"));
      }
      var column := Assign([Defaults(name), details.fields]);
      return Ok(column);
    }

    /**
     * `create_column(name, details)`: alias `name` to itself, merge `details` over the default
     * definition with `assign` (which raises when `details` is not a mapping or puts a mapping
     * over a default), list the columns if needed, then PATCH the existing column of that name
     * or POST a new one.
     */
    method CreateColumn(name: string, details: Value) returns (r: Result<(), Error>)
      modifies this`log, this`columns, this`aliases
      ensures aliases == old(aliases)[name := name]
      ensures Extends(old(log), log)
      ensures !details.Obj? || !Safe([Defaults(name), details.fields]) ==>
        r == Err(WrongType("details")) && log == old(log) && columns == old(columns)
      ensures details.Obj? && Safe([Defaults(name), details.fields]) ==>
        && columns == Some(ListedCache(old(log), old(columns)))
        && var listed := ListedOutcome(old(log), old(columns));
           if listed.Err? && !safe then r == Err(listed.error) && log == ListedLog(old(log), old(columns))
           else SavedFrom(ListedLog(old(log), old(columns)), ListedCache(old(log), old(columns)), name,
                          MergeAll([Defaults(name), details.fields]), r)
      ensures r.Ok? ==>
        && details.Obj? && columns.Some? && |old(log)| < |log|
        && Saved(name, MergeAll([Defaults(name), details.fields]))
    {
      aliases := aliases[name := name];
      var column := Definition(name, details);
      if column.Err? {
        return Err(column.error);
      }
      r := ListAndSave(name, column.value);
    }

    /** The end of `create_column`: list the columns if needed, then save `column` under `name`. */
    method ListAndSave(name: string, column: Dict) returns (r: Result<(), Error>)
      modifies this`log, this`columns
      ensures Extends(old(log), log)
      ensures columns == Some(ListedCache(old(log), old(columns)))
      ensures var listed := ListedOutcome(old(log), old(columns));
        if listed.Err? && !safe then r == Err(listed.error) && log == ListedLog(old(log), old(columns))
        else SavedFrom(ListedLog(old(log), old(columns)), ListedCache(old(log), old(columns)), name, column, r)
      ensures r.Ok? ==> |old(log)| < |log| && Saved(name, column)
    {
      var listed := ListColumnsViaSelf();
      if listed.Err? {
        return Err(listed.error);
      }
      ghost var before := log;
      r := SaveColumn(name, column);
      ExtendsTrans(old(log), before, log);
    }

    /** `SafeSharePoint.create_column`: `create_column`, with any failure swallowed. */
    method SafeCreateColumn(name: string, details: Value)
      requires safe
      modifies this`log, this`columns, this`aliases
      ensures aliases == old(aliases)[name := name]
      ensures Extends(old(log), log)
      ensures !details.Obj? || !Safe([Defaults(name), details.fields]) ==> log == old(log) && columns == old(columns)
      ensures details.Obj? && Safe([Defaults(name), details.fields]) ==>
        && columns == Some(ListedCache(old(log), old(columns)))
        && exists r :: SavedFrom(ListedLog(old(log), old(columns)), ListedCache(old(log), old(columns)), name,
                                 MergeAll([Defaults(name), details.fields]), r)
    {
      var outcome := CreateColumn(name, details);
    }

    /** `alias(key, column)`: values under `key` go to `column`. */
    method Alias(key: string, column: string)
      modifies this`aliases
      ensures aliases == old(aliases)[key := column]
    {
      aliases := aliases[key := column];
    }

    /**
     * What `annotate(rel_path, attrs)` exchanges from the log `before`: the GET of the item at
     * the rooted path, whose `id` is read, then the PATCH of the de-aliased attributes into that
     * item's list-item fields.
     */
    ghost function Annotation(before: seq<Exchange>, relPath: string, attrs: Attrs): Reply<Response>
      reads this`aliases
    {
      var get := Call(remote, before, GET, ItemEndpoint(driveId, relPath), None, None, JsonContent, DefaultRetries);
      match IdOf(get.outcome)
      case Err(e) => Reply(Err(e), get.log)
      case Ok(itemId) =>
        Call(remote, get.log, PATCH, FieldsEndpoint(host, driveId, itemId), Some(Strings(DeAliased(aliases, attrs))), None,
             JsonContent, DefaultRetries)
    }

    /**
     * A successful annotation ends with the PATCH of the de-aliased attributes, and returns that
     * PATCH's response.
     */
    lemma AnnotationPatches(before: seq<Exchange>, relPath: string, attrs: Attrs)
      ensures Concludes(Annotation(before, relPath, attrs), PATCH, BodyOf(Some(Strings(DeAliased(aliases, attrs))), None))
    {
      var get := Call(remote, before, GET, ItemEndpoint(driveId, relPath), None, None, JsonContent, DefaultRetries);
      var id := IdOf(get.outcome);
      if id.Ok? {
        var fields := Some(Strings(DeAliased(aliases, attrs)));
        var patch := Call(remote, get.log, PATCH, FieldsEndpoint(host, driveId, id.value), fields, None, JsonContent, DefaultRetries);
        assert Annotation(before, relPath, attrs) == patch;
        CallLast(remote, get.log, PATCH, FieldsEndpoint(host, driveId, id.value), fields, None, JsonContent);
      } else {
        assert Annotation(before, relPath, attrs).outcome.Err?;
      }
    }

    /** The first exchange after `before` is the GET of the item at the rooted `relPath`. */
    ghost predicate FetchedItem(before: seq<Exchange>, relPath: string)
      reads this`log
    {
      |before| < |log| && Sends(log[|before|].request, GET, ItemEndpoint(driveId, relPath), None, None, JsonContent)
    }

    /**
     * `annotate(rel_path, attrs)`: GET the item at the rooted path, then PATCH its list-item
     * fields with the de-aliased attributes.
     */
    method Annotate(relPath: string, attrs: Attrs) returns (r: Result<Response, Error>)
      modifies this`log
      ensures Extends(old(log), log) && |old(log)| < |log|
      ensures FetchedItem(old(log), relPath)
      ensures log == Annotation(old(log), relPath, attrs).log && r == Annotation(old(log), relPath, attrs).outcome
    {
      var itemId := SendForId(GET, ItemEndpoint(driveId, relPath), None);
      if itemId.Err? {
        r := Err(itemId.error);
      } else {
        ghost var before := log;
        r := PatchFields(itemId.value, attrs);
        ExtendsTrans(old(log), before, log);
        assert log[|old(log)|] == before[|old(log)|];
      }
    }

    /** The second half of `annotate`: PATCH the de-aliased attributes into the item's fields. */
    method PatchFields(itemId: string, attrs: Attrs) returns (r: Result<Response, Error>)
      modifies this`log
      ensures var reply := Call(remote, old(log), PATCH, FieldsEndpoint(host, driveId, itemId),
                                Some(Strings(DeAliased(aliases, attrs))), None, JsonContent, DefaultRetries);
        log == reply.log && r == reply.outcome
      ensures Extends(old(log), log) && |old(log)| < |log|
      ensures Sends(log[|log| - 1].request, PATCH, FieldsEndpoint(host, driveId, itemId),
                    Some(Strings(DeAliased(aliases, attrs))), None, JsonContent)
      ensures log[|log| - 1].request.verb == PATCH
      ensures log[|log| - 1].request.body == BodyOf(Some(Strings(DeAliased(aliases, attrs))), None)
      ensures r.Ok? ==> r.value == log[|log| - 1].response
    {
      var fields := DeAlias(aliases, attrs);
      r := Send(PATCH, FieldsEndpoint(host, driveId, itemId), Some(Strings(fields)), None, JsonContent);
    }

    /** `SafeSharePoint.annotate`: `annotate`, with any failure swallowed. */
    method SafeAnnotate(relPath: string, attrs: Attrs)
      requires safe
      modifies this`log
      ensures log == Annotation(old(log), relPath, attrs).log
      ensures Extends(old(log), log) && |old(log)| < |log|
      ensures FetchedItem(old(log), relPath)
    {
      var outcome := Annotate(relPath, attrs);
    }

    /**
     * `load(src, src_uri, dst_file, attrs, make_parents)`: refuse a source without a loader,
     * count the load, run the loader (not modelled) and annotate the destination through
     * `self.annotate`.
     */
    method Load(src: string, srcUri: string, dstFile: string, attrs: Attrs, makeParents: bool) returns (r: Result<(), Error>)
      modifies this`log, this`n
      ensures if src in loaders then n == old(n) + 1 && Annotated(old(log), dstFile, attrs, r)
              else r == Err(UnhandledSource(src, srcUri, dstFile)) && log == old(log) && n == old(n)
      ensures src in loaders && safe ==> r.Ok?
    {
      if src in loaders {
        var count := ClockNext();
        r := AnnotateAs(dstFile, attrs);
      } else {
        r := Err(UnhandledSource(src, srcUri, dstFile));
      }
    }

    /**
     * What `self.annotate(rel_path, attrs)` leaves from the log `before`: the exchanges of
     * `Annotation`, the first of them the GET of the item, and, unless this object swallows
     * failures, the outcome of the PATCH.
     */
    ghost predicate Annotated(before: seq<Exchange>, relPath: string, attrs: Attrs, r: Result<(), Error>)
      reads this`log, this`aliases
    {
      && log == Annotation(before, relPath, attrs).log
      && r == (if safe then Ok(()) else Done(Annotation(before, relPath, attrs).outcome))
      && Extends(before, log) && |before| < |log|
      && FetchedItem(before, relPath)
    }

    /**
     * The end of `load`: `self.annotate(dst_file, attrs)`, dispatched to the safe variant, which
     * swallows any failure, when this object is a `SafeSharePoint`.
     */
    method AnnotateAs(relPath: string, attrs: Attrs) returns (r: Result<(), Error>)
      modifies this`log
      ensures Annotated(old(log), relPath, attrs, r)
    {
      if safe {
        SafeAnnotate(relPath, attrs);
        return Ok(());
      }
      var annotated := Annotate(relPath, attrs);
      return if annotated.Ok? then Ok(()) else Err(annotated.error);
    }

    /** `SafeSharePoint.load`: `load`, with any failure swallowed. */
    method SafeLoad(src: string, srcUri: string, dstFile: string, attrs: Attrs, makeParents: bool)
      requires safe
      modifies this`log, this`n
      ensures src !in loaders ==> log == old(log) && n == old(n)
      ensures src in loaders ==> n == old(n) + 1 && log == Annotation(old(log), dstFile, attrs).log && |old(log)| < |log|
      ensures src in loaders ==> FetchedItem(old(log), dstFile)
    {
      var outcome := Load(src, srcUri, dstFile, attrs, makeParents);
    }
  }

  /** Every request of a `call` with the default budget is the one asked for. */
  lemma CallSends(remote: Remote, log: seq<Exchange>, verb: Verb, endpoint: string,
                  jsonInput: Option<Value>, data: Option<string>, contentType: string)
    ensures var reply := Call(remote, log, verb, endpoint, jsonInput, data, contentType, DefaultRetries);
      forall i :: |log| <= i < |reply.log| ==> Sends(reply.log[i].request, verb, endpoint, jsonInput, data, contentType)
  {
    var reply := Call(remote, log, verb, endpoint, jsonInput, data, contentType, DefaultRetries);
    CallAttempts(remote, log, verb, endpoint, jsonInput, data, contentType, DefaultRetries);
    forall i | |log| <= i < |reply.log|
      ensures Sends(reply.log[i].request, verb, endpoint, jsonInput, data, contentType)
    {
      assert IsAttempt(remote, reply.log, i, verb, Absolute(endpoint), jsonInput, data, contentType);
    }
  }

  /**
   * On success, the reply's log ends with a request of this verb and body, whose response is the
   * one returned.
   */
  predicate Concludes(reply: Reply<Response>, verb: Verb, body: Body)
  {
    reply.outcome.Ok? ==>
      && |reply.log| > 0
      && reply.outcome.value == reply.log[|reply.log| - 1].response
      && reply.log[|reply.log| - 1].request.verb == verb
      && reply.log[|reply.log| - 1].request.body == body
  }

  /** A `call` that succeeds returns the response to its last request, which is the one asked for. */
  lemma CallLast(remote: Remote, log: seq<Exchange>, verb: Verb, endpoint: string,
                 jsonInput: Option<Value>, data: Option<string>, contentType: string)
    ensures Concludes(Call(remote, log, verb, endpoint, jsonInput, data, contentType, DefaultRetries), verb, BodyOf(jsonInput, data))
  {
    var reply := Call(remote, log, verb, endpoint, jsonInput, data, contentType, DefaultRetries);
    CallVerdict(remote, log, verb, endpoint, jsonInput, data, contentType, DefaultRetries);
    CallSends(remote, log, verb, endpoint, jsonInput, data, contentType);
    assert |log| <= |reply.log| - 1;
  }
}
