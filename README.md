# msgraph2 in Dafny

A model of `msgraph2/__init__.py`, a small client that synchronises local files and their
metadata into a SharePoint document library through the Microsoft Graph REST API, and proofs
about it.

The model follows the module's own structure:

- `wrappers.dfy`, `json.dfy`: `Option`/`Result`, and decoded JSON documents (`r.json()`).
  Python exceptions are `Err` values of `Api.Error`.
- `merge.dfy`: `assign`, the recursive dictionary merge. `Assign` is the imperative double loop
  with its recursive call. It is proved equal to the left fold `MergeAll`, and lemmas state what
  the fold keeps, which scalar wins and how nested mappings merge. `Safe` says when `assign`
  does not crash (a mapping merged over a scalar raises in Python).
- `api.dfy`: the `API` client. `Call` is `API.call`: absolute endpoint, fresh token, body
  choice, success statuses, and the auth-failure retry bounded by `retries`. The network is a
  `Remote` value (a server and a token provider, both functions of the exchange history).
  Every request is appended with its response to an exchange log. `Depaginate` is the
  `while` loop of `depaginate`, proved equal to the recursive `Follow`.
- `paths.dfy`: `sanitize_file_component`, `split_path`, `join_path` and `uri_encode`
  (`urllib.parse.quote(s, safe='')` over UTF-8), with round-trip lemmas.
- `attributes.dfy`: `de_alias`: flatten, `str.strip()`, cut to 255 characters, rename through
  the alias map. `DeAlias` is the loop, proved equal to the fold `DeAliased`.
- `lists.dfy`: what the library reads off its responses and the endpoints it addresses. This
  covers the library scan of the constructor, the column index of `list_columns`, the column
  `delete_column` targets, the definition `create_column` sends, and the folders `mkdir` may
  create on the way to a path.
- `library.dfy`: the `SharePoint` class. Its fields are the caches the Python object updates
  in place (`paths`, `aliases`, `columns`, `loaders`, `n`) and the exchange log. Each method,
  the `Safe…` wrappers included, states its new log as the `Call` replies of the requests it
  sends, and the new state of the caches. For `mkdir` and `upload` these are the ghost
  functions `Made` and `Uploaded`. They run the parent resolution `Resolved`, which, when
  `make_parents` is set and the parent is not cached, first runs `mkdir` on the parent through
  `self` (`ViaSelf`, recursively), and then the folder POST (`Posted`) or the content PUT
  (`Put`). `SafeSharePoint` is the same
  class with `safe` set. Its `Safe…` methods swallow every failure, and the calls the base
  methods make on `self` reach them. Those calls are the parent `mkdir`, the `list_columns`
  before a column change, and the `annotate` after a load.

Where the code and its documentation differ, the model follows the code:

- `json_input` is sent only when it is truthy (`if json_input:`), so an empty JSON object
  falls back to `data`.
- A root-level `upload` returns nothing even when it succeeds.
- `delete_column` reads the column cached under the literal key `"name"` (see Findings).
- The constructor keeps the last library with the requested name (`self.library = lib` runs
  for every match), not the first.
- `mkdir` of a path that is already cached POSTs again and overwrites `paths[path]` with the
  new id. Only the parent lookup consults the cache.
- When the retry budget is positive, the retry test on an error body raises `TypeError` for
  bodies that are not mappings (`'error' in e` on a number, or a subscript of a list or
  string). The model returns that error as `WrongType`.

## Model

| member | source | states |
|---|---|---|
| `Merge.MergeIntoEmpty` | msgraph2/__init__.py:6-14 | merging a mapping into `{}` gives that mapping back, at every depth |
| `Merge.MergeTwo` | msgraph2/__init__.py:6-14 | `assign(a, b)` is `b` merged into `a` |
| `Merge.MergeAllKeys` | msgraph2/__init__.py:8-13 | the keys of the result are exactly the keys of all inputs |
| `Merge.LastScalarWins` | msgraph2/__init__.py:12-13 | a key ends with the scalar of the last input that holds it |
| `Merge.NestedMerge` | msgraph2/__init__.py:10-11 | a key held only as mappings ends as the `assign` of those mappings, in order; it is present iff some input holds it |
| `Merge.SafeOrder` | msgraph2/__init__.py:10-11 | when `assign` does not crash, no input puts a mapping under a key an earlier input held as a scalar |
| `Merge.Assign` | msgraph2/__init__.py:6-14 | the double loop with its recursive call returns the left fold `MergeAll` of the inputs |
| `Merge.AssignStep` | msgraph2/__init__.py:9-13 | one pass of the key loop merges input `i` into the fold of the inputs before it |
| `Merge.AssignKey` | msgraph2/__init__.py:10-13 | a mapping is merged into `o.get(k, {})`; anything else replaces |
| `Merge.MergeKey` | msgraph2/__init__.py:10-13 | a scalar value replaces; a mapping value yields a mapping whose keys are those of `o.get(k, {})` and of the value |
| `Merge.MergeInto` | msgraph2/__init__.py:9-13 | one pass of the outer loop: the keys are those of both dictionaries, and a key only in the accumulator keeps its value |
| `Merge.MergeAll` | msgraph2/__init__.py:6-14 | `assign()` is `{}`; every key of the last input is in the result |
| `Api.ToDict` | msgraph2/__init__.py:100-105 | the diagnostic holds exactly the keys status, endpoint, json_input and response: the failure's status, the endpoint asked for, the JSON body sent (`None` when there was none) and the failure's response |
| `Api.BodyOf` | msgraph2/__init__.py:85-90 | a JSON body exactly when `json_input` is truthy; else the raw data when there is some; else no body |
| `Api.Bearer` | msgraph2/__init__.py:83 | the header is `Bearer ` followed by the token, or by `None` when there is none |
| `Api.AuthCheck` | msgraph2/__init__.py:96-97 | the retry test says "retry" exactly on an error object holding an authentication code; on a mapping whose `error` is absent or a mapping it never raises |
| `Api.AuthCheckRaises` | msgraph2/__init__.py:96 | the retry test raises `TypeError` on a scalar body, on a scalar `error` member, and on a list or text that contains `error` |
| `Api.Verdict` | msgraph2/__init__.py:92-105 | success exactly on 200/201/204, returning the response; a non-JSON error body is a decoding error; a `ProcessError` carries status, URL, request body and response; a `TypeError` only when the test ran and raised |
| `Api.Absolute` | msgraph2/__init__.py:78-79 | the URL always starts with the Graph root; an absolute endpoint is kept, a relative one is put under the root |
| `Api.RelativeEndpoint` | msgraph2/__init__.py:78-79 | an endpoint starting with `/` is put under the root |
| `Api.AbsoluteIdempotent` | msgraph2/__init__.py:78-79 | making an endpoint absolute twice is making it absolute once, so a retry addresses the same URL |
| `Api.Call` | msgraph2/__init__.py:76-105 | a call appends at least one exchange and never changes the log before it (its attempts are stated by `Api.CallAttempts`, its outcome by `Api.CallVerdict`) |
| `Api.CallAttempts` | msgraph2/__init__.py:92-98 | between 1 and `max(1, retries)` attempts, each with a fresh token at the same URL and body; all but the last were auth failures; a final auth failure means the budget was spent |
| `Api.CallVerdict` | msgraph2/__init__.py:92-105 | the outcome is `Verdict` of the last response received, at the absolute URL, with the retry test run iff the budget was positive |
| `Api.RetriesOnce` | msgraph2/__init__.py:96-98 | with `retries=2` against a server that always rejects the token: exactly two attempts, then `ProcessError` |
| `Api.NoRetryWithBudgetOne` | msgraph2/__init__.py:96-98 | with `retries=1`: exactly one attempt, then failure |
| `Api.PageOf` | msgraph2/__init__.py:69-73 | a page read off a response holds its `key` array, and a next link exactly when the response has `andthen`; `PageOfReads` states when it succeeds |
| `Api.PageOfReads` | msgraph2/__init__.py:69-73 | reading a page succeeds exactly when the response has a body whose `key` is an array and whose `andthen`, when present, is a string |
| `Api.GetPage` | msgraph2/__init__.py:69-72 | fetching a page extends the log and keeps its past |
| `Api.Follow` | msgraph2/__init__.py:68-74 | the recursive definition of the listing a chain yields; it extends the log and keeps its past |
| `Api.Rest` | msgraph2/__init__.py:71-73 | the values after a page; nothing when it has no next link; the log is only extended |
| `Api.FollowTwoPages` | msgraph2/__init__.py:68-74 | a two-page chain yields the first page's values followed by the second's, in arrival order |
| `Api.FollowChain` | msgraph2/__init__.py:68-74 | a chain of any number of pages, each reached through the previous page's next link, yields the values of all pages in order, with the log of the last GET |
| `Api.FollowStep` | msgraph2/__init__.py:71-73 | a page with a next link contributes its values, followed by those of the chain from that link |
| `Api.FollowLast` | msgraph2/__init__.py:71-74 | a page without a next link ends the listing with its own values |
| `Api.Depaginate` | msgraph2/__init__.py:68-74 | the `while` loop returns exactly the recursive listing `Follow` |
| `Paths.Sanitize` | msgraph2/__init__.py:148-150 | same length; every reserved character becomes `_`, every other is kept; the result is clean |
| `Paths.SanitizeFixesClean` | msgraph2/__init__.py:148-150 | a clean name is left as it is |
| `Paths.SanitizeIdempotent` | msgraph2/__init__.py:148-150 | sanitising twice is sanitising once |
| `Paths.Split` | msgraph2/__init__.py:159 | `split('/')` gives at least one piece and no piece holds a separator |
| `Paths.JoinSplit` | msgraph2/__init__.py:159-162 | joining the pieces of a split gives the string back |
| `Paths.SplitJoin` | msgraph2/__init__.py:159-162 | splitting the join of separator-free pieces gives the pieces back |
| `Paths.SplitPath` | msgraph2/__init__.py:156-159 | a path splits into at least one component, each free of reserved characters |
| `Paths.JoinWith` | msgraph2/__init__.py:260 | `sep.join(items)`: empty for no items, the item itself for one, and the items' total length plus one separator between each two; `JoinWithAppend` pins every item and separator |
| `Paths.JoinWithAppend` | msgraph2/__init__.py:260 | joining two non-empty runs of items is joining each and putting one separator between them |
| `Paths.Join` | msgraph2/__init__.py:162 | `'/'.join(ps)`: the pieces' total length plus one `/` between each two |
| `Paths.JoinPath` | msgraph2/__init__.py:161-162 | a joined path starts with `/` |
| `Paths.SplitJoinPath` | msgraph2/__init__.py:156-162 | splitting a joined path of clean components gives the components back |
| `Paths.ParentPathParts` | msgraph2/__init__.py:178 | the parent path splits into the components of the path minus the last one |
| `Paths.Utf8` | msgraph2/__init__.py:152-154 | one to four bytes per character, each below 256 |
| `Paths.PercentBytes` | msgraph2/__init__.py:152-154 | three characters per byte, all hex digits or `%` |
| `Paths.UriEncode` | msgraph2/__init__.py:152-154 | the result is at least as long, holds only unreserved characters and `%`, and so no `/` |
| `Paths.UriEncodeKeepsUnreserved` | msgraph2/__init__.py:152-154 | a name of unreserved characters is kept as it is |
| `Attributes.Lead` | msgraph2/__init__.py:262 | the count of leading whitespace: all of it whitespace, and the next character is not |
| `Attributes.Trail` | msgraph2/__init__.py:262 | the count of trailing whitespace: all of it whitespace, and the character before it is not |
| `Attributes.Strip` | msgraph2/__init__.py:262 | the result is the slice of `s` between leading and trailing whitespace and neither starts nor ends with whitespace |
| `Attributes.StripIdempotent` | msgraph2/__init__.py:262 | stripping twice is stripping once |
| `Attributes.IsSpaceAscii` | msgraph2/__init__.py:262 | on ASCII, `str.strip()` removes exactly tab, line feed, vertical tab, form feed, carriage return, `\x1c`-`\x1f` and space |
| `Attributes.Flatten` | msgraph2/__init__.py:259-260 | a string is kept; an empty list becomes `""`; a one-item list is that item; a longer list is its items joined with `", "`, as `FlattenAppend` states item by item |
| `Attributes.FlattenAppend` | msgraph2/__init__.py:259-260 | flattening the concatenation of two non-empty lists is flattening each with `", "` between them |
| `Attributes.Clean` | msgraph2/__init__.py:259-264 | at most 255 characters; the stripped text is kept iff it fits; otherwise its first 252 characters followed by `...` |
| `Attributes.CleanValue` | msgraph2/__init__.py:259-264 | the in-loop steps compute `Clean` |
| `Attributes.DeAliased` | msgraph2/__init__.py:256-269 | every value sent is at most 255 characters long |
| `Attributes.DeAliasedKeys` | msgraph2/__init__.py:266-267 | the columns are exactly the aliases of the keys that have one; other keys are dropped |
| `Attributes.DeAliasedLastWins` | msgraph2/__init__.py:258-267 | a column holds the cleaned value of the last entry aliased to it |
| `Attributes.DeAlias` | msgraph2/__init__.py:256-269 | the loop returns the fold `DeAliased`, every value at most 255 characters |
| `Lists.JsonOf` | msgraph2/__init__.py:133 | `r.json()` succeeds exactly on a JSON body and returns it |
| `Lists.Member` | msgraph2/__init__.py:129 | `j[key]` succeeds exactly when `j` is an object holding `key`; a missing key on an object is a `KeyError` |
| `Lists.TextMember` | msgraph2/__init__.py:129-134 | an id or name is read exactly when the member is a string, and it is that string |
| `Lists.IdOf` | msgraph2/__init__.py:279 | `r.json()['id']` succeeds exactly on a successful call whose JSON body has a string `id`, and returns it; a failed call's error is passed on |
| `Lists.Entries` | msgraph2/__init__.py:123 | a listing is the `value` array of a JSON body, and it fails exactly when the body has no `value` array |
| `Lists.Fetch` | msgraph2/__init__.py:132-133 | the GET extends the log and keeps its past |
| `Lists.Listing` | msgraph2/__init__.py:122-123 | the GET extends the log and keeps its past |
| `Lists.ListsEndpoint` | msgraph2/__init__.py:122 | the lists of the site, a relative endpoint put under the Graph root |
| `Lists.DriveEndpoint` | msgraph2/__init__.py:132 | the library's drive, below the library's own address |
| `Lists.ColumnsEndpoint` | msgraph2/__init__.py:223 | the library's columns, below the library's own address |
| `Lists.FolderEndpoint` | msgraph2/__init__.py:174-182 | the drive root's children, or the children of the parent item's id |
| `Lists.ContentEndpoint` | msgraph2/__init__.py:192-202 | the content of the named file under the drive root, or under the parent item's id |
| `Lists.ItemEndpoint` | msgraph2/__init__.py:279 | the item addressed by path below the drive root |
| `Lists.FieldsEndpoint` | msgraph2/__init__.py:283 | the list-item fields below the item's own address |
| `Lists.FolderDetails` | msgraph2/__init__.py:167-171 | the folder description holds exactly name, an empty `folder` and the replace conflict behaviour, and is truthy, so it is sent as JSON |
| `Lists.Selection` | msgraph2/__init__.py:123-125 | the scan succeeds iff every list has a `name`; a chosen list has the requested name |
| `Lists.SelectionLast` | msgraph2/__init__.py:123-125 | the last list with the requested name is the one kept |
| `Lists.SelectionStops` | msgraph2/__init__.py:123-124 | once a list without a name raises, later lists change nothing |
| `Lists.SelectionNone` | msgraph2/__init__.py:123-128 | no list with the requested name means nothing is chosen |
| `Lists.Index` | msgraph2/__init__.py:222-225 | the scan stops with an error iff some column has no string `name`; every stored column is stored under its own name |
| `Lists.IndexStops` | msgraph2/__init__.py:224-225 | once a column without a name raises, later columns change nothing |
| `Lists.IndexKeys` | msgraph2/__init__.py:224-225 | a fully named listing is indexed under exactly the names it holds |
| `Lists.IndexLastWins` | msgraph2/__init__.py:224-225 | each name maps to the last column that carries it |
| `Lists.DeleteTarget` | msgraph2/__init__.py:230-231 | as written: nothing is deleted iff `name` is not cached; otherwise the id of the column cached under `"name"` is used, and without one it raises |
| `Lists.IntendedDeleteTarget` | msgraph2/__init__.py:230-231 | nothing is deleted iff `name` is not cached; otherwise the id of the column `name` is used |
| `Lists.DeleteTargetMisses` | msgraph2/__init__.py:230-231 | two concrete caches on which the code as written raises, or deletes another column, where the intended lookup deletes `Title` |
| `Lists.DeleteTargetAgrees` | msgraph2/__init__.py:230-231 | the two lookups agree when the column asked for is called `name` |
| `Lists.Defaults` | msgraph2/__init__.py:235-245 | the default definition has exactly the nine default keys, all holding scalars |
| `Lists.DefaultsCompatible` | msgraph2/__init__.py:235-245 | `assign(defaults, details)` completes iff `details` puts no mapping over a default key |
| `Lists.ColumnDefinition` | msgraph2/__init__.py:235-245 | the definition holds every default and every detail key; a scalar detail overrides its default; an unmentioned default is kept |
| `Lists.Rooted` | msgraph2/__init__.py:272-273 | the path starts with `/` and ends with the relative path, at most one character longer |
| `Lists.RootedIdempotent` | msgraph2/__init__.py:272-273 | rooting a rooted path changes nothing |
| `Lists.ParentAncestors` | msgraph2/__init__.py:178-180 | the parent, and all the parent's ancestors, are ancestors of the path |
| `Lists.NotOwnAncestor` | msgraph2/__init__.py:178-180 | a path is never one of its own ancestors, so a parent `mkdir` never writes the entry of the path itself |
| `Library.FindLibrary` | msgraph2/__init__.py:123-125 | the constructor's scan loop computes `Selection` |
| `Library.CallSends` | msgraph2/__init__.py:81-90 | every request of a call has the verb, absolute URL, content type and body asked for |
| `Library.CallLast` | msgraph2/__init__.py:92-93 | a call that succeeds returns the response to its last request, which has the verb and body asked for |
| `Library.Done` | msgraph2/__init__.py:228-231 | an operation returning nothing succeeds exactly when its last call did, and otherwise raises that call's error |
| `Library.SharePoint.constructor` | msgraph2/__init__.py:108-118 | the given identity with empty caches, no loaders and a zero counter |
| `Library.SharePoint.Open` | msgraph2/__init__.py:108-134 | the log is the lists `Call`, then, once the scan chose a library, the drive `Call`; a failing GET, a missing name or library, or a missing id raises; the object holds the chosen library, its drive and their ids |
| `Library.SharePoint.ClockStart` | msgraph2/__init__.py:136-138 | the counter is reset |
| `Library.SharePoint.ClockNext` | msgraph2/__init__.py:140-142 | the counter grows by one and is reported |
| `Library.SharePoint.Send` | msgraph2/__init__.py:49-62 | the log becomes the one `Call` produces with budget 2; every new request is the one asked for; success returns the last response |
| `Library.SharePoint.SendForId` | msgraph2/__init__.py:173-185 | the log is the one `Call` produces and the result is `IdOf` its outcome: the `id` string of the last, successful, response |
| `Library.SharePoint.ParentFolder` | msgraph2/__init__.py:177-182 | the outcome, log and cache are exactly `Resolved`: no parent at the root; a cached parent's id without a request; with `make_parents` a missing parent is first created by `mkdir` through `self`; `KeyError` when it is still missing; existing cache entries never change |
| `Library.SharePoint.MkdirViaSelf` | msgraph2/__init__.py:179-180 | exactly `ViaSelf`: the log and cache of `mkdir(parent, make_parents=True)`, whose failure is raised on a plain object and swallowed on a safe one; only the path and its ancestors are added |
| `Library.SharePoint.Mkdir` | msgraph2/__init__.py:164-185 | the outcome, log and cache are exactly `Made`: the parent resolved as `Resolved` does, then the folder POST's `Call`, with the id cached under `path`; with the parent cached (or at the root) that POST starts from the old state; on success the last exchange is that POST, answered with the id; a missing parent without `make_parents` raises and changes nothing |
| `Library.SharePoint.ResolvedPosts` | msgraph2/__init__.py:177-182 | resolving the parent sends requests exactly when `make_parents` is set and the parent is not cached, and every request it sends is a POST |
| `Library.SharePoint.MadePosts` | msgraph2/__init__.py:164-185 | `mkdir` sends nothing exactly when it raises `KeyError` on a missing parent without `make_parents`; all it sends, the parents' folders included, are POSTs |
| `Library.SharePoint.PostedPosts` | msgraph2/__init__.py:182-183 | the folder POST adds at least one exchange, each of them a POST |
| `Library.SharePoint.PostFolder` | msgraph2/__init__.py:167-183 | the log is the `Call` of the folder POST to the parent's children and the result is `IdOf` its outcome; on success the last exchange was that POST, answered with the id |
| `Library.SharePoint.PostAndCache` | msgraph2/__init__.py:173-185 | the POST under the resolved parent; the cache gains exactly `path` mapped to the new id on success and is unchanged otherwise |
| `Library.SharePoint.SafeMkdir` | msgraph2/__init__.py:287-292 | never fails; the log and cache are exactly those `Made` gives for `mkdir`; other cache entries are kept and only the path and its ancestors are added |
| `Library.SharePoint.Upload` | msgraph2/__init__.py:187-206 | the outcome, log and cache are exactly `Uploaded`: the parent resolved as `Resolved` does, then the content PUT's `Call`; with the parent cached (or at the root) the PUT starts from the old state; on success the last request PUT `local` as an octet stream to the encoded leaf, and the response returned, only below the root, is its response; a missing parent without `make_parents` raises and changes nothing |
| `Library.SharePoint.PutUnder` | msgraph2/__init__.py:189-206 | the PUT under the resolved parent: the log is its `Call`, the last request is the content PUT, and the response is returned only below the root |
| `Library.SharePoint.PutContent` | msgraph2/__init__.py:192-205 | the log is the `Call` of the content PUT; its last request is that PUT and its response is returned |
| `Library.SharePoint.SafeUpload` | msgraph2/__init__.py:294-299 | never fails; the log and cache are exactly those `Uploaded` gives for `upload`; the cache only gains ancestors |
| `Library.SharePoint.Loader` | msgraph2/__init__.py:217-218 | the source is registered |
| `Library.SharePoint.StoreColumns` | msgraph2/__init__.py:222-225 | the loop stores the columns as the scan `Index` does, stopping at the first unnamed one |
| `Library.SharePoint.ListColumns` | msgraph2/__init__.py:220-226 | a cached index is returned without a request; otherwise the cache is emptied, the columns GET, and the cache and result are those of the scan |
| `Library.SharePoint.ListedOutcome` | msgraph2/__init__.py:220-226 | what `list_columns()` returns is the cache it leaves, and a cached index is returned as it is |
| `Library.SharePoint.SafeListColumns` | msgraph2/__init__.py:308-313 | never fails; the log and the cache are those `list_columns` leaves, and a cached index is kept without a request |
| `Library.SharePoint.ListColumnsViaSelf` | msgraph2/__init__.py:229 | `self.list_columns()`: the log and cache `list_columns` leaves; it raises only on an unsafe object when the listing raised |
| `Library.SharePoint.DeleteColumn` | msgraph2/__init__.py:228-231 | the cache is what listing leaves; a listing failure on an unsafe object raises; then a name not cached sends nothing, and otherwise the log is the `Call` of the DELETE of the id `DeleteTarget` reads |
| `Library.SharePoint.SafeDeleteColumn` | msgraph2/__init__.py:315-320 | never fails; the cache is what listing leaves and the log ends as `delete_column`'s does |
| `Library.SharePoint.SaveColumn` | msgraph2/__init__.py:248-251 | the log is the `Call` of a PATCH at the id of the cached column of that name, or of a POST of a new column; on success the last request is that one |
| `Library.SharePoint.Definition` | msgraph2/__init__.py:235-245 | the definition is `assign(defaults, details)`, and it raises exactly when `details` is no mapping or puts a mapping over a default |
| `Library.SharePoint.CreateColumn` | msgraph2/__init__.py:233-251 | `name` is aliased to itself even when the rest fails; bad details raise before any request; otherwise the cache is what listing leaves and the log is the listing followed by the `Call` of the PATCH or POST of the merged definition |
| `Library.SharePoint.ListAndSave` | msgraph2/__init__.py:247-251 | list if needed, then the PATCH or POST: the cache is what listing leaves, and the log ends with that save's `Call` |
| `Library.SharePoint.SafeCreateColumn` | msgraph2/__init__.py:322-327 | never fails; the alias is recorded; bad details send nothing; otherwise the cache is what listing leaves and the save's exchanges follow |
| `Library.SharePoint.Alias` | msgraph2/__init__.py:253-254 | the alias map gains `key -> column` |
| `Library.SharePoint.Annotate` | msgraph2/__init__.py:271-284 | the log and result are those of `Annotation`: the `Call` of the GET of the item at the rooted path, then, with the `id` read off its response, the `Call` of the PATCH of the de-aliased attributes to that item's fields; the first new exchange is the GET |
| `Library.SharePoint.AnnotationPatches` | msgraph2/__init__.py:281-284 | a successful annotation returns the response to its last request, which PATCHes the de-aliased attributes |
| `Json.Strings` | msgraph2/__init__.py:281-283 | the PATCH body is an object with exactly the de-aliased keys, each holding its value as a string |
| `Library.SharePoint.PatchFields` | msgraph2/__init__.py:281-284 | the log is the `Call` of the PATCH of the de-aliased attributes to the item's fields; the last request is that PATCH and its response is returned |
| `Library.SharePoint.SafeAnnotate` | msgraph2/__init__.py:329-334 | never fails; the log is that of `Annotation`, starting with the GET of the item |
| `Library.SharePoint.Load` | msgraph2/__init__.py:208-215 | an unknown source raises `UnhandledSource` and changes nothing; otherwise the counter grows by one and the log is that of `Annotation` of the destination, whose outcome is returned on an unsafe object and swallowed on a safe one |
| `Library.SharePoint.AnnotateAs` | msgraph2/__init__.py:215 | `self.annotate`: the log is that of `Annotation`; its outcome is returned, or swallowed on a safe object |
| `Library.SharePoint.SafeLoad` | msgraph2/__init__.py:301-306 | never fails; an unknown source changes nothing; otherwise the counter grows by one and the log is that of `Annotation`, starting with the GET of the item |

## Left out

- Token providers (`literal_token`, `file_token`, `oauth_taker_token`) are not modelled. A token is whatever `Remote.token` returns for the exchange history.
- HTTP itself is not modelled. The server is a function from history and request to a response whose body is already decoded JSON (`None` when it is not JSON). Headers other than content type and authorization are left out.
- Opening the local file for `upload` is not modelled. The raw body is the local path (`RawBody(local)`), and file errors and handle release are left out.
- Wall-clock time (`start`, `clock_check` and the average in `load`'s message) is not modelled. Only the counter `n` is.
- A loader callable is not run. `loaders` records the registered sources, and the effects of a loader (usually an `upload`) are not part of `Load`.
- `API.get_download_url` is outside the modelled core.
- Console output (`print`, including the messages of the safe wrappers) is not modelled.
- Api.Follow: pagination follows at most `fuel` next links and then fails with `PageLimit`, because the source follows links until one is missing and a server can send an endless chain. The same applies to `Api.Rest` and `Api.Depaginate`.
- Lists.TextMember: an id or name that is not a JSON string is treated as an error. Python would use a numeric column name as a dictionary key, or format a numeric id into a URL.
- Lists.Entries: a `value` member that is not an array is an error. Python would iterate a string or a mapping.
- Api.PageOf: a `key` member that is not an array is an error. Python's `list.extend` would also accept a string or a mapping.
- Library.SharePoint.PutContent: every attempt of the content PUT sends the content of `local` (`RawBody(local)`). In the source the file is opened once (lines 193-194 and 202-203) and the same file object is passed to each retry of line 98. A retried upload would therefore send the rest of an already-read file, which is an empty body. The model does not capture this, because it does not model file objects; `Api.CallAttempts` states the same body for every attempt.
- Merge.Assign: requires `Safe`. The crashing case of `assign` is `Err(WrongType("details"))` in `Library.SharePoint.Definition`, its only caller here.
- Library.SharePoint.SafeMkdir: the `Safe…` methods return nothing. Python's wrappers return `None` even where the base method returns a value.

## Findings

| source | as written | input that shows it | evidently intended | confidence | as-written member | corrected member |
|---|---|---|---|---|---|---|
| msgraph2/__init__.py:230-231 | after checking `name in self.columns`, `delete_column` deletes the column cached under the literal key `"name"` | a library whose only column is `Title` (id 7): `delete_column("Title")` raises `KeyError: 'name'`; if a column called `name` (id 9) also exists, column 9 is deleted | delete the column cached under `name`, i.e. `self.columns[name]["id"]` | not executed | `Lists.DeleteTarget` (`Lists.DeleteTargetMisses`) | `Lists.IntendedDeleteTarget` |

`Library.SharePoint.DeleteColumn` models the code as written, so the model shows the behaviour the program has.
