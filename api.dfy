/**
 * The `API` client of msgraph2: every request goes through `Call`, which makes the endpoint
 * absolute, fetches a fresh bearer token, sends the body and retries on an authentication
 * failure while the budget allows; `Depaginate` follows `@odata.nextLink` chains.
 *
 * The network is a `Remote`: a server that answers a request given everything exchanged
 * before it, and a token provider that may likewise depend on that history. Every request
 * the client makes is appended to a log together with its response.
 */
module Api {
  import opened Wrappers
  import opened Json

  const GraphApiEndpoint: string := "https://graph.microsoft.com/v1.0"
  const JsonContent: string := "application/json"
  const AuthFailureCodes: seq<string> := ["InvalidAuthenticationToken", "unauthenticated"]
  const DefaultRetries: int := 2

  datatype Verb = GET | PUT | POST | PATCH | DELETE

  /** What is sent: `json=json_input`, `data=data` (an opened local file) or nothing. */
  datatype Body = NoBody | JsonBody(json: Value) | RawBody(source: string)

  datatype Request = Request(verb: Verb, endpoint: string, contentType: string, authorization: string, body: Body)

  /** A response: its status and its body decoded as JSON (`None` when it is not JSON). */
  datatype Response = Response(status: int, body: Option<Value>)

  datatype Exchange = Exchange(request: Request, response: Response)

  datatype Remote = Remote(respond: (seq<Exchange>, Request) -> Response, token: seq<Exchange> -> Option<string>)

  /** The exceptions the core raises. */
  datatype Error =
    | ProcessError(message: string, status: int, endpoint: string, jsonInput: Option<Value>, response: Value)
    | BadJson                                   // `r.json()` on a body that is not JSON
    | MissingKey(key: string)                   // KeyError
    | WrongType(what: string)                   // TypeError / AttributeError
    | LibraryNotFound(library: string)
    | UnhandledSource(src: string, srcUri: string, dstFile: string)
    | PageLimit                                 // the model's bound on a pagination chain

  /** The outcome of a step together with the exchange log after it. */
  datatype Reply<T> = Reply(outcome: Result<T, Error>, log: seq<Exchange>)

  /** `ProcessError.to_dict()`: the diagnostic parameters. */
  function ToDict(e: Error): (d: Value)
    requires e.ProcessError?
    ensures d.Obj? && d.fields.Keys == {"status_code", "endpoint", "json_input", "response"}
    ensures d.fields["status_code"] == Num(e.status) && d.fields["response"] == e.response
    ensures d.fields["endpoint"] == Str(e.endpoint)
    ensures d.fields["json_input"] == if e.jsonInput.Some? then e.jsonInput.value else Null
  {
    Obj(map[
      "status_code" := Num(e.status),
      "endpoint" := Str(e.endpoint),
      "json_input" := if e.jsonInput.Some? then e.jsonInput.value else Null,
      "response" := e.response])
  }

  predicate StartsWith(s: string, prefix: string)
  {
    |prefix| <= |s| && s[..|prefix|] == prefix
  }

  /** The endpoint `call` addresses: relative endpoints are put under the Graph API root. */
  function Absolute(endpoint: string): (url: string)
    ensures StartsWith(url, GraphApiEndpoint)
    ensures StartsWith(endpoint, GraphApiEndpoint) ==> url == endpoint
    ensures !StartsWith(endpoint, GraphApiEndpoint) ==> url == GraphApiEndpoint + endpoint
  {
    if StartsWith(endpoint, GraphApiEndpoint) then endpoint else GraphApiEndpoint + endpoint
  }

  /** An endpoint that starts with `/` is put under the root. */
  lemma RelativeEndpoint(endpoint: string)
    requires |endpoint| >= 1 && endpoint[0] == '/'
    ensures Absolute(endpoint) == GraphApiEndpoint + endpoint
  {
    assert GraphApiEndpoint[0] != endpoint[0];
  }

  lemma AbsoluteIdempotent(endpoint: string)
    ensures Absolute(Absolute(endpoint)) == Absolute(endpoint)
  {
  }

  predicate IsSuccess(status: int)
  {
    status == 200 || status == 201 || status == 204
  }

  /**
   * The body `call` sends: a truthy `json_input`, else `data`, else none. The only `data` the
   * core passes is an opened file, which is always truthy.
   */
  function BodyOf(jsonInput: Option<Value>, data: Option<string>): (b: Body)
    ensures b.JsonBody? <==> jsonInput.Some? && Truthy(jsonInput.value)
    ensures b.JsonBody? ==> b.json == jsonInput.value
    ensures b.RawBody? <==> !b.JsonBody? && data.Some?
    ensures b.RawBody? ==> b.source == data.value
  {
    if jsonInput.Some? && Truthy(jsonInput.value) then JsonBody(jsonInput.value)
    else if data.Some? then RawBody(data.value)
    else NoBody
  }

  /** `f"Bearer {token}"`, which renders an absent token as `None`. */
  function Bearer(token: Option<string>): (a: string)
    ensures |a| >= 7 && a[..7] == "Bearer "
    ensures token.Some? ==> a[7..] == token.value
    ensures token.None? ==> a[7..] == "None"
  {
    "Bearer " + (if token.Some? then token.value else "None")
  }

  /** The request `call` sends once the log holds `history`: the token is fetched anew. */
  function RequestAt(remote: Remote, history: seq<Exchange>, verb: Verb, url: string,
                     jsonInput: Option<Value>, data: Option<string>, contentType: string): Request
  {
    Request(verb, url, contentType, Bearer(remote.token(history)), BodyOf(jsonInput, data))
  }

  /** The error body names an authentication failure: `e['error']['code']` is one of the codes. */
  predicate HasAuthCode(e: Value)
  {
    match Field(e, "error")
    case Some(err) => (match Field(err, "code") case Some(Str(code)) => code in AuthFailureCodes case _ => false)
    case None => false
  }

  /** `sub` occurs in `s`, as Python's `sub in s` tests on strings. */
  predicate Contains(s: string, sub: string)
    decreases |s|
  {
    StartsWith(s, sub) || (s != [] && Contains(s[1..], sub))
  }

  /**
   * The retry test `call` makes on an error body `e` while its budget is positive:
   * `'error' in e and 'code' in e['error']`, then whether `e['error']['code']` is one of the
   * codes. Python's `in` tests the keys of a mapping, the elements of a list and the substrings
   * of a string, and raises `TypeError` on anything else; a list or a string subscripted with a
   * string key raises `TypeError` as well.
   */
  function AuthCheck(e: Value): (r: Result<bool, Error>)
    ensures r == Ok(true) <==> HasAuthCode(e)
    ensures e.Obj? && (Field(e, "error").None? || Field(e, "error").value.Obj?) ==> r == Ok(HasAuthCode(e))
  {
    match e
    case Obj(f) =>
      if "error" !in f then Ok(false)
      else (
        match f["error"]
        case Obj(g) => Ok("code" in g && g["code"].Str? && g["code"].s in AuthFailureCodes)
        case Arr(items) => if Str("code") in items then Err(WrongType("error")) else Ok(false)
        case Str(s) => if Contains(s, "code") then Err(WrongType("error")) else Ok(false)
        case _ => Err(WrongType("error")))
    case Arr(items) => if Str("error") in items then Err(WrongType("response")) else Ok(false)
    case Str(s) => if Contains(s, "error") then Err(WrongType("response")) else Ok(false)
    case _ => Err(WrongType("response"))
  }

  /**
   * The shapes on which the retry test itself raises `TypeError`: a scalar body, a scalar
   * `error` member, and a list or text that `'error' in e` finds the word in.
   */
  lemma AuthCheckRaises(e: Value)
    ensures e.Null? || e.Bool? || e.Num? ==> AuthCheck(e).Err?
    ensures e.Obj? && "error" in e.fields && (e.fields["error"].Null? || e.fields["error"].Bool? || e.fields["error"].Num?) ==>
      AuthCheck(e).Err?
    ensures (e.Arr? && Str("error") in e.items) || (e.Str? && Contains(e.s, "error")) ==> AuthCheck(e).Err?
  {
  }

  /** A response that makes `call` retry when its budget allows. */
  predicate IsAuthFailure(response: Response)
  {
    !IsSuccess(response.status) && response.body.Some? && HasAuthCode(response.body.value)
  }

  /**
   * How `call` ends on its last response: a success status returns it; otherwise `r.json()`
   * raises on a body that is not JSON, the retry test raises when `checked` (the budget was
   * positive) and the body has the wrong shape, and `ProcessError` is raised in every other case.
   */
  function Verdict(response: Response, url: string, jsonInput: Option<Value>, checked: bool): (r: Result<Response, Error>)
    ensures r.Ok? <==> IsSuccess(response.status)
    ensures r.Ok? ==> r.value == response
    ensures !IsSuccess(response.status) && response.body.None? ==> r == Err(BadJson)
    ensures r.Err? && r.error.ProcessError? ==>
      && response.body == Some(r.error.response) && r.error.status == response.status
      && r.error.endpoint == url && r.error.jsonInput == jsonInput
    ensures r.Err? && r.error.WrongType? ==> checked && response.body.Some? && AuthCheck(response.body.value).Err?
  {
    if IsSuccess(response.status) then Ok(response)
    else if response.body.None? then Err(BadJson)
    else if checked && AuthCheck(response.body.value).Err? then Err(AuthCheck(response.body.value).error)
    else Err(ProcessError("bad http response", response.status, url, jsonInput, response.body.value))
  }

  function Max(a: int, b: int): int { if a < b then b else a }

  /** The `i`-th exchange of `log` is an attempt at the request, with a token fetched for it. */
  predicate IsAttempt(remote: Remote, log: seq<Exchange>, i: nat, verb: Verb, url: string,
                      jsonInput: Option<Value>, data: Option<string>, contentType: string)
    requires i < |log|
  {
    var request := RequestAt(remote, log[..i], verb, url, jsonInput, data, contentType);
    log[i] == Exchange(request, remote.respond(log[..i], request))
  }

  /**
   * `log[from..]` is what one `call` with budget `retries` exchanges: between one and
   * `max(1, retries)` attempts at the same request, each but the last rejected for
   * authentication, the last one rejected for authentication only when the budget is spent.
   */
  predicate Attempts(remote: Remote, log: seq<Exchange>, from: nat, verb: Verb, url: string,
                     jsonInput: Option<Value>, data: Option<string>, contentType: string, retries: int)
  {
    && from < |log| <= from + Max(1, retries)
    && (forall i :: from <= i < |log| ==> IsAttempt(remote, log, i, verb, url, jsonInput, data, contentType))
    && (forall i :: from <= i < |log| - 1 ==> IsAuthFailure(log[i].response))
    && (IsAuthFailure(log[|log| - 1].response) ==> |log| == from + Max(1, retries))
  }

  /** A rejected first attempt followed by the attempts of the retry are the attempts of the call. */
  lemma AttemptsRetried(remote: Remote, log: seq<Exchange>, log': seq<Exchange>, all: seq<Exchange>, verb: Verb, url: string,
                        jsonInput: Option<Value>, data: Option<string>, contentType: string, retries: int)
    requires retries > 1
    requires |log'| == |log| + 1 && log'[..|log|] == log
    requires IsAttempt(remote, log', |log|, verb, url, jsonInput, data, contentType)
    requires IsAuthFailure(log'[|log|].response)
    requires |log'| <= |all| && all[..|log'|] == log'
    requires Attempts(remote, all, |log'|, verb, url, jsonInput, data, contentType, retries - 1)
    ensures Attempts(remote, all, |log|, verb, url, jsonInput, data, contentType, retries)
  {
    assert all[..|log|] == log'[..|log|];
    assert all[|log|] == log'[|log|];
  }

  /**
   * `API.call`. Every attempt fetches a token, sends the same request to the absolute endpoint
   * and logs the exchange; a 200, 201 or 204 is returned as it is; an authentication failure is
   * retried with `retries - 1` while `retries > 1`; an error body the retry test cannot
   * inspect raises `TypeError`; anything else raises `ProcessError`.
   */
  function Call(remote: Remote, log: seq<Exchange>, verb: Verb, endpoint: string,
                jsonInput: Option<Value>, data: Option<string>, contentType: string, retries: int): (r: Reply<Response>)
    decreases retries
    ensures |log| < |r.log| && r.log[..|log|] == log
  {
    var url := Absolute(endpoint);
    var request := RequestAt(remote, log, verb, url, jsonInput, data, contentType);
    var response := remote.respond(log, request);
    var log' := log + [Exchange(request, response)];
    assert log'[..|log|] == log;
    if IsSuccess(response.status) then Reply(Ok(response), log')
    else if response.body.None? then Reply(Err(BadJson), log')
    else
      var e := response.body.value;
      if retries > 0 && AuthCheck(e).Err? then Reply(Err(AuthCheck(e).error), log')
      else if retries > 0 && AuthCheck(e) == Ok(true) && retries > 1 then
        var r := Call(remote, log', verb, url, jsonInput, data, contentType, retries - 1);
        assert r.log[..|log|] == r.log[..|log'|][..|log|];
        r
      else Reply(Err(ProcessError("bad http response", response.status, url, jsonInput, e)), log')
  }

  /** What one `call` exchanges: the attempts `Attempts` describes. */
  lemma {:induction false} CallAttempts(remote: Remote, log: seq<Exchange>, verb: Verb, endpoint: string,
                                        jsonInput: Option<Value>, data: Option<string>, contentType: string, retries: int)
    decreases retries
    ensures var r := Call(remote, log, verb, endpoint, jsonInput, data, contentType, retries);
      Attempts(remote, r.log, |log|, verb, Absolute(endpoint), jsonInput, data, contentType, retries)
  {
    var url := Absolute(endpoint);
    var request := RequestAt(remote, log, verb, url, jsonInput, data, contentType);
    var response := remote.respond(log, request);
    var log' := log + [Exchange(request, response)];
    var r := Call(remote, log, verb, endpoint, jsonInput, data, contentType, retries);
    assert log'[..|log|] == log;
    assert IsAttempt(remote, log', |log|, verb, url, jsonInput, data, contentType);
    if !IsSuccess(response.status) && response.body.Some? && retries > 1 && AuthCheck(response.body.value) == Ok(true) {
      var retried := Call(remote, log', verb, url, jsonInput, data, contentType, retries - 1);
      assert r == retried;
      CallAttempts(remote, log', verb, url, jsonInput, data, contentType, retries - 1);
      AbsoluteIdempotent(endpoint);
      AttemptsRetried(remote, log, log', r.log, verb, url, jsonInput, data, contentType, retries);
    } else {
      assert r.log == log';
    }
  }

  /** How one `call` ends: the verdict on the last response it received. */
  lemma {:induction false} CallVerdict(remote: Remote, log: seq<Exchange>, verb: Verb, endpoint: string,
                                       jsonInput: Option<Value>, data: Option<string>, contentType: string, retries: int)
    decreases retries
    ensures var r := Call(remote, log, verb, endpoint, jsonInput, data, contentType, retries);
      r.outcome == Verdict(r.log[|r.log| - 1].response, Absolute(endpoint), jsonInput, retries > 0)
  {
    var url := Absolute(endpoint);
    var request := RequestAt(remote, log, verb, url, jsonInput, data, contentType);
    var response := remote.respond(log, request);
    var log' := log + [Exchange(request, response)];
    var r := Call(remote, log, verb, endpoint, jsonInput, data, contentType, retries);
    assert log'[|log'| - 1].response == response;
    if !IsSuccess(response.status) && response.body.Some? {
      var e := response.body.value;
      if retries > 0 && AuthCheck(e) == Ok(true) && retries > 1 {
        CallVerdict(remote, log', verb, url, jsonInput, data, contentType, retries - 1);
        AbsoluteIdempotent(endpoint);
        assert r == Call(remote, log', verb, url, jsonInput, data, contentType, retries - 1);
      } else {
        assert r.log == log';
        assert r.outcome == Verdict(response, url, jsonInput, retries > 0);
      }
    } else {
      assert r.log == log';
      assert r.outcome == Verdict(response, url, jsonInput, retries > 0);
    }
  }

  /** `retries=2` against a server that keeps rejecting the token: exactly one retry, then failure. */
  lemma RetriesOnce(remote: Remote, log: seq<Exchange>, verb: Verb, endpoint: string)
    requires forall h, q :: IsAuthFailure(remote.respond(h, q))
    ensures var r := Call(remote, log, verb, endpoint, None, None, JsonContent, 2);
      |r.log| == |log| + 2 && r.outcome.Err? && r.outcome.error.ProcessError?
  {
  }

  /** `retries=1`: no retry at all. */
  lemma NoRetryWithBudgetOne(remote: Remote, log: seq<Exchange>, verb: Verb, endpoint: string)
    requires forall h, q :: IsAuthFailure(remote.respond(h, q))
    ensures var r := Call(remote, log, verb, endpoint, None, None, JsonContent, 1);
      |r.log| == |log| + 1 && r.outcome.Err?
  {
  }

  // ---- depaginate ----

  /** One page of a listing: its `key` array and, when present, the `andthen` link. */
  datatype Page = Page(items: seq<Value>, next: Option<string>)

  /** Reading `r[key]` and `r[andthen]` off a response. */
  function PageOf(response: Response, key: string, andthen: string): (p: Result<Page, Error>)
    ensures p.Ok? ==> response.body.Some? && response.body.value.Obj?
    ensures p.Ok? ==> Field(response.body.value, key) == Some(Arr(p.value.items))
    ensures p.Ok? ==> (p.value.next.None? <==> andthen !in response.body.value.fields)
    ensures p.Ok? && p.value.next.Some? ==> StrField(response.body.value, andthen) == p.value.next
  {
    if response.body.None? then Err(BadJson)
    else
      var r := response.body.value;
      if !r.Obj? then Err(WrongType("page"))
      else if key !in r.fields then Err(MissingKey(key))
      else if !r.fields[key].Arr? then Err(WrongType(key))
      else if andthen !in r.fields then Ok(Page(r.fields[key].items, None))
      else if !r.fields[andthen].Str? then Err(WrongType(andthen))
      else Ok(Page(r.fields[key].items, Some(r.fields[andthen].s)))
  }

  /**
   * A page is read exactly off a JSON body whose `key` member is an array and whose `andthen`
   * member, when present, is a string.
   */
  lemma PageOfReads(response: Response, key: string, andthen: string)
    ensures PageOf(response, key, andthen).Ok? <==>
      && response.body.Some? && Field(response.body.value, key).Some? && Field(response.body.value, key).value.Arr?
      && (Field(response.body.value, andthen).Some? ==> Field(response.body.value, andthen).value.Str?)
  {
  }

  /** Put `items` in front of the values of a reply that succeeded. */
  function Prepend(items: seq<Value>, r: Reply<seq<Value>>): Reply<seq<Value>>
  {
    if r.outcome.Ok? then Reply(Ok(items + r.outcome.value), r.log) else r
  }

  /** One GET of a listing page, read as a page. */
  function GetPage(remote: Remote, log: seq<Exchange>, url: string, key: string, andthen: string): (r: Reply<Page>)
    ensures |log| < |r.log| && r.log[..|log|] == log
  {
    var reply := Call(remote, log, GET, url, None, None, JsonContent, DefaultRetries);
    if reply.outcome.Err? then Reply(Err(reply.outcome.error), reply.log)
    else Reply(PageOf(reply.outcome.value, key, andthen), reply.log)
  }

  /**
   * The listing reached from `url`, defined recursively: the page's values followed by those
   * of the chain its next link starts, ending at the first page without one. At most `fuel`
   * links are followed.
   */
  function Follow(remote: Remote, log: seq<Exchange>, url: string, key: string, andthen: string, fuel: nat): (r: Reply<seq<Value>>)
    decreases fuel, 1
    ensures |log| < |r.log| && r.log[..|log|] == log
  {
    var got := GetPage(remote, log, url, key, andthen);
    match got.outcome
    case Err(e) => Reply(Err(e), got.log)
    case Ok(page) =>
      var rest := Rest(remote, got.log, page.next, key, andthen, fuel);
      assert rest.log[..|log|] == log by {
        assert rest.log[..|got.log|] == got.log;
        assert rest.log[..|got.log|][..|log|] == rest.log[..|log|];
      }
      Prepend(page.items, rest)
  }

  /** The rest of a listing after a page whose next link is `next`. */
  function Rest(remote: Remote, log: seq<Exchange>, next: Option<string>, key: string, andthen: string, fuel: nat): (r: Reply<seq<Value>>)
    decreases fuel, 0
    ensures |log| <= |r.log| && r.log[..|log|] == log
  {
    match next
    case None => Reply(Ok([]), log)
    case Some(link) => if fuel == 0 then Reply(Err(PageLimit), log) else Follow(remote, log, link, key, andthen, fuel - 1)
  }

  lemma PrependTwice(a: seq<Value>, b: seq<Value>, r: Reply<seq<Value>>)
    ensures Prepend(a, Prepend(b, r)) == Prepend(a + b, r)
  {
    if r.outcome.Ok? {
      assert a + (b + r.outcome.value) == (a + b) + r.outcome.value;
    }
  }

  /** A chain of two pages yields the first page's values followed by the second's. */
  lemma FollowTwoPages(remote: Remote, log: seq<Exchange>, url: string, key: string, andthen: string, fuel: nat)
    requires fuel >= 1
    requires var first := GetPage(remote, log, url, key, andthen);
      && first.outcome.Ok? && first.outcome.value.next.Some?
      && var second := GetPage(remote, first.log, first.outcome.value.next.value, key, andthen);
         second.outcome.Ok? && second.outcome.value.next.None?
    ensures var first := GetPage(remote, log, url, key, andthen);
      var second := GetPage(remote, first.log, first.outcome.value.next.value, key, andthen);
      Follow(remote, log, url, key, andthen, fuel)
        == Reply(Ok(first.outcome.value.items + second.outcome.value.items), second.log)
  {
    var first := GetPage(remote, log, url, key, andthen);
    var second := GetPage(remote, first.log, first.outcome.value.next.value, key, andthen);
    assert Follow(remote, first.log, first.outcome.value.next.value, key, andthen, fuel - 1)
      == Reply(Ok(second.outcome.value.items + []), second.log);
    assert second.outcome.value.items + [] == second.outcome.value.items;
  }

  /** The values of `pages`, in order. */
  function Concat(pages: seq<Page>): seq<Value>
  {
    if pages == [] then [] else pages[0].items + Concat(pages[1..])
  }

  /**
   * `pages` is the chain of pages reached from `url`: page `i` is what a GET of the previous
   * page's next link returns, on the log `logs[i - 1]` that GET started from, and `logs[i]` is
   * the log after it; every page but the last has a next link and the last has none.
   */
  ghost predicate Chain(remote: Remote, log: seq<Exchange>, url: string, key: string, andthen: string,
                        pages: seq<Page>, logs: seq<seq<Exchange>>)
    decreases |pages|
  {
    && 1 <= |pages| == |logs|
    && GetPage(remote, log, url, key, andthen) == Reply(Ok(pages[0]), logs[0])
    && (if |pages| == 1 then pages[0].next.None?
        else pages[0].next.Some? && Chain(remote, logs[0], pages[0].next.value, key, andthen, pages[1..], logs[1..]))
  }

  /**
   * The promise of `depaginate`: a chain of pages, however long, yields the values of all its
   * pages in the order they were fetched, with the log the last GET left (given enough fuel for
   * its links).
   */
  lemma {:induction false} FollowChain(remote: Remote, log: seq<Exchange>, url: string, key: string, andthen: string,
                                       pages: seq<Page>, logs: seq<seq<Exchange>>, fuel: nat)
    requires Chain(remote, log, url, key, andthen, pages, logs)
    requires fuel >= |pages| - 1
    decreases |pages|
    ensures Follow(remote, log, url, key, andthen, fuel) == Reply(Ok(Concat(pages)), logs[|logs| - 1])
  {
    if |pages| == 1 {
      FollowLast(remote, log, url, key, andthen, pages[0], logs[0], fuel);
      assert Concat(pages) == pages[0].items + [];
    } else {
      var tail := logs[1..];
      assert tail[|tail| - 1] == logs[|logs| - 1];
      FollowChain(remote, logs[0], pages[0].next.value, key, andthen, pages[1..], tail, fuel - 1);
      FollowStep(remote, log, url, key, andthen, pages[0], logs[0], fuel, Concat(pages[1..]), tail[|tail| - 1]);
      assert Concat(pages) == pages[0].items + Concat(pages[1..]);
    }
  }

  /** The last page of `depaginate`: a page without a next link ends the values. */
  lemma FollowLast(remote: Remote, log: seq<Exchange>, url: string, key: string, andthen: string,
                   page: Page, after: seq<Exchange>, fuel: nat)
    requires GetPage(remote, log, url, key, andthen) == Reply(Ok(page), after)
    requires page.next.None?
    ensures Follow(remote, log, url, key, andthen, fuel) == Reply(Ok(page.items), after)
  {
    assert page.items + [] == page.items;
  }

  /**
   * One link of `depaginate`: a page with a next link contributes its values, followed by the
   * values the chain from that link yields, with the log that chain leaves.
   */
  lemma FollowStep(remote: Remote, log: seq<Exchange>, url: string, key: string, andthen: string,
                   page: Page, after: seq<Exchange>, fuel: nat, rest: seq<Value>, last: seq<Exchange>)
    requires GetPage(remote, log, url, key, andthen) == Reply(Ok(page), after)
    requires page.next.Some? && fuel >= 1
    requires Follow(remote, after, page.next.value, key, andthen, fuel - 1) == Reply(Ok(rest), last)
    ensures Follow(remote, log, url, key, andthen, fuel) == Reply(Ok(page.items + rest), last)
  {
  }

  /**
   * `API.depaginate`: GET the first page, take its `key` array, and while the last page
   * has `andthen`, GET that link and extend the values with its array.
   */
  method Depaginate(remote: Remote, log: seq<Exchange>, url: string, key: string, andthen: string, fuel: nat)
    returns (r: Reply<seq<Value>>)
    ensures r == Follow(remote, log, url, key, andthen, fuel)
  {
    ghost var target := Follow(remote, log, url, key, andthen, fuel);
    var got := GetPage(remote, log, url, key, andthen);
    if got.outcome.Err? {
      return Reply(Err(got.outcome.error), got.log);
    }
    var values := got.outcome.value.items;
    var next := got.outcome.value.next;
    var history := got.log;
    var left := fuel;
    while next.Some?
      invariant target == Prepend(values, Rest(remote, history, next, key, andthen, left))
      decreases left
    {
      if left == 0 {
        return Reply(Err(PageLimit), history);
      }
      var link := next.value;
      assert Rest(remote, history, next, key, andthen, left) == Follow(remote, history, link, key, andthen, left - 1);
      got := GetPage(remote, history, link, key, andthen);
      if got.outcome.Err? {
        return Reply(Err(got.outcome.error), got.log);
      }
      PrependTwice(values, got.outcome.value.items, Rest(remote, got.log, got.outcome.value.next, key, andthen, left - 1));
      values := values + got.outcome.value.items;
      next := got.outcome.value.next;
      history := got.log;
      left := left - 1;
    }
    assert values + [] == values;
    return Reply(Ok(values), history);
  }
}
