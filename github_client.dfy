/** The plain GitHub client: query parameters, the request `githubFetch`
    sends and how it maps a response to data or an error, and the
    `paginate` / `collectPaginated` page loop.

    The network is an oracle: `githubFetch` takes the function from request
    to response, and the paginated endpoint is a finite list of page
    outcomes, pages past its end being empty. */
module GitHubClient {
  import opened Wrappers
  import opened Text
  import opened GitHubErrors

  // ---------------------------------------------------------------------
  // Query parameters

  /** A parameter value: `string | number` (integers only here). */
  datatype ParamValue = Str(s: string) | Num(n: int)

  /** `String(value)`. */
  function Render(v: ParamValue): string {
    match v
    case Str(s) => s
    case Num(n) => IntToString(n)
  }

  /** A parameter record, in `Object.entries` order; None is `undefined`. */
  type Params = seq<(string, Option<ParamValue>)>

  /** A URL's search parameters. */
  type Query = seq<(string, string)>

  predicate DistinctKeys<V>(ps: seq<(string, V)>) {
    forall i, j :: 0 <= i < j < |ps| ==> ps[i].0 != ps[j].0
  }

  /** `searchParams.set(k, v)`: replace the first pair named `k` and drop
      any later ones, or append when there is none. */
  function SetParam(q: Query, k: string, v: string): Query {
    if q == [] then [(k, v)]
    else if q[0].0 == k then [(k, v)] + RemoveKey(q[1..], k)
    else [q[0]] + SetParam(q[1..], k, v)
  }

  function RemoveKey(q: Query, k: string): (r: Query)
    ensures forall i :: 0 <= i < |r| ==> r[i].0 != k
    ensures |r| <= |q|
  {
    if q == [] then [] else if q[0].0 == k then RemoveKey(q[1..], k) else [q[0]] + RemoveKey(q[1..], k)
  }

  /** The loop over `Object.entries(params)`: undefined values are skipped,
      the others set as `String(value)`. */
  function ApplyParams(q: Query, params: Params): Query
    decreases |params|
  {
    if params == [] then q
    else
      var q1 := if params[0].1.Some? then SetParam(q, params[0].0, Render(params[0].1.value)) else q;
      ApplyParams(q1, params[1..])
  }

  /** The reference reading: keep the defined parameters, rendered, in order. */
  function DefinedParams(params: Params): (q: Query)
    ensures |q| <= |params|
  {
    if params == [] then []
    else if params[0].1.Some? then [(params[0].0, Render(params[0].1.value))] + DefinedParams(params[1..])
    else DefinedParams(params[1..])
  }

  lemma {:induction false} SetParamAppends(q: Query, k: string, v: string)
    requires forall i :: 0 <= i < |q| ==> q[i].0 != k
    ensures SetParam(q, k, v) == q + [(k, v)]
  {
    if q != [] {
      SetParamAppends(q[1..], k, v);
    }
  }

  /** With distinct keys, applying the parameters to an empty query gives
      exactly the defined ones, rendered, in their order: undefined values
      are omitted and nothing else is dropped or reordered. */
  lemma {:induction false} ApplyParamsKeepsDefined(q: Query, params: Params)
    requires DistinctKeys(params)
    requires forall i, j :: 0 <= i < |q| && 0 <= j < |params| ==> q[i].0 != params[j].0
    ensures ApplyParams(q, params) == q + DefinedParams(params)
    decreases |params|
  {
    if params != [] {
      var k := params[0].0;
      var rest := params[1..];
      assert DistinctKeys(rest);
      if params[0].1.Some? {
        var kv := (k, Render(params[0].1.value));
        SetParamAppends(q, k, kv.1);
        var q1 := q + [kv];
        forall i, j | 0 <= i < |q1| && 0 <= j < |rest| ensures q1[i].0 != rest[j].0 {
          assert rest[j] == params[j + 1];
        }
        ApplyParamsKeepsDefined(q1, rest);
        assert DefinedParams(params) == [kv] + DefinedParams(rest);
        assert q1 + DefinedParams(rest) == q + DefinedParams(params);
      } else {
        forall i, j | 0 <= i < |q| && 0 <= j < |rest| ensures q[i].0 != rest[j].0 {
          assert rest[j] == params[j + 1];
        }
        ApplyParamsKeepsDefined(q, rest);
      }
    }
  }

  /** `{ ...params, key: value }`: an existing key keeps its place and takes
      the new value; a new key goes last. */
  function Spread(params: Params, k: string, v: ParamValue): Params {
    if params == [] then [(k, Some(v))]
    else if params[0].0 == k then [(k, Some(v))] + params[1..]
    else [params[0]] + Spread(params[1..], k, v)
  }

  lemma {:induction false} SpreadSets(params: Params, k: string, v: ParamValue)
    requires DistinctKeys(params)
    ensures var r := Spread(params, k, v);
      && DistinctKeys(r)
      && (exists i :: 0 <= i < |r| && r[i] == (k, Some(v)))
      && (forall i :: 0 <= i < |params| && params[i].0 != k ==> params[i] in r)
      && (forall i :: 0 <= i < |r| && r[i].0 != k ==> r[i] in params)
  {
    if params != [] && params[0].0 != k {
      assert DistinctKeys(params[1..]);
      SpreadSets(params[1..], k, v);
      var r := Spread(params, k, v);
      var rest := Spread(params[1..], k, v);
      forall i, j | 0 <= i < j < |r| ensures r[i].0 != r[j].0 {
        if i == 0 {
          assert r[j] == rest[j - 1];
          if r[j].0 != k {
            assert r[j] in params[1..];
            var m :| 0 <= m < |params[1..]| && params[1..][m] == r[j];
            assert params[m + 1] == r[j];
          }
        }
      }
      var w :| 0 <= w < |rest| && rest[w] == (k, Some(v));
      assert r[w + 1] == (k, Some(v));
      forall i | 0 <= i < |params| && params[i].0 != k ensures params[i] in r {
        if i > 0 { assert params[i] == params[1..][i - 1]; }
      }
    } else if params != [] {
      var r := Spread(params, k, v);
      forall i, j | 0 <= i < j < |r| ensures r[i].0 != r[j].0 {
        assert r[j] == params[j];
        if i > 0 { assert r[i] == params[i]; }
      }
      assert r[0] == (k, Some(v));
    } else {
      var r := Spread(params, k, v);
      assert r[0] == (k, Some(v));
    }
  }

  /** The parameters of the request for page `page`. */
  function PageParams(params: Params, page: int, perPage: int): Params {
    Spread(Spread(params, "page", Num(page)), "per_page", Num(perPage))
  }

  /** The request for a page carries `page` and `per_page` with the given
      values, once each, and keeps every other parameter of the caller. */
  lemma PageParamsCarryPage(params: Params, page: int, perPage: int)
    requires DistinctKeys(params)
    ensures var r := PageParams(params, page, perPage);
      && DistinctKeys(r)
      && ("page", Some(Num(page))) in r
      && ("per_page", Some(Num(perPage))) in r
      && (forall i :: 0 <= i < |params| && params[i].0 != "page" && params[i].0 != "per_page" ==> params[i] in r)
  {
    var p1 := Spread(params, "page", Num(page));
    SpreadSets(params, "page", Num(page));
    SpreadSets(p1, "per_page", Num(perPage));
    var r := Spread(p1, "per_page", Num(perPage));
    var w :| 0 <= w < |p1| && p1[w] == ("page", Some(Num(page)));
    assert p1[w] in r;
    forall i | 0 <= i < |params| && params[i].0 != "page" && params[i].0 != "per_page" ensures params[i] in r {
      assert params[i] in p1;
      var m :| 0 <= m < |p1| && p1[m] == params[i];
      assert p1[m] in r;
    }
  }

  // ---------------------------------------------------------------------
  // githubFetch

  const BaseUrl := "https://api.github.com"
  const AcceptHeader := "application/vnd.github+json"
  const ApiVersion := "2022-11-28"

  /** `k=v` pairs joined by `&` (percent-encoding is not modelled). */
  function QueryString(q: Query): string {
    if q == [] then "" else "?" + Join(seq(|q|, i requires 0 <= i < |q| => q[i].0 + "=" + q[i].1), "&")
  }

  /** `new URL(BASE_URL + endpoint)` with the defined parameters set. */
  function BuildUrl(endpoint: string, params: Params): string {
    BaseUrl + endpoint + QueryString(ApplyParams([], params))
  }

  datatype Request = Request(verb: string, url: string, headers: seq<(string, string)>, body: Option<string>)

  /** A response: status, status text, headers by lower-case name, the body
      text and the body parsed as JSON. */
  datatype HttpResponse<J> = HttpResponse(status: int, statusText: string, headers: map<string, string>, text: string, json: J)
  {
    /** `response.ok`. */
    predicate Ok() {
      200 <= status <= 299
    }

    function Header(name: string): Option<string> {
      if name in headers then Some(headers[name]) else None
    }
  }

  /** A string option used as a condition: `undefined` and "" are false. */
  predicate Present(s: Option<string>) {
    s.Some? && s.value != ""
  }

  function RequestHeaders(token: string, body: Option<string>): seq<(string, string)> {
    [("Authorization", "Bearer " + token), ("Accept", AcceptHeader), ("X-GitHub-Api-Version", ApiVersion)]
    + (if Present(body) then [("Content-Type", "application/json")] else [])
  }

  function BuildRequest(token: string, endpoint: string, verb: Option<string>, body: Option<string>, params: Params): (r: Request)
    ensures r.verb == verb.GetOr("GET")
    ensures |r.headers| >= 3 && r.headers[0] == ("Authorization", "Bearer " + token)
    ensures ("Content-Type", "application/json") in r.headers <==> Present(body)
  {
    Request(verb.GetOr("GET"), BuildUrl(endpoint, params), RequestHeaders(token, body), body)
  }

  /** The error for a non-ok response. */
  function FailedResponse<J>(resp: HttpResponse<J>): Error {
    ResponseError(resp.status, resp.statusText, resp.Header("x-ratelimit-reset"), resp.text)
  }

  /** `githubFetch`: no request without a token; a non-ok response becomes
      a `RateLimitError` or `GitHubError`; otherwise the parsed body. */
  function GithubFetch<J>(token: Result<string, Error>, endpoint: string, verb: Option<string>, body: Option<string>, params: Params,
                          respond: Request -> HttpResponse<J>): (r: Result<J, Error>)
    ensures token.Failure? ==> r == Failure(token.error)
    ensures token.Success? ==>
      var resp := respond(BuildRequest(token.value, endpoint, verb, body, params));
      && (r.Success? <==> resp.Ok())
      && (r.Success? ==> r.value == resp.json)
      && (r.Failure? ==> r.error.IsGitHubError() && r.error.Status() == resp.status && r.error.body == resp.text)
      && (r.Failure? ==> (r.error.RateLimitError? <==> resp.status == 403 && Present(resp.Header("x-ratelimit-reset"))))
  {
    match token
    case Failure(e) => Failure(e)
    case Success(t) =>
      var resp := respond(BuildRequest(t, endpoint, verb, body, params));
      if !resp.Ok() then Failure(FailedResponse(resp)) else Success(resp.json)
  }

  // ---------------------------------------------------------------------
  // paginate / collectPaginated

  const DefaultPerPage := 100

  /** The outcome of requesting page `page` (from 1); past the listed pages
      the endpoint returns an empty page. */
  function FetchPage<T>(pages: seq<Result<seq<T>, Error>>, page: int): (r: Result<seq<T>, Error>)
    ensures page < 1 || page > |pages| ==> r == Success([])
  {
    if 1 <= page <= |pages| then pages[page - 1] else Success([])
  }

  /** The items of page `page`, or none when it failed. */
  function PageData<T>(pages: seq<Result<seq<T>, Error>>, page: int): seq<T> {
    match FetchPage(pages, page)
    case Success(d) => d
    case Failure(_) => []
  }

  /** `maxPages &&`: undefined and 0 mean no cap. */
  predicate Capped(maxPages: Option<int>) {
    maxPages.Some? && maxPages.value != 0
  }

  /** What a run of the loop produced: the items yielded, the number of the
      last page requested (pages 1..requested were requested), and the
      error that ended it, if any. */
  datatype PageRun<T> = PageRun(items: seq<T>, requested: nat, err: Option<Error>)

  /** The loop from page `page` on. */
  function PaginateFrom<T>(pages: seq<Result<seq<T>, Error>>, perPage: int, maxPages: Option<int>, page: nat): PageRun<T>
    requires page >= 1
    decreases |pages| + 1 - page
  {
    if Capped(maxPages) && page > maxPages.value then PageRun([], page - 1, None)
    else match FetchPage(pages, page)
      case Failure(e) => PageRun([], page, Some(e))
      case Success(data) =>
        if |data| == 0 then PageRun([], page, None)
        else if |data| < perPage then PageRun(data, page, None)
        else
          var rest := PaginateFrom(pages, perPage, maxPages, page + 1);
          PageRun(data + rest.items, rest.requested, rest.err)
  }

  /** The items of pages `lo`..`hi`, in page order. */
  function ConcatPages<T>(pages: seq<Result<seq<T>, Error>>, lo: int, hi: int): seq<T>
    decreases hi - lo
  {
    if lo > hi then [] else PageData(pages, lo) + ConcatPages(pages, lo + 1, hi)
  }

  /** What the loop promises, from any starting page: the pages requested
      are consecutive; with a cap, no page past it is requested; every page
      but the last was full and succeeded; the items are those pages'
      items in order; and an error ends the loop at the page that failed,
      keeping what earlier pages yielded. */
  lemma {:induction false} PaginateShape<T>(pages: seq<Result<seq<T>, Error>>, perPage: int, maxPages: Option<int>, page: nat)
    requires page >= 1
    ensures var run := PaginateFrom(pages, perPage, maxPages, page);
      && run.requested >= page - 1
      && (Capped(maxPages) && page <= maxPages.value + 1 ==> run.requested <= maxPages.value)
      && (forall p :: page <= p < run.requested ==> FetchPage(pages, p).Success? && |PageData(pages, p)| >= perPage && |PageData(pages, p)| > 0)
      && (run.err.None? ==> run.items == ConcatPages(pages, page, run.requested))
      && (run.err.Some? ==> run.requested >= page && FetchPage(pages, run.requested) == Failure(run.err.value)
                             && run.items == ConcatPages(pages, page, run.requested - 1))
    decreases |pages| + 1 - page
  {
    var run := PaginateFrom(pages, perPage, maxPages, page);
    if Capped(maxPages) && page > maxPages.value {
    } else {
      match FetchPage(pages, page)
      case Failure(e) =>
      case Success(data) =>
        if |data| == 0 {
          assert ConcatPages(pages, page + 1, page) == [];
        } else if |data| < perPage {
          assert ConcatPages(pages, page + 1, page) == [];
        } else {
          PaginateShape(pages, perPage, maxPages, page + 1);
          var rest := PaginateFrom(pages, perPage, maxPages, page + 1);
          if rest.err.None? {
            if rest.requested == page {
              assert ConcatPages(pages, page + 1, page) == [];
            }
          } else {
            if rest.requested - 1 == page {
              assert ConcatPages(pages, page + 1, page) == [];
            }
          }
        }
    }
  }

  /** The loop ends without error only at an empty or short page, or at
      the cap. */
  lemma {:induction false} PaginateStopsForAReason<T>(pages: seq<Result<seq<T>, Error>>, perPage: int, maxPages: Option<int>, page: nat)
    requires page >= 1
    ensures var run := PaginateFrom(pages, perPage, maxPages, page);
      run.err.None? ==>
        || (Capped(maxPages) && run.requested == (if page - 1 > maxPages.value then page - 1 else maxPages.value))
        || (FetchPage(pages, run.requested).Success? && |PageData(pages, run.requested)| < perPage)
        || (FetchPage(pages, run.requested).Success? && |PageData(pages, run.requested)| == 0)
    decreases |pages| + 1 - page
  {
    if Capped(maxPages) && page > maxPages.value {
    } else {
      match FetchPage(pages, page)
      case Failure(e) =>
      case Success(data) =>
        if |data| != 0 && |data| >= perPage {
          PaginateStopsForAReason(pages, perPage, maxPages, page + 1);
        }
    }
  }

  /** `paginate` run to completion by a consumer that takes every item:
      the items yielded, the pages requested (the parameters of each
      request), and the error that ended the iteration, if any. */
  method Paginate<T>(pages: seq<Result<seq<T>, Error>>, params: Params, perPage: Option<int>, maxPages: Option<int>)
    returns (items: seq<T>, requests: seq<Params>, err: Option<Error>)
    ensures var run := PaginateFrom(pages, perPage.GetOr(DefaultPerPage), maxPages, 1);
      && items == run.items && |requests| == run.requested && err == run.err
    ensures forall i :: 0 <= i < |requests| ==> requests[i] == PageParams(params, i + 1, perPage.GetOr(DefaultPerPage))
  {
    var size := perPage.GetOr(DefaultPerPage);
    var page := 1;
    items := [];
    requests := [];
    err := None;
    while true
      invariant page >= 1 && |requests| == page - 1
      invariant forall i :: 0 <= i < |requests| ==> requests[i] == PageParams(params, i + 1, size)
      invariant PaginateFrom(pages, size, maxPages, 1) == PaginateFrom(pages, size, maxPages, page).(items := items + PaginateFrom(pages, size, maxPages, page).items)
      invariant err.None?
      decreases |pages| + 1 - page
    {
      if Capped(maxPages) && page > maxPages.value {
        break;
      }
      requests := requests + [PageParams(params, page, size)];
      var res := FetchPage(pages, page);
      if res.Failure? {
        err := Some(res.error);
        return;
      }
      var data := res.value;
      if |data| == 0 {
        return;
      }
      items := items + data;
      if |data| < size {
        return;
      }
      page := page + 1;
    }
  }

  /** `collectPaginated`: every item of every page in order, or the error
      that ended the iteration (the items already read are then lost). */
  method CollectPaginated<T>(pages: seq<Result<seq<T>, Error>>, params: Params, perPage: Option<int>, maxPages: Option<int>)
    returns (r: Result<seq<T>, Error>)
    ensures var run := PaginateFrom(pages, perPage.GetOr(DefaultPerPage), maxPages, 1);
      && (r.Success? <==> run.err.None?)
      && (r.Success? ==> r.value == ConcatPages(pages, 1, run.requested))
      && (r.Failure? ==> r.error == run.err.value)
  {
    PaginateShape(pages, perPage.GetOr(DefaultPerPage), maxPages, 1);
    var items, _, err := Paginate(pages, params, perPage, maxPages);
    var results: seq<T> := [];
    var i := 0;
    while i < |items|
      invariant 0 <= i <= |items| && results == items[..i]
    {
      results := results + [items[i]];
      i := i + 1;
    }
    if err.Some? {
      return Failure(err.value);
    }
    assert items[..|items|] == items;
    r := Success(results);
  }
}
