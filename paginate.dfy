/**
 * The page loop of src/lib/paginate.ts for its four styles. Each request goes through
 * getWithRetry; the oracle `responses` holds, in order, what getWithRetry returned for
 * each request made (past its end, a request fails like a rejected fetch). A run records
 * the batches yielded, the path of every request made, and the error thrown, if any.
 * `firstOnly` models a consumer that stops after the first batch it receives.
 */
module Paginate {
  import opened Wrappers
  import opened Js
  import opened Errors
  import opened Endpoints
  import Query

  /** A request made: fetchPage on a path and parameters, or getWithRetry on a link read from a response. */
  datatype Request = FetchPage(path: string, params: seq<(string, Json)>) | FollowLink(next: Json)

  datatype Run = Run(batches: seq<Json>, requests: seq<Request>, error: Option<Error>)

  /** The outcome of request number i. */
  function Fetch(responses: seq<Result<Json, Error>>, i: nat): Result<Json, Error> {
    if i < |responses| then responses[i] else Failure(NetworkFailure)
  }

  /** `Array.isArray(data) ? data : data?.items ?? data?.data ?? []` */
  function ExtractItems(data: Json): (items: Json)
    ensures data.Arr? ==> items == data
    ensures !data.Arr? && !data.Obj? ==> items == Arr([])
    ensures data.Obj? && !IsNullish(Get(data, "items")) ==> items == Get(data, "items")
    ensures data.Obj? && IsNullish(Get(data, "items")) && !IsNullish(Get(data, "data")) ==> items == Get(data, "data")
    ensures data.Obj? && IsNullish(Get(data, "items")) && IsNullish(Get(data, "data")) ==> items == Arr([])
    ensures !IsNullish(items)
  {
    if data.Arr? then data else Coalesce(Get(data, "items"), Coalesce(Get(data, "data"), Arr([])))
  }

  /** The path fetchPage requests: the path followed by qs(params). */
  function PagePath(basePath: string, params: seq<(string, Json)>): string {
    basePath + Query.QueryString(Some(params))
  }

  /** The path given to getWithRetry for a request: `${path}${qs(params)}`, or the link as text. */
  function RequestPath(r: Request): string {
    match r
    case FetchPage(path, params) => PagePath(path, params)
    case FollowLink(next) => ToStr(next)
  }

  /** fetchPage's path, built as it builds it. */
  method FetchPagePath(basePath: string, params: seq<(string, Json)>) returns (full: string)
    ensures full == RequestPath(FetchPage(basePath, params))
  {
    var q := Query.Qs(Some(params));
    full := basePath + q;
  }

  /** A batch yielded, with its request, in front of the rest of a run. */
  function Prepend(batch: Json, request: Request, rest: Run): Run {
    Run([batch] + rest.batches, [request] + rest.requests, rest.error)
  }

  /** A finished prefix followed by the rest of a run. */
  function Concat(done: Run, rest: Run): Run {
    Run(done.batches + rest.batches, done.requests + rest.requests, rest.error)
  }

  /** Moving one yielded batch from the rest of a run onto the finished prefix. */
  lemma ConcatPrepend(batches: seq<Json>, requests: seq<Request>, batch: Json, request: Request, rest: Run)
    ensures Concat(Run(batches, requests, None), Prepend(batch, request, rest))
         == Concat(Run(batches + [batch], requests + [request], None), rest)
  {
    assert batches + ([batch] + rest.batches) == (batches + [batch]) + rest.batches;
    assert requests + ([request] + rest.requests) == (requests + [request]) + rest.requests;
  }

  // ---------------------------------------------------------------- none

  /** Style "none": one request, one batch. */
  function NoneRun(basePath: string, init: seq<(string, Json)>, responses: seq<Result<Json, Error>>): Run {
    var req := FetchPage(basePath, init);
    match Fetch(responses, 0)
    case Failure(e) => Run([], [req], Some(e))
    case Success(data) => Run([ExtractItems(data)], [req], None)
  }

  method PaginateNone(basePath: string, init: seq<(string, Json)>, responses: seq<Result<Json, Error>>) returns (run: Run)
    ensures run == NoneRun(basePath, init, responses)
  {
    var full := FetchPage(basePath, init);
    var data := Fetch(responses, 0);
    if data.Failure? {
      return Run([], [full], Some(data.error));
    }
    run := Run([ExtractItems(data.value)], [full], None);
  }

  /** Style "none" makes exactly one request and, unless it fails, yields exactly one batch. */
  lemma NoneFetchesOnce(basePath: string, init: seq<(string, Json)>, responses: seq<Result<Json, Error>>)
    ensures |NoneRun(basePath, init, responses).requests| == 1
    ensures NoneRun(basePath, init, responses).requests[0] == FetchPage(basePath, init)
    ensures |NoneRun(basePath, init, responses).batches| == if Fetch(responses, 0).Success? then 1 else 0
  {
  }

  // ---------------------------------------------------------------- cursor

  /** The key the cursor seed is read from: `cursorParam || ""`. */
  function CursorReadKey(p: Pagination): string {
    OrDefault(p.cursorParam, "")
  }

  /** The key the cursor is written to: `cursorParam!`, which is the text "undefined" when unset. */
  function CursorWriteKey(p: Pagination): string {
    if p.cursorParam.Some? then p.cursorParam.value else "undefined"
  }

  /** `data?.next_page || data?.nextPage || data?.cursor || null` */
  function NextCursor(data: Json): Json {
    Or(Get(data, "next_page"), Or(Get(data, "nextPage"), Or(Get(data, "cursor"), Null)))
  }

  /** The parameters of a cursor request: a truthy cursor is written into them. */
  function WithCursor(params: seq<(string, Json)>, key: string, cursor: Json): seq<(string, Json)> {
    if Truthy(cursor) then Put(params, key, cursor) else params
  }

  /** Style "cursor" from request i on, with the parameters and cursor the loop holds at its head. */
  function CursorRun(basePath: string, key: string, params: seq<(string, Json)>, cursor: Json,
                     responses: seq<Result<Json, Error>>, i: nat, firstOnly: bool): Run
    decreases |responses| - i
  {
    var p := WithCursor(params, key, cursor);
    var req := FetchPage(basePath, p);
    match Fetch(responses, i)
    case Failure(e) => Run([], [req], Some(e))
    case Success(data) =>
      if firstOnly || !Truthy(NextCursor(data)) then Run([ExtractItems(data)], [req], None)
      else Prepend(ExtractItems(data), req, CursorRun(basePath, key, p, NextCursor(data), responses, i + 1, firstOnly))
  }

  method PaginateCursor(basePath: string, pagination: Pagination, init: seq<(string, Json)>,
                        responses: seq<Result<Json, Error>>, firstOnly: bool) returns (run: Run)
    ensures run == CursorRun(basePath, CursorWriteKey(pagination), init, Lookup(init, CursorReadKey(pagination)), responses, 0, firstOnly)
  {
    var key := CursorWriteKey(pagination);
    var cursor := Lookup(init, CursorReadKey(pagination));
    var params := init;
    ghost var whole := CursorRun(basePath, key, init, cursor, responses, 0, firstOnly);
    var batches: seq<Json> := [];
    var requests: seq<Request> := [];
    var i := 0;
    while true
      invariant i <= |responses|
      invariant Concat(Run(batches, requests, None), CursorRun(basePath, key, params, cursor, responses, i, firstOnly)) == whole
      decreases |responses| - i
    {
      ghost var before := params;
      if Truthy(cursor) {
        params := Put(params, key, cursor);
      }
      assert params == WithCursor(before, key, cursor);
      var full := FetchPage(basePath, params);
      var data := Fetch(responses, i);
      requests := requests + [full];
      if data.Failure? {
        return Run(batches, requests, Some(data.error));
      }
      var items := ExtractItems(data.value);
      ghost var rest := CursorRun(basePath, key, params, NextCursor(data.value), responses, i + 1, firstOnly);
      ghost var prefix := Run(batches, requests[..|requests| - 1], None);
      batches := batches + [items];
      if firstOnly {
        break;
      }
      cursor := NextCursor(data.value);
      if !Truthy(cursor) {
        break;
      }
      ConcatPrepend(prefix.batches, prefix.requests, items, full, rest);
      i := i + 1;
    }
    run := Run(batches, requests, None);
  }

  // ---------------------------------------------------------------- page

  /** `pageParam || "page"` */
  function PageKey(p: Pagination): string {
    OrDefault(p.pageParam, "page")
  }

  /** `perPageParam || "per_page"` */
  function PerPageKey(p: Pagination): string {
    OrDefault(p.perPageParam, "per_page")
  }

  /** A page seed the source treats as a number: a number, or a falsy value that the default replaces. */
  predicate NumericOrFalsy(v: Json) {
    !Truthy(v) || v.Num?
  }

  /** `(v as number) || d` */
  function NumberOr(v: Json, d: int): int
    requires NumericOrFalsy(v)
  {
    if Truthy(v) then v.n else d
  }

  /** `{ ...initialParams, [pageParam]: page, [perParam]: perPage }` */
  function PageParams(init: seq<(string, Json)>, pageKey: string, perKey: string, page: int, perPage: int): seq<(string, Json)> {
    Put(Put(init, pageKey, Num(page)), perKey, Num(perPage))
  }

  /** `items.length` */
  function Length(items: Json): Json {
    match items
    case Arr(e) => Num(|e|)
    case Str(s) => Num(|s|)
    case Obj(fields) => Lookup(fields, "length")
    case _ => Undefined
  }

  /** `items.length < perPage` for a length that is a number or a boolean. */
  predicate ShorterThan(len: Json, perPage: int) {
    match len
    case Num(n) => n < perPage
    case Bool(b) => (if b then 1 else 0) < perPage
    case _ => false
  }

  /** Style "page" from request i on, asking for page number `page`. */
  function PageRun(basePath: string, init: seq<(string, Json)>, pageKey: string, perKey: string, page: int, perPage: int,
                   responses: seq<Result<Json, Error>>, i: nat, firstOnly: bool): Run
    decreases |responses| - i
  {
    var req := FetchPage(basePath, PageParams(init, pageKey, perKey, page, perPage));
    match Fetch(responses, i)
    case Failure(e) => Run([], [req], Some(e))
    case Success(data) =>
      var items := ExtractItems(data);
      if !Truthy(Length(items)) then Run([], [req], None)
      else if firstOnly || ShorterThan(Length(items), perPage) then Run([items], [req], None)
      else Prepend(items, req, PageRun(basePath, init, pageKey, perKey, page + 1, perPage, responses, i + 1, firstOnly))
  }

  method PaginatePage(basePath: string, pagination: Pagination, init: seq<(string, Json)>,
                      responses: seq<Result<Json, Error>>, firstOnly: bool) returns (run: Run)
    requires NumericOrFalsy(Lookup(init, PageKey(pagination)))
    requires NumericOrFalsy(Lookup(init, PerPageKey(pagination)))
    ensures run == PageRun(basePath, init, PageKey(pagination), PerPageKey(pagination),
      NumberOr(Lookup(init, PageKey(pagination)), 1), NumberOr(Lookup(init, PerPageKey(pagination)), 50), responses, 0, firstOnly)
  {
    var pageKey := PageKey(pagination);
    var perKey := PerPageKey(pagination);
    var page := NumberOr(Lookup(init, pageKey), 1);
    var perPage := NumberOr(Lookup(init, perKey), 50);
    ghost var whole := PageRun(basePath, init, pageKey, perKey, page, perPage, responses, 0, firstOnly);
    var batches: seq<Json> := [];
    var requests: seq<Request> := [];
    var i := 0;
    while true
      invariant i <= |responses|
      invariant Concat(Run(batches, requests, None), PageRun(basePath, init, pageKey, perKey, page, perPage, responses, i, firstOnly)) == whole
      decreases |responses| - i
    {
      var full := FetchPage(basePath, PageParams(init, pageKey, perKey, page, perPage));
      var data := Fetch(responses, i);
      if data.Failure? {
        PageStops(basePath, init, pageKey, perKey, page, perPage, responses, i, firstOnly, batches, requests, whole);
        return Run(batches, requests + [full], Some(data.error));
      }
      var items := ExtractItems(data.value);
      if !Truthy(Length(items)) {
        PageStops(basePath, init, pageKey, perKey, page, perPage, responses, i, firstOnly, batches, requests, whole);
        return Run(batches, requests + [full], None);
      }
      if firstOnly || ShorterThan(Length(items), perPage) {
        PageStops(basePath, init, pageKey, perKey, page, perPage, responses, i, firstOnly, batches, requests, whole);
        return Run(batches + [items], requests + [full], None);
      }
      PageGoesOnFrom(basePath, init, pageKey, perKey, page, perPage, responses, i, firstOnly, batches, requests, whole);
      batches := batches + [items];
      requests := requests + [full];
      page := page + 1;
      i := i + 1;
    }
  }

  /** A page request that does not lead to another ends the run: with its error, with no batch, or with its batch. */
  lemma PageStops(basePath: string, init: seq<(string, Json)>, pageKey: string, perKey: string, page: int, perPage: int,
                  responses: seq<Result<Json, Error>>, i: nat, firstOnly: bool,
                  batches: seq<Json>, requests: seq<Request>, whole: Run)
    requires Concat(Run(batches, requests, None), PageRun(basePath, init, pageKey, perKey, page, perPage, responses, i, firstOnly)) == whole
    requires !PageGoesOn(responses, i, perPage, firstOnly)
    ensures var req := FetchPage(basePath, PageParams(init, pageKey, perKey, page, perPage));
      var d := Fetch(responses, i);
      whole == if d.Failure? then Run(batches, requests + [req], Some(d.error))
               else if !Truthy(Length(ExtractItems(d.value))) then Run(batches, requests + [req], None)
               else Run(batches + [ExtractItems(d.value)], requests + [req], None)
  {
    assert batches + [] == batches;
  }

  /** A page request that leads to another moves its batch and request onto the finished prefix. */
  lemma PageGoesOnFrom(basePath: string, init: seq<(string, Json)>, pageKey: string, perKey: string, page: int, perPage: int,
                       responses: seq<Result<Json, Error>>, i: nat, firstOnly: bool,
                       batches: seq<Json>, requests: seq<Request>, whole: Run)
    requires Concat(Run(batches, requests, None), PageRun(basePath, init, pageKey, perKey, page, perPage, responses, i, firstOnly)) == whole
    requires PageGoesOn(responses, i, perPage, firstOnly)
    ensures i < |responses|
    ensures Concat(Run(batches + [ExtractItems(Fetch(responses, i).value)], requests + [FetchPage(basePath, PageParams(init, pageKey, perKey, page, perPage))], None),
                   PageRun(basePath, init, pageKey, perKey, page + 1, perPage, responses, i + 1, firstOnly)) == whole
  {
    PageStep(basePath, init, pageKey, perKey, page, perPage, responses, i, firstOnly);
    ConcatPrepend(batches, requests, ExtractItems(Fetch(responses, i).value), FetchPage(basePath, PageParams(init, pageKey, perKey, page, perPage)),
                  PageRun(basePath, init, pageKey, perKey, page + 1, perPage, responses, i + 1, firstOnly));
  }

  // ---------------------------------------------------------------- link

  /** `data?.next ?? data?.[nextField || "next"]` */
  function NextLink(data: Json, nextField: Option<string>): Json {
    Coalesce(Get(data, "next"), Get(data, OrDefault(nextField, "next")))
  }

  /** Style "link" from request i on; `next` is None before the first request. */
  function LinkRun(basePath: string, init: seq<(string, Json)>, nextField: Option<string>, next: Option<Json>,
                   responses: seq<Result<Json, Error>>, i: nat, firstOnly: bool): Run
    decreases |responses| - i
  {
    var req := if next.None? then FetchPage(basePath, init) else FollowLink(next.value);
    match Fetch(responses, i)
    case Failure(e) => Run([], [req], Some(e))
    case Success(data) =>
      if firstOnly || !Truthy(NextLink(data, nextField)) then Run([ExtractItems(data)], [req], None)
      else Prepend(ExtractItems(data), req, LinkRun(basePath, init, nextField, Some(NextLink(data, nextField)), responses, i + 1, firstOnly))
  }

  method PaginateLink(basePath: string, pagination: Pagination, init: seq<(string, Json)>,
                      responses: seq<Result<Json, Error>>, firstOnly: bool) returns (run: Run)
    ensures run == LinkRun(basePath, init, pagination.nextField, None, responses, 0, firstOnly)
  {
    var nextField := pagination.nextField;
    var next: Json := Null;
    var first := true;
    ghost var whole := LinkRun(basePath, init, nextField, None, responses, 0, firstOnly);
    var batches: seq<Json> := [];
    var requests: seq<Request> := [];
    var i := 0;
    while true
      invariant i <= |responses|
      invariant first <==> i == 0
      invariant Concat(Run(batches, requests, None),
        LinkRun(basePath, init, nextField, if first then None else Some(next), responses, i, firstOnly)) == whole
      decreases |responses| - i
    {
      ghost var prev := if first then None else Some(next);
      var path := if first then FetchPage(basePath, init) else FollowLink(next);
      var data := Fetch(responses, i);
      if data.Failure? {
        LinkStops(basePath, init, nextField, prev, responses, i, firstOnly, batches, requests, whole);
        return Run(batches, requests + [path], Some(data.error));
      }
      var items := ExtractItems(data.value);
      if firstOnly {
        LinkStops(basePath, init, nextField, prev, responses, i, firstOnly, batches, requests, whole);
        return Run(batches + [items], requests + [path], None);
      }
      var link := NextLink(data.value, nextField);
      if !Truthy(link) {
        LinkStops(basePath, init, nextField, prev, responses, i, firstOnly, batches, requests, whole);
        return Run(batches + [items], requests + [path], None);
      }
      LinkGoesOnFrom(basePath, init, nextField, prev, responses, i, firstOnly, batches, requests, whole);
      batches := batches + [items];
      requests := requests + [path];
      first := false;
      next := link;
      i := i + 1;
    }
  }

  /** A link request that does not lead to another ends the run: with its error, or with its batch. */
  lemma LinkStops(basePath: string, init: seq<(string, Json)>, nextField: Option<string>, next: Option<Json>,
                  responses: seq<Result<Json, Error>>, i: nat, firstOnly: bool,
                  batches: seq<Json>, requests: seq<Request>, whole: Run)
    requires Concat(Run(batches, requests, None), LinkRun(basePath, init, nextField, next, responses, i, firstOnly)) == whole
    requires !LinkGoesOn(responses, i, nextField, firstOnly)
    ensures var req := LinkRequest(basePath, init, next);
      var d := Fetch(responses, i);
      whole == if d.Failure? then Run(batches, requests + [req], Some(d.error))
               else Run(batches + [ExtractItems(d.value)], requests + [req], None)
  {
    assert batches + [] == batches;
  }

  /** A link request that leads to another moves its batch and request onto the finished prefix. */
  lemma LinkGoesOnFrom(basePath: string, init: seq<(string, Json)>, nextField: Option<string>, next: Option<Json>,
                       responses: seq<Result<Json, Error>>, i: nat, firstOnly: bool,
                       batches: seq<Json>, requests: seq<Request>, whole: Run)
    requires Concat(Run(batches, requests, None), LinkRun(basePath, init, nextField, next, responses, i, firstOnly)) == whole
    requires LinkGoesOn(responses, i, nextField, firstOnly)
    ensures i < |responses|
    ensures Concat(Run(batches + [ExtractItems(Fetch(responses, i).value)], requests + [LinkRequest(basePath, init, next)], None),
                   LinkRun(basePath, init, nextField, Some(NextLink(Fetch(responses, i).value, nextField)), responses, i + 1, firstOnly)) == whole
  {
    LinkStep(basePath, init, nextField, next, responses, i, firstOnly);
    ConcatPrepend(batches, requests, ExtractItems(Fetch(responses, i).value), LinkRequest(basePath, init, next),
                  LinkRun(basePath, init, nextField, Some(NextLink(Fetch(responses, i).value, nextField)), responses, i + 1, firstOnly));
  }

  // ---------------------------------------------------------------- dispatch

  /** paginate: the run of the configured style. */
  function PaginateRun(p: Pagination, basePath: string, init: seq<(string, Json)>,
                       responses: seq<Result<Json, Error>>, firstOnly: bool): Run
    requires p.style == PageStyle ==> NumericOrFalsy(Lookup(init, PageKey(p))) && NumericOrFalsy(Lookup(init, PerPageKey(p)))
  {
    match p.style
    case NoPaging => NoneRun(basePath, init, responses)
    case CursorStyle => CursorRun(basePath, CursorWriteKey(p), init, Lookup(init, CursorReadKey(p)), responses, 0, firstOnly)
    case PageStyle =>
      PageRun(basePath, init, PageKey(p), PerPageKey(p), NumberOr(Lookup(init, PageKey(p)), 1),
        NumberOr(Lookup(init, PerPageKey(p)), 50), responses, 0, firstOnly)
    case LinkStyle => LinkRun(basePath, init, p.nextField, None, responses, 0, firstOnly)
  }

  method Paginate(p: Pagination, basePath: string, init: seq<(string, Json)>,
                  responses: seq<Result<Json, Error>>, firstOnly: bool) returns (run: Run)
    requires p.style == PageStyle ==> NumericOrFalsy(Lookup(init, PageKey(p))) && NumericOrFalsy(Lookup(init, PerPageKey(p)))
    ensures run == PaginateRun(p, basePath, init, responses, firstOnly)
  {
    match p.style
    case NoPaging => run := PaginateNone(basePath, init, responses);
    case CursorStyle => run := PaginateCursor(basePath, p, init, responses, firstOnly);
    case PageStyle => run := PaginatePage(basePath, p, init, responses, firstOnly);
    case LinkStyle => run := PaginateLink(basePath, p, init, responses, firstOnly);
  }

  // ---------------------------------------------------------------- properties

  /** The cursor read from a response; a failed request has none. */
  function NextOf(d: Result<Json, Error>): Json {
    if d.Success? then NextCursor(d.value) else Null
  }

  /** The parameters of request k of a cursor run that starts at request i. */
  function CursorParamsAt(params: seq<(string, Json)>, key: string, cursor: Json,
                          responses: seq<Result<Json, Error>>, i: nat, k: nat): seq<(string, Json)>
    decreases k
  {
    if k == 0 then WithCursor(params, key, cursor)
    else CursorParamsAt(WithCursor(params, key, cursor), key, NextOf(Fetch(responses, i)), responses, i + 1, k - 1)
  }

  /** A cursor run goes on exactly when the request succeeded, the consumer goes on, and a cursor came back. */
  predicate CursorGoesOn(responses: seq<Result<Json, Error>>, i: nat, firstOnly: bool) {
    Fetch(responses, i).Success? && !firstOnly && Truthy(NextOf(Fetch(responses, i)))
  }

  lemma CursorStep(basePath: string, key: string, params: seq<(string, Json)>, cursor: Json,
                   responses: seq<Result<Json, Error>>, i: nat, firstOnly: bool)
    requires CursorGoesOn(responses, i, firstOnly)
    ensures CursorRun(basePath, key, params, cursor, responses, i, firstOnly)
      == Prepend(ExtractItems(Fetch(responses, i).value), FetchPage(basePath, WithCursor(params, key, cursor)),
                 CursorRun(basePath, key, WithCursor(params, key, cursor), NextOf(Fetch(responses, i)), responses, i + 1, firstOnly))
  {
  }

  /**
   * Every request of a cursor run but a failed last one yields its batch, so batches and
   * requests are as many; a run makes at most one request per response, and throws the
   * error of its last request.
   */
  lemma {:induction false} CursorBatchPerRequest(basePath: string, key: string, params: seq<(string, Json)>, cursor: Json,
                                                responses: seq<Result<Json, Error>>, i: nat, firstOnly: bool)
    requires i <= |responses|
    ensures var r := CursorRun(basePath, key, params, cursor, responses, i, firstOnly);
      1 <= |r.requests| && i + |r.requests| <= |responses| + 1 &&
      |r.batches| == |r.requests| - (if r.error.Some? then 1 else 0) &&
      (r.error.Some? ==> Fetch(responses, i + |r.requests| - 1).Failure? && Fetch(responses, i + |r.requests| - 1).error == r.error.value)
    decreases |responses| - i
  {
    if CursorGoesOn(responses, i, firstOnly) {
      CursorStep(basePath, key, params, cursor, responses, i, firstOnly);
      CursorBatchPerRequest(basePath, key, WithCursor(params, key, cursor), NextOf(Fetch(responses, i)), responses, i + 1, firstOnly);
    }
  }

  /** The items of responses i .. i + n - 1 (a failed response has none). */
  function ItemsFrom(responses: seq<Result<Json, Error>>, i: nat, n: nat): (items: seq<Json>)
    ensures |items| == n
    decreases n
  {
    if n == 0 then []
    else [if Fetch(responses, i).Success? then ExtractItems(Fetch(responses, i).value) else Arr([])] + ItemsFrom(responses, i + 1, n - 1)
  }

  /** The batches of a cursor run are the items of its responses, one batch per response, in order. */
  lemma {:induction false} CursorBatchesAreItems(basePath: string, key: string, params: seq<(string, Json)>, cursor: Json,
                                                responses: seq<Result<Json, Error>>, i: nat, firstOnly: bool)
    ensures var r := CursorRun(basePath, key, params, cursor, responses, i, firstOnly);
      r.batches == ItemsFrom(responses, i, |r.batches|)
    decreases |responses| - i
  {
    if CursorGoesOn(responses, i, firstOnly) {
      CursorStep(basePath, key, params, cursor, responses, i, firstOnly);
      CursorBatchesAreItems(basePath, key, WithCursor(params, key, cursor), NextOf(Fetch(responses, i)), responses, i + 1, firstOnly);
    }
  }

  /** Request k of a cursor run sends the parameters CursorParamsAt(k). */
  lemma {:induction false} CursorRequestParams(basePath: string, key: string, params: seq<(string, Json)>, cursor: Json,
                                              responses: seq<Result<Json, Error>>, i: nat, firstOnly: bool)
    ensures var r := CursorRun(basePath, key, params, cursor, responses, i, firstOnly);
      forall k :: 0 <= k < |r.requests| ==> r.requests[k] == FetchPage(basePath, CursorParamsAt(params, key, cursor, responses, i, k))
    decreases |responses| - i
  {
    if CursorGoesOn(responses, i, firstOnly) {
      var p, n := WithCursor(params, key, cursor), NextOf(Fetch(responses, i));
      CursorStep(basePath, key, params, cursor, responses, i, firstOnly);
      CursorRequestParams(basePath, key, p, n, responses, i + 1, firstOnly);
      var r, rest := CursorRun(basePath, key, params, cursor, responses, i, firstOnly), CursorRun(basePath, key, p, n, responses, i + 1, firstOnly);
      forall k | 0 < k < |r.requests|
        ensures r.requests[k] == FetchPage(basePath, CursorParamsAt(params, key, cursor, responses, i, k))
      {
        assert r.requests[k] == rest.requests[k - 1];
      }
    }
  }

  /** A cursor run follows every cursor it reads and stops at the first response without one. */
  lemma CursorStopsWithoutNext(basePath: string, key: string, params: seq<(string, Json)>, cursor: Json,
                               responses: seq<Result<Json, Error>>, i: nat, firstOnly: bool)
    ensures var r := CursorRun(basePath, key, params, cursor, responses, i, firstOnly);
      (forall j :: i <= j < i + |r.requests| - 1 ==> CursorGoesOn(responses, j, firstOnly)) &&
      !CursorGoesOn(responses, i + |r.requests| - 1, firstOnly)
  {
    CursorFollowsEveryCursor(basePath, key, params, cursor, responses, i, firstOnly);
    CursorLastStops(basePath, key, params, cursor, responses, i, firstOnly);
  }

  /** Every request of a cursor run but the last led to another. */
  lemma {:induction false} CursorFollowsEveryCursor(basePath: string, key: string, params: seq<(string, Json)>, cursor: Json,
                                                   responses: seq<Result<Json, Error>>, i: nat, firstOnly: bool)
    ensures var r := CursorRun(basePath, key, params, cursor, responses, i, firstOnly);
      |r.requests| >= 1 && forall j :: i <= j < i + |r.requests| - 1 ==> CursorGoesOn(responses, j, firstOnly)
    decreases |responses| - i
  {
    if CursorGoesOn(responses, i, firstOnly) {
      var p, n := WithCursor(params, key, cursor), NextOf(Fetch(responses, i));
      CursorStep(basePath, key, params, cursor, responses, i, firstOnly);
      CursorFollowsEveryCursor(basePath, key, p, n, responses, i + 1, firstOnly);
    }
  }

  /** The last request of a cursor run does not lead to another. */
  lemma {:induction false} CursorLastStops(basePath: string, key: string, params: seq<(string, Json)>, cursor: Json,
                                          responses: seq<Result<Json, Error>>, i: nat, firstOnly: bool)
    ensures var r := CursorRun(basePath, key, params, cursor, responses, i, firstOnly);
      !CursorGoesOn(responses, i + |r.requests| - 1, firstOnly)
    decreases |responses| - i
  {
    if CursorGoesOn(responses, i, firstOnly) {
      var p, n := WithCursor(params, key, cursor), NextOf(Fetch(responses, i));
      CursorStep(basePath, key, params, cursor, responses, i, firstOnly);
      CursorLastStops(basePath, key, p, n, responses, i + 1, firstOnly);
    }
  }

  /** The cursor sent with request k + 1 is the one read from response k. */
  lemma {:induction false} CursorSentIsPreviousNext(params: seq<(string, Json)>, key: string, cursor: Json,
                                                   responses: seq<Result<Json, Error>>, i: nat, k: nat)
    requires Truthy(NextOf(Fetch(responses, i + k)))
    ensures Lookup(CursorParamsAt(params, key, cursor, responses, i, k + 1), key) == NextOf(Fetch(responses, i + k))
    decreases k
  {
    var p := WithCursor(params, key, cursor);
    if k == 0 {
      PutLookup(p, key, NextOf(Fetch(responses, i)), key);
    } else {
      assert i + k == (i + 1) + (k - 1);
      CursorSentIsPreviousNext(p, key, NextOf(Fetch(responses, i)), responses, i + 1, k - 1);
    }
  }

  /** The first cursor request carries the seed read from the initial parameters, when it is truthy. */
  lemma CursorSeeded(basePath: string, p: Pagination, init: seq<(string, Json)>, responses: seq<Result<Json, Error>>, firstOnly: bool)
    requires p.style == CursorStyle
    ensures PaginateRun(p, basePath, init, responses, firstOnly).requests[0]
         == FetchPage(basePath, WithCursor(init, CursorWriteKey(p), Lookup(init, CursorReadKey(p))))
  {
    CursorRequestParams(basePath, CursorWriteKey(p), init, Lookup(init, CursorReadKey(p)), responses, 0, firstOnly);
    CursorBatchPerRequest(basePath, CursorWriteKey(p), init, Lookup(init, CursorReadKey(p)), responses, 0, firstOnly);
  }

  /** A page run goes on when the request succeeded with a full, non-empty batch and the consumer goes on. */
  predicate PageGoesOn(responses: seq<Result<Json, Error>>, i: nat, perPage: int, firstOnly: bool) {
    Fetch(responses, i).Success? && Truthy(Length(ExtractItems(Fetch(responses, i).value))) && !firstOnly &&
    !ShorterThan(Length(ExtractItems(Fetch(responses, i).value)), perPage)
  }

  lemma PageStep(basePath: string, init: seq<(string, Json)>, pageKey: string, perKey: string,
                 page: int, perPage: int, responses: seq<Result<Json, Error>>, i: nat, firstOnly: bool)
    requires PageGoesOn(responses, i, perPage, firstOnly)
    ensures PageRun(basePath, init, pageKey, perKey, page, perPage, responses, i, firstOnly)
      == Prepend(ExtractItems(Fetch(responses, i).value), FetchPage(basePath, PageParams(init, pageKey, perKey, page, perPage)),
                 PageRun(basePath, init, pageKey, perKey, page + 1, perPage, responses, i + 1, firstOnly))
  {
  }

  /**
   * A page run makes at least one request and at most one past the responses, yields a
   * batch for every request but possibly the last, and an error only from the last request,
   * which then yielded nothing.
   */
  lemma {:induction false} PageRunShape(basePath: string, init: seq<(string, Json)>, pageKey: string, perKey: string,
                                       page: int, perPage: int, responses: seq<Result<Json, Error>>, i: nat, firstOnly: bool)
    requires i <= |responses|
    ensures var r := PageRun(basePath, init, pageKey, perKey, page, perPage, responses, i, firstOnly);
      1 <= |r.requests| && i + |r.requests| <= |responses| + 1 &&
      |r.requests| - 1 <= |r.batches| <= |r.requests| &&
      (r.error.Some? ==> Fetch(responses, i + |r.requests| - 1).Failure? && Fetch(responses, i + |r.requests| - 1).error == r.error.value && |r.batches| == |r.requests| - 1)
    decreases |responses| - i
  {
    if PageGoesOn(responses, i, perPage, firstOnly) {
      PageStep(basePath, init, pageKey, perKey, page, perPage, responses, i, firstOnly);
      PageRunShape(basePath, init, pageKey, perKey, page + 1, perPage, responses, i + 1, firstOnly);
    }
  }

  /** Request k of a page run asks for page `page + k`, always with the same page size. */
  lemma {:induction false} PageRequestsCount(basePath: string, init: seq<(string, Json)>, pageKey: string, perKey: string,
                                            page: int, perPage: int, responses: seq<Result<Json, Error>>, i: nat, firstOnly: bool)
    ensures var r := PageRun(basePath, init, pageKey, perKey, page, perPage, responses, i, firstOnly);
      forall k :: 0 <= k < |r.requests| ==> r.requests[k] == FetchPage(basePath, PageParams(init, pageKey, perKey, page + k, perPage))
    decreases |responses| - i
  {
    if PageGoesOn(responses, i, perPage, firstOnly) {
      PageStep(basePath, init, pageKey, perKey, page, perPage, responses, i, firstOnly);
      PageRequestsCount(basePath, init, pageKey, perKey, page + 1, perPage, responses, i + 1, firstOnly);
      var r := PageRun(basePath, init, pageKey, perKey, page, perPage, responses, i, firstOnly);
      var rest := PageRun(basePath, init, pageKey, perKey, page + 1, perPage, responses, i + 1, firstOnly);
      forall k | 0 < k < |r.requests|
        ensures r.requests[k] == FetchPage(basePath, PageParams(init, pageKey, perKey, page + k, perPage))
      {
        assert r.requests[k] == rest.requests[k - 1];
        assert (page + 1) + (k - 1) == page + k;
      }
    }
  }

  /** Every batch a page run yields is non-empty, and only the last one may be short. */
  lemma {:induction false} PageBatchesNonEmpty(basePath: string, init: seq<(string, Json)>, pageKey: string, perKey: string,
                                              page: int, perPage: int, responses: seq<Result<Json, Error>>, i: nat, firstOnly: bool)
    ensures var r := PageRun(basePath, init, pageKey, perKey, page, perPage, responses, i, firstOnly);
      (forall k :: 0 <= k < |r.batches| ==> Truthy(Length(r.batches[k]))) &&
      (forall k :: 0 <= k < |r.batches| - 1 ==> !ShorterThan(Length(r.batches[k]), perPage))
    decreases |responses| - i
  {
    if PageGoesOn(responses, i, perPage, firstOnly) {
      PageStep(basePath, init, pageKey, perKey, page, perPage, responses, i, firstOnly);
      PageBatchesNonEmpty(basePath, init, pageKey, perKey, page + 1, perPage, responses, i + 1, firstOnly);
      var r := PageRun(basePath, init, pageKey, perKey, page, perPage, responses, i, firstOnly);
      var rest := PageRun(basePath, init, pageKey, perKey, page + 1, perPage, responses, i + 1, firstOnly);
      forall k | 0 < k < |r.batches|
        ensures r.batches[k] == rest.batches[k - 1]
      {
      }
    }
  }

  /** A page response with no items ends the run without a batch. */
  lemma PageEmptyNotYielded(basePath: string, init: seq<(string, Json)>, pageKey: string, perKey: string,
                            page: int, perPage: int, responses: seq<Result<Json, Error>>, i: nat, firstOnly: bool)
    requires Fetch(responses, i).Success? && !Truthy(Length(ExtractItems(Fetch(responses, i).value)))
    ensures PageRun(basePath, init, pageKey, perKey, page, perPage, responses, i, firstOnly)
         == Run([], [FetchPage(basePath, PageParams(init, pageKey, perKey, page, perPage))], None)
  {
  }

  /** A link run goes on when the request succeeded, the consumer goes on, and a link came back. */
  predicate LinkGoesOn(responses: seq<Result<Json, Error>>, i: nat, nextField: Option<string>, firstOnly: bool) {
    Fetch(responses, i).Success? && !firstOnly && Truthy(NextLink(Fetch(responses, i).value, nextField))
  }

  /** The request a link run makes: fetchPage's path first, the previous link as text after. */
  function LinkRequest(basePath: string, init: seq<(string, Json)>, next: Option<Json>): Request {
    if next.None? then FetchPage(basePath, init) else FollowLink(next.value)
  }

  lemma LinkStep(basePath: string, init: seq<(string, Json)>, nextField: Option<string>, next: Option<Json>,
                 responses: seq<Result<Json, Error>>, i: nat, firstOnly: bool)
    requires LinkGoesOn(responses, i, nextField, firstOnly)
    ensures LinkRun(basePath, init, nextField, next, responses, i, firstOnly)
      == Prepend(ExtractItems(Fetch(responses, i).value), LinkRequest(basePath, init, next),
                 LinkRun(basePath, init, nextField, Some(NextLink(Fetch(responses, i).value, nextField)), responses, i + 1, firstOnly))
  {
  }

  /**
   * A link run yields a batch for every request but a failed last one, stops at the first
   * response without a link, and throws the error of its last request.
   */
  lemma {:induction false} LinkBatchPerRequest(basePath: string, init: seq<(string, Json)>, nextField: Option<string>, next: Option<Json>,
                                              responses: seq<Result<Json, Error>>, i: nat, firstOnly: bool)
    requires i <= |responses|
    ensures var r := LinkRun(basePath, init, nextField, next, responses, i, firstOnly);
      1 <= |r.requests| && i + |r.requests| <= |responses| + 1 &&
      |r.batches| == |r.requests| - (if r.error.Some? then 1 else 0) &&
      r.requests[0] == LinkRequest(basePath, init, next) &&
      (r.error.Some? ==> Fetch(responses, i + |r.requests| - 1).Failure? && Fetch(responses, i + |r.requests| - 1).error == r.error.value) &&
      (forall j :: i <= j < i + |r.requests| - 1 ==> LinkGoesOn(responses, j, nextField, firstOnly)) &&
      !LinkGoesOn(responses, i + |r.requests| - 1, nextField, firstOnly)
    decreases |responses| - i
  {
    if LinkGoesOn(responses, i, nextField, firstOnly) {
      LinkStep(basePath, init, nextField, next, responses, i, firstOnly);
      LinkBatchPerRequest(basePath, init, nextField, Some(NextLink(Fetch(responses, i).value, nextField)), responses, i + 1, firstOnly);
    }
  }

  /** The link read from a response (a failed response has none). */
  function NextLinkOf(d: Result<Json, Error>, nextField: Option<string>): Json {
    if d.Success? then NextLink(d.value, nextField) else Null
  }

  /** The links read from responses i .. i + n - 1, as the requests that follow them. */
  function LinksFrom(responses: seq<Result<Json, Error>>, i: nat, n: nat, nextField: Option<string>): (links: seq<Request>)
    ensures |links| == n
    decreases n
  {
    if n == 0 then [] else [FollowLink(NextLinkOf(Fetch(responses, i), nextField))] + LinksFrom(responses, i + 1, n - 1, nextField)
  }

  /**
   * After its first request, a link run requests exactly the links read from its responses,
   * each passed on verbatim, and its batches are the items of those responses.
   */
  lemma {:induction false} LinkFollowsNext(basePath: string, init: seq<(string, Json)>, nextField: Option<string>, next: Option<Json>,
                                          responses: seq<Result<Json, Error>>, i: nat, firstOnly: bool)
    ensures var r := LinkRun(basePath, init, nextField, next, responses, i, firstOnly);
      |r.requests| >= 1 &&
      r.requests == [LinkRequest(basePath, init, next)] + LinksFrom(responses, i, |r.requests| - 1, nextField) &&
      r.batches == ItemsFrom(responses, i, |r.batches|)
    decreases |responses| - i
  {
    if LinkGoesOn(responses, i, nextField, firstOnly) {
      var n := Some(NextLink(Fetch(responses, i).value, nextField));
      LinkStep(basePath, init, nextField, next, responses, i, firstOnly);
      LinkFollowsNext(basePath, init, nextField, n, responses, i + 1, firstOnly);
      var rest := LinkRun(basePath, init, nextField, n, responses, i + 1, firstOnly);
      assert LinksFrom(responses, i, |rest.requests|, nextField)
          == [FollowLink(n.value)] + LinksFrom(responses, i + 1, |rest.requests| - 1, nextField);
    }
  }

  /** `got.push(...chunk)` over every batch: the items of all batches, in order (batches that are not arrays add nothing here). */
  function AllItems(batches: seq<Json>): seq<Json> {
    if |batches| == 0 then [] else AllItems(batches[..|batches| - 1]) + (if batches[|batches| - 1].Arr? then batches[|batches| - 1].elems else [])
  }

  /** Two cursor pages, `abc` then no cursor, flatten to the items 1, 2, 3 after two requests. */
  lemma CursorExample(basePath: string)
    ensures var responses := [
        Success(Obj([("items", Arr([Num(1), Num(2)])), ("next_page", Str("abc"))])),
        Success(Obj([("items", Arr([Num(3)])), ("next_page", Null)]))];
      var r := PaginateRun(Action1.pagination, basePath, [("limit", Num(2))], responses, false);
      AllItems(r.batches) == [Num(1), Num(2), Num(3)] && r.error.None? &&
      r.requests == [FetchPage(basePath, [("limit", Num(2))]), FetchPage(basePath, [("limit", Num(2)), ("next_page", Str("abc"))])]
  {
    var responses := [
        Success(Obj([("items", Arr([Num(1), Num(2)])), ("next_page", Str("abc"))])),
        Success(Obj([("items", Arr([Num(3)])), ("next_page", Null)]))];
    var init := [("limit", Num(2))];
    assert Lookup(init, "next_page") == Undefined;
    assert NextCursor(responses[0].value) == Str("abc");
    assert NextCursor(responses[1].value) == Null;
    assert Put(init, "next_page", Str("abc")) == [("limit", Num(2)), ("next_page", Str("abc"))];
    var r := PaginateRun(Action1.pagination, basePath, init, responses, false);
    assert r.batches == [Arr([Num(1), Num(2)]), Arr([Num(3)])];
    assert AllItems(r.batches) == AllItems([Arr([Num(1), Num(2)])]) + [Num(3)];
  }
}
