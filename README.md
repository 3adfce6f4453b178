# Action1 MCP server: a Dafny model of its dispatch core

Action1MCP is a Model Context Protocol server for the Action1 endpoint-management
REST API. Its tools are driven by a declarative endpoint map. A tool call looks up a
resource descriptor, builds a request path by filling `{word}` placeholders, builds a
query string, and sends the request. GET requests go through a bounded retry loop.
Listings follow one of four pagination styles. The destructive tools are guarded by an
environment switch and an explicit confirmation. This project models that core in
Dafny and proves what the code promises about it.

Modules, one per source file, plus the helpers they share:

- `Endpoints` (src/endpoints.ts): the descriptor datatypes, the `Action1` constant, and
  `Interpolate` (interpolatePath).
- `Query` (src/lib/qs.ts): `Qs`, the query-string loop, proved against `QueryString`.
  `ParseQuery` is a decoder written only to state the round trip.
- `Http` (src/lib/http.ts):
  - `ResolveBaseUrl`.
  - A `Headers` class and `ApplyAuthHeaders`.
  - The request headers of `hx` and the response classification `Classify`.
  - `GetWithRetry`, proved against `Retry`.
  - The `postAction` body rule.
  - `fetch` is an oracle: a sequence of replies, each a response or a rejection.
- `Paginate` (src/lib/paginate.ts): `fetchPage`, and one method per pagination style,
  each proved against a function over a sequence of page replies. The model's output is
  the batches yielded, the requests made, and the error that ended the loop.
- `Resolve` (src/lib/resolve.ts): `ResolveToIds`. It covers the guards, the
  case-insensitive match, and the projection of ids, names and e-mails.
- `Logger` (src/lib/logger.ts):
  - `Redact`, and the loop that computes it (`RedactTree`).
  - The redaction list `RedactKeys`.
  - The shape of a log entry.
- `Poll` (src/lib/poll.ts): `PollJob`, proved against `PollSpec`. The clock readings and
  the fetch results are an input sequence.
- `Server` (src/server.ts):
  - `AllowDestructive`, `ResolveOrgId`, `TokenSource` and `Pick`.
  - The handlers of `list_resources`, `get_resource`, `create_resource`,
    `update_resource`, `delete_resource` and `call_action`. Each handler is a function
    from the tool input, the environment and the server's reply to an outcome plus the
    requests it sent.
  - `remove_entities`: a method whose loop is proved against `RemoveSpec`.
- Helper modules:
  - `Js`: JSON-like values, with JavaScript's `||`, `??`, truthiness, `String()` and
    `JSON.stringify`.
  - `Uri`: `encodeURIComponent` over UTF-8, with a decoder for the round trip.
  - `Base64`: section 4 of RFC 4648.
  - `Text`: strings.
  - `Errors`: the errors the code throws.
  - `Wrappers`: `Option` and `Result`.

Environment variables are a `map<string, string>`; an unset variable reads as `""`.
Numbers are mathematical integers.

The model follows the code in these details:

- Cursor pagination always reads the next cursor from the reply's `next_page`, then
  `nextPage`, then `cursor`, whatever `cursorParam` is configured
  (src/lib/paginate.ts:41).
  - It reads the seed under `cursorParam || ""` and writes under `cursorParam!`
    (src/lib/paginate.ts:31, 37).
  - `list_resources` writes a given cursor under `cursorParam || "cursor"`
    (src/server.ts:431).
- `interpolatePath` makes a single pass. So `"{{a}}"` with `a = "x"` yields `"{x}"`,
  which still looks like a placeholder (`Endpoints.NestedBracesLeavePlaceholder`). "No
  placeholder is left" therefore holds only for templates whose braces all open
  placeholders (`Endpoints.InterpolateLeavesNoPlaceholder`).
- `remove_entities` resolves names and e-mails with the raw `orgId` argument. The
  `ORG_ID` fallback is used only for the DELETEs (src/server.ts:622, 649).

## Model

| member | source | states |
|---|---|---|
| Endpoints.PlaceholderAt | src/endpoints.ts:265 | a placeholder match is `{`, one or more word characters, `}`, at the start of the text |
| Endpoints.FirstMissing | src/endpoints.ts:266-269 | the first placeholder key whose value is undefined; none exactly when every key is defined |
| Endpoints.InterpolateFailure | src/endpoints.ts:265-271 | interpolation throws iff some placeholder's value is undefined, and the error names the first such key |
| Endpoints.InterpolateIgnoresOtherParams | src/endpoints.ts:265-271 | params not named by a placeholder do not change the output |
| Endpoints.InterpolateNoPlaceholders | src/endpoints.ts:265-271 | a template without placeholders is returned unchanged |
| Endpoints.NoOpenBraceNoPlaceholders | src/endpoints.ts:265 | text without `{` holds no placeholder |
| Endpoints.InterpolateLiteralPrefix | src/endpoints.ts:265-271 | text before the first `{` is copied unchanged |
| Endpoints.InterpolatePlaceholderPrefix | src/endpoints.ts:265-271 | a leading placeholder becomes `encodeURIComponent(String(value))`, or throws when the value is undefined |
| Endpoints.InterpolateLeavesNoPlaceholder | src/endpoints.ts:265-271 | when every brace opens a placeholder, a successful interpolation leaves no `{` and no placeholder |
| Endpoints.NestedBracesLeavePlaceholder | src/endpoints.ts:265 | `{{a}}` yields `{x}`, which matches the placeholder pattern again |
| Endpoints.InterpolateKeepsSlashes | src/endpoints.ts:270 | the output has exactly as many `/` as the template: values cannot add path segments |
| Endpoints.InterpolateSegment | src/endpoints.ts:265-271 | literal text, then a placeholder with a defined value, then the rest, interpolates piecewise |
| Endpoints.InterpolateExample | src/endpoints.ts:265-271 | with two placeholders, a space in the first value and a slash in the second are escaped: `/x/{orgId}/y/{endpointId}` with `org 1` and `id/2` gives `/x/org%201/y/id%2F2` |
| Endpoints.InterpolateMissingOrNull | src/endpoints.ts:266-270 | after literal text, a placeholder whose value is undefined throws `Missing path param: <name>`; a null value is rendered as `null` |
| Endpoints.NonWordBracesAreText | src/endpoints.ts:265 | `{a-b}` is not a placeholder and is copied |
| Endpoints.OrganizationsListOnly | src/endpoints.ts:119-122 | `organizations` declares only `list` |
| Endpoints.AgentInstallationByType | src/endpoints.ts:221-227 | `agent_installation.get`'s path names `{installType}` |
| Endpoints.RemoteSessionsGetAndUpdate | src/endpoints.ts:148-160 | `endpoints.subresources.remoteSessions` declares `get` and `update` |
| Endpoints.ActionsArePosts | src/endpoints.ts:240-256 | every declared action is a POST |
| Query.PushItems | src/lib/qs.ts:8-11 | the inner loop appends one pair per present item, in order |
| Query.Qs | src/lib/qs.ts:1-19 | the loop returns `QueryString(params)` |
| Query.PushEntry | src/lib/qs.ts:5-16 | one entry appends exactly the pairs `EntryValues` gives for it: none for a nullish or blank value, one per present item of an array, its JSON text for an object, `String(v)` otherwise |
| Query.Present | src/lib/qs.ts:9 | the kept items are not null or undefined |
| Query.ItemValuesArePresentItems | src/lib/qs.ts:7-11 | an array with N present items gives exactly N `key=item` values, in array order |
| Query.NoPresentItemsNoPairs | src/lib/qs.ts:8-11 | an array of only null or undefined items, or an empty one, gives no pair |
| Query.ValuesAppend | src/lib/qs.ts:4-17 | entries contribute pairs in iteration order |
| Query.EntryValuesScalar | src/lib/qs.ts:5-15 | null, undefined and blank strings give no pair; other scalars give `String(v)`; an object gives its JSON text |
| Query.ParsePairsOfPairs | src/lib/qs.ts:10-15 | every emitted pair is `encode(key)=encode(value)`, so it decodes back to its key and value |
| Query.QueryStringRoundTrip | src/lib/qs.ts:18 | the string is `""` iff no pair was produced; otherwise it is `?` and the pairs joined by `&`, and it decodes back to them |
| Query.DropsEmptyValues | src/lib/qs.ts:5-6 | `{a:1,b:undefined,c:null,d:"",e:"x"}` keeps only `a` and `e` |
| Query.DropsEmptyValuesQuery | src/lib/qs.ts:1-19 | that input yields `?a=1&e=x` |
| Query.ArraysAndObjects | src/lib/qs.ts:7-13 | an array expands to repeated pairs, an object to its JSON text |
| Query.ObjectPairEncoded | src/lib/qs.ts:13 | an object's JSON text `{"g":1}` is percent-encoded as `%7B%22g%22%3A1%7D` after `key=` |
| Uri.EncodeAlphabet | src/endpoints.ts:270 | `encodeURIComponent` emits only unreserved characters and `%HH` |
| Uri.EncodeHasNoDelimiters | src/endpoints.ts:270 | encoded text holds no `/`, space, braces, `&`, `=`, `?` or `#` |
| Uri.EncodeSpaceAndSlash | src/endpoints.ts:270 | between unreserved text, a space becomes `%20` and `/` becomes `%2F` |
| Uri.EncodeUnreserved | src/endpoints.ts:270 | text of unreserved characters is unchanged |
| Uri.DecodeEncode | src/endpoints.ts:270 | percent-decoding inverts `encodeURIComponent` (UTF-8, section 2.1 of RFC 3986) |
| Base64.Encode | src/lib/http.ts:28 | base64 text has 4 characters per started group of 3 bytes |
| Base64.DecodeEncode | src/lib/http.ts:28 | decoding inverts base64 encoding (section 4 of RFC 4648) |
| Base64.EncodeAlphabet | src/lib/http.ts:28 | every character of the encoding is in the base64 alphabet or is padding |
| Http.StripTrailingSlashes | src/lib/http.ts:8-9 | the result is the longest prefix that does not end in `/`, with only slashes removed |
| Http.StripTrailingSlashesUnique | src/lib/http.ts:8-9 | that prefix is unique |
| Http.StripTrailingSlashesIdempotent | src/lib/http.ts:8-9 | stripping twice is stripping once |
| Http.ResolveBaseUrl | src/lib/http.ts:6-10 | `API_BASE` is used, stripped, only when it starts with `http://` or `https://`; otherwise the configured base, stripped |
| Http.ResolveBaseUrlIgnoresOtherSchemes | src/lib/http.ts:8 | an `API_BASE` without an http scheme has no effect |
| Http.Headers.Get | src/lib/http.ts:37-38 | a header value is found iff the header is present, in any letter case, and it is the value stored under the lower-cased name |
| Http.HeadersIgnoreCase | src/lib/http.ts:37-38 | two names that differ only in letter case are present together and read the same value |
| Http.FromPairsCombines | src/lib/http.ts:37 | `new Headers(init)` appends each pair: it holds a name exactly when some pair names it in any letter case, and reads back the values of all such pairs, in order, joined with ", " |
| Http.ValuesNamedNonEmpty | src/lib/http.ts:37 | a name has values among the pairs exactly when some pair names it in any letter case |
| Http.FromPairsSingle | src/lib/http.ts:37 | a name given by exactly one pair reads back that pair's value |
| Http.RepeatedNameExample | src/lib/http.ts:37 | `X-A: 1` then `x-a: 2` read back as "1, 2" |
| Http.FirstSetIsFirst | src/lib/http.ts:15 | the token is the first of BEARER_TOKEN, API_TOKEN, ACTION1_TOKEN that is set; none iff all are empty |
| Http.BearerHeaderPrecedence | src/lib/http.ts:14-18 | for oauth2 and bearer, `Authorization: Bearer <first set token>`, or no header (section 2.1 of RFC 6750) |
| Http.BearerTokenExample | src/lib/http.ts:14-18 | with BEARER_TOKEN `test-token` the header is `Bearer test-token` |
| Http.ApiKeyNeedsHeaderName | src/lib/http.ts:19-23 | apiKey sets the configured header to API_KEY only when a header name is configured and the key is set |
| Http.BasicNeedsBoth | src/lib/http.ts:24-30 | basic sets `Basic <base64(user:pass)>` iff both are set, and the credentials decode back (section 2 of RFC 7617) |
| Http.WithAuthKeepsOthers | src/lib/http.ts:12-32 | the auth step leaves every other header unchanged |
| Http.ApplyAuthHeaders | src/lib/http.ts:12-32 | the headers object ends as the old headers plus the scheme's header |
| Http.WithContentType | src/lib/http.ts:38-40 | `Content-Type: application/json` is added iff a body is present and none was supplied; other headers are kept |
| Http.PrepareRequest | src/lib/http.ts:34-45 | the URL is the resolved base plus the path, and the headers are the supplied ones, then content type, then auth |
| Http.JsonBodyGetsContentType | src/lib/http.ts:38-40 | a request with a body and no content type is sent as JSON |
| Http.Snippet | src/lib/http.ts:51 | the snippet is the first 500 characters of the body |
| Http.Classify | src/lib/http.ts:53-71 | a reply throws iff it is not 2xx or is unparseable non-empty JSON, and the error carries the status; any other content type returns the raw text |
| Http.ClassifyJson | src/lib/http.ts:61-69 | JSON with an empty body returns `{}`; parseable text returns its value; otherwise a parse error with status and snippet |
| Http.ClassifySnippet | src/lib/http.ts:53-58 | a non-2xx reply throws an HTTP error whose snippet is a prefix of the body of at most 500 characters |
| Http.BaseDelaysDouble | src/lib/http.ts:81-92 | the base delay starts at 250 and doubles after every retry |
| Http.GetWithRetry | src/lib/http.ts:78-97 | the loop returns what `Retry` computes and sleeps one doubling base delay per retry |
| Http.RetryIsLastCall | src/lib/http.ts:78-97 | the outcome is the last call's; at most `maxAttempts` calls; stopping early means the outcome was not retryable; every earlier call was retryable |
| Http.NonRetryableStopsAtOnce | src/lib/http.ts:86-87 | a non-retryable first outcome, success or any other error, returns after a single call |
| Http.ExhaustionThrowsLastError | src/lib/http.ts:82-96 | when every attempt is retryable, all attempts are made and the last error is thrown unchanged |
| Http.RetryThenSucceed | src/lib/http.ts:83-94 | a 429 and then a 200 JSON reply returns the payload after exactly 2 calls |
| Http.BadRequestNotRetried | src/lib/http.ts:86-87 | a 400 is thrown after one call |
| Http.PostBody | src/lib/http.ts:107 | a POST carries a body iff the argument is truthy |
| Http.StringifyNonEmpty | src/lib/http.ts:107 | the JSON text of a defined value is never empty |
| Http.PostActionContentType | src/lib/http.ts:99-110 | a postAction with a truthy body is sent as JSON; otherwise it has no content type |
| Paginate.ExtractItems | src/lib/paginate.ts:25 | items are the reply itself if it is an array; for an object, its `items` unless nullish, else its `data` unless nullish, else `[]`; `[]` for any other reply; never null |
| Paginate.FetchPagePath | src/lib/paginate.ts:12-16 | a page request is the path followed by `qs(params)` |
| Paginate.PaginateNone | src/lib/paginate.ts:23-28 | the `none` style computes `NoneRun` |
| Paginate.NoneFetchesOnce | src/lib/paginate.ts:23-28 | the `none` style fetches once with the initial params and yields one batch unless the fetch failed |
| Paginate.PaginateCursor | src/lib/paginate.ts:30-45 | the cursor loop computes `CursorRun` seeded from `initialParams[cursorParam]` |
| Paginate.CursorStep | src/lib/paginate.ts:36-43 | a reply with a next cursor yields its items and requests again with that cursor |
| Paginate.CursorBatchPerRequest | src/lib/paginate.ts:38-40 | one batch per successful request: batch count equals fetch count, minus a failed last fetch |
| Paginate.CursorBatchesAreItems | src/lib/paginate.ts:39-40 | the batches are the items of the replies in order |
| Paginate.CursorRequestParams | src/lib/paginate.ts:37-38 | each request carries the params as updated with the current cursor |
| Paginate.CursorStopsWithoutNext | src/lib/paginate.ts:41-42 | the loop goes on while `next_page`, `nextPage` or `cursor` is present and stops at the first reply without one |
| Paginate.CursorSentIsPreviousNext | src/lib/paginate.ts:37-41 | the cursor sent with a request is the one the previous reply gave |
| Paginate.CursorSeeded | src/lib/paginate.ts:31-38 | the first request carries the seeded cursor |
| Paginate.CursorExample | src/lib/paginate.ts:30-45 | `[{items:[1,2],next_page:"abc"},{items:[3],next_page:null}]` flattens to `[1,2,3]` in two requests |
| Paginate.PaginatePage | src/lib/paginate.ts:47-63 | the page loop computes `PageRun` from page `initialParams[pageParam] or 1` and size `initialParams[perParam] or 50` |
| Paginate.PageStep | src/lib/paginate.ts:54-60 | a full non-empty batch is yielded and the next page is requested |
| Paginate.PageRequestsCount | src/lib/paginate.ts:54-60 | request k carries page `start + k` and the same per-page size |
| Paginate.PageRunShape | src/lib/paginate.ts:47-61 | a page run makes at least one request, yields a batch for every request but possibly the last, and an error only from the last, which then yields nothing |
| Paginate.PageBatchesNonEmpty | src/lib/paginate.ts:57-60 | every yielded batch is non-empty, and every one but the last is at least a full page |
| Paginate.PageEmptyNotYielded | src/lib/paginate.ts:57 | an empty batch ends the loop without being yielded |
| Paginate.PaginateLink | src/lib/paginate.ts:65-78 | the link loop computes `LinkRun` |
| Paginate.LinkStep | src/lib/paginate.ts:69-75 | a reply with a link yields its items and follows the link |
| Paginate.LinkBatchPerRequest | src/lib/paginate.ts:70-75 | one batch per request; the first request is `basePath + qs(initialParams)`; the loop stops at the first reply without a link |
| Paginate.LinkFollowsNext | src/lib/paginate.ts:70-74 | each later request is the previous reply's `next ?? data[nextField \|\| "next"]`, verbatim |
| Paginate.Paginate | src/lib/paginate.ts:18-79 | `paginate` dispatches on the style and computes `PaginateRun` |
| Resolve.Filter | src/lib/resolve.ts:38-50 | the kept items are exactly the listed items that match; a null item throws |
| Resolve.FilterAppend | src/lib/resolve.ts:38-50 | filtering a listing in two parts is filtering each part and concatenating, so the listing order and each kept occurrence are kept; the whole throws exactly when a part does |
| Resolve.FilterOne | src/lib/resolve.ts:38-50 | one item is kept exactly when it matches; a null or undefined one throws |
| Resolve.ToEntity | src/lib/resolve.ts:52-57 | the id is `id ?? endpointId ?? groupId ?? uuid`, the name `name || displayName || hostname`, the email `email || userEmail`, and `raw` is the item |
| Resolve.ToEntities | src/lib/resolve.ts:52-57 | one entity per match, in listing order |
| Resolve.ResolveToIds | src/lib/resolve.ts:20-58 | the fetch happens iff the guards pass, to the list path; a failed fetch throws its error |
| Resolve.NotListableBeforeFetch | src/lib/resolve.ts:21-24 | a resource without `list` throws before any fetch |
| Resolve.OrgRequiredBeforeFetch | src/lib/resolve.ts:26-29 | a list path naming `{orgId}` without an orgId throws before any fetch |
| Resolve.OneFetchOfListPath | src/lib/resolve.ts:25-36 | exactly one GET, of the list path |
| Resolve.NoFiltersNothingResolved | src/lib/resolve.ts:45-49 | with no filters nothing is resolved |
| Resolve.ResolvedAreMatches | src/lib/resolve.ts:37-57 | the result holds exactly the entities of the listed items that match |
| Resolve.EmailMatchIsExact | src/lib/resolve.ts:40-43 | an e-mail filter keeps exactly the items whose lower-cased e-mail equals a lower-cased wanted one |
| Resolve.FilterExample | src/lib/resolve.ts:38-50 | with `names:["alp"]`, Alpha is kept and Beta is not |
| Resolve.AlphaBetaExample | src/lib/resolve.ts:20-58 | resolving Alpha and Beta with `names:["alp"]` yields the single id `"1"` |
| Logger.Redact | src/lib/logger.ts:15-34 | arrays stay arrays of the same length with every element redacted, objects stay objects, anything else is returned unchanged |
| Logger.RedactTree | src/lib/logger.ts:15-34 | the map over arrays and the loop over entries compute `Redact` |
| Logger.RedactFieldsEntrywise | src/lib/logger.ts:21-31 | each entry keeps its key and gets `[REDACTED]`, the redacted value, or the value itself |
| Logger.KeysKept | src/lib/logger.ts:20-31 | every input key appears in the output, in order |
| Logger.SensitiveMasked | src/lib/logger.ts:22-24 | a value under a listed key becomes `[REDACTED]`, whatever it was |
| Logger.ScalarKept | src/lib/logger.ts:27-28 | a non-object value under an unlisted key is copied |
| Logger.RedactIdempotent | src/lib/logger.ts:15-34 | redacting twice is redacting once |
| Logger.ShortKeysKept | src/lib/logger.ts:3-23 | a key shorter than every listed substring, such as `key`, is not masked |
| Logger.AccessTokenMasked | src/lib/logger.ts:3-23 | `access_token` is masked |
| Logger.ListedSubstringMasks | src/lib/logger.ts:22-23 | a listed substring anywhere in the key, in any letter case, masks it |
| Logger.Entry | src/lib/logger.ts:36-42 | an entry has ts, level and msg, and `meta` only when metadata was passed, always redacted |
| Poll.Decide | src/lib/poll.ts:29-42 | success is checked first, then failure, then the deadline; only a status that is neither, within the deadline, goes on |
| Poll.PollJob | src/lib/poll.ts:13-44 | the loop computes `PollSpec` |
| Poll.Check | src/lib/poll.ts:25-42 | one iteration's checks on the reply decide exactly as `Decide` does |
| Poll.NotConfiguredNoRequest | src/lib/poll.ts:13-17 | without a job status description polling throws before any request |
| Poll.Action1CannotPoll | src/lib/poll.ts:13-17 | the Action1 map has no job status, so polling always throws |
| Poll.PollShape | src/lib/poll.ts:23-43 | every request is to the same interpolated path, one interval sleep between requests, going on exactly while observations say so |
| Poll.SuccessBeforeFailure | src/lib/poll.ts:29-32 | a status listed as both success and failure succeeds |
| Poll.SuccessPastDeadline | src/lib/poll.ts:29-37 | a success seen after the deadline is still returned, as `{status, label, data}` |
| Poll.FailureCarriesData | src/lib/poll.ts:32-36 | a failure status throws with the reply attached |
| Poll.TimeoutCarriesData | src/lib/poll.ts:37-41 | past the deadline the timeout error carries the last reply |
| Poll.DefaultOptions | src/lib/poll.ts:18 | by default the poll sleeps 1500 ms and goes on only within 300000 ms |
| Server.AllowDestructive | src/server.ts:391-400 | allowed iff a dry run, or ALLOW_DESTRUCTIVE is `true` and confirm is `YES`; otherwise the first failing check is the reason |
| Server.ResolveOrgId | src/server.ts:19-21 | an explicit orgId beats ORG_ID; nullish iff neither is given |
| Server.TokenSource | src/server.ts:23-28 | the source is the first set of BEARER_TOKEN, API_TOKEN, ACTION1_TOKEN; `hasToken` iff there is one |
| Server.TokenSourceIsBearerToken | src/server.ts:23-28 | the reported source is the variable the Bearer header is taken from |
| Server.FirstPresentIsFirst | src/server.ts:144-147 | `pick` returns the value of the first key that is not null or undefined, else undefined |
| Server.Pick | src/server.ts:144-147 | the loop computes that value, and throws on a null or undefined object |
| Server.GetResource | src/server.ts:451-467 | one GET without a body at most, to the get template filled with `GetParams`, whose reply is returned; an undeclared `get` and a missing orgId are refused with no request; the GET is sent exactly when the template interpolates, and otherwise the interpolation error is thrown |
| Server.GetParamsFill | src/server.ts:455-463 | `endpointId = endpointId ?? id`; `groupId` and `installType` are `id`; each only when the path names it |
| Server.GetReachesServer | src/server.ts:454-465 | when the path names only known ids and orgId is available, the GET is sent |
| Server.GetResourceAsWritten | src/server.ts:451-467 | as written, agrees with `GetResource` on every path that does not name `{deployerId}` |
| Server.DeployerGetAsWrittenThrows | src/server.ts:454-464 | as written, getting a deployer always throws `Missing path param: deployerId` |
| Server.DeployerGetReachesServer | src/endpoints.ts:230 | with `deployerId = id`, the deployer GET is sent |
| Server.WritePlan | src/server.ts:492 | a dry-run plan holds the path, the body and `dry_run: true` |
| Server.CreateResource | src/server.ts:479-495 | the gate runs first; an undeclared `create` and a missing orgId are refused with no request; the path is the template with only `{orgId}` filled, or the template as it stands when it does not name `{orgId}`; a dry run plans that path and the body; otherwise one POST of the JSON body to it |
| Server.CreateDryRunMatchesCall | src/server.ts:484-493 | the dry run plans exactly the path the confirmed call would POST to |
| Server.CreateFillsOnlyOrg | src/server.ts:484-491 | create fills only `{orgId}`: with an organisation, a path naming `{orgId}` interpolates exactly when it holds no other placeholder |
| Server.UpdateResource | src/server.ts:509-527 | the gate runs first; an undeclared `update` and a missing orgId are refused with no request; the path is the template filled with `UpdateParams`; a dry run plans it with the body; otherwise one PATCH of the JSON body to it |
| Server.UpdateParamsFill | src/server.ts:515-522 | `orgId`; `endpointId = endpointId ?? id`; `groupId = id`; each only when the path names it, and no other param (no `id`) |
| Server.UpdateDryRunMatchesCall | src/server.ts:514-525 | the dry run plans exactly the path the confirmed call would PATCH |
| Server.DeleteResource | src/server.ts:539-557 | the gate runs first; an undeclared `delete` and a missing orgId are refused with no request; the path is the template filled with `DeleteParams`; a dry run plans it; otherwise one DELETE to it, whose null or undefined reply becomes `{deleted:true}` (an empty JSON body reads as `{}` and is returned as is) |
| Server.DeleteParamsFill | src/server.ts:545-552 | `orgId`; `endpointId` and `groupId` are the plain `id` (never an `endpointId` input); each only when the path names it, and no other param |
| Server.DeleteResourceAsWritten | src/server.ts:539-557 | as written, agrees with `DeleteResource` on every path that does not name `{deployerId}` |
| Server.DeployerDeleteAsWrittenThrows | src/server.ts:544-553 | as written, deleting a deployer always throws `Missing path param: deployerId` |
| Server.DeployerDeleteReachesServer | src/endpoints.ts:231 | with `deployerId = id`, the deployer DELETE is sent |
| Server.CallAction | src/server.ts:572-597 | the gate runs first, then the action lookup; a missing orgId, then a missing endpointId, is refused with no request; the path is the action's template filled with `ActionParams`; a dry run plans it with `body ?? null`; otherwise one POST of `body ?? {}` to it |
| Server.ActionParamsFill | src/server.ts:578-587 | `orgId` and the `endpointId` input as given, each only when the path names it, and no other param |
| Server.ActionReachesServer | src/server.ts:577-590 | with orgId and endpointId supplied, a known action is sent |
| Server.ListParamsPlaced | src/server.ts:425-432 | page and per_page are added only for the page style, the cursor only for the cursor style |
| Server.CollectBatches | src/server.ts:434-438 | the loop spreads every batch into the results |
| Server.CollectArrays | src/server.ts:436 | spreading array batches yields all their items in order |
| Server.CollectStopsAtFailure | src/server.ts:436 | a batch that is not an array throws and nothing after it is kept |
| Server.ListResources | src/server.ts:412-440 | the handler computes `ListSpec` |
| Server.ListNotListable | src/server.ts:413-416 | a resource without `list` is reported and nothing is fetched |
| Server.FirstPageOnly | src/server.ts:437 | with `page` or `cursor` given, one request and at most one batch |
| Server.ListFirstPageOnly | src/server.ts:434-438 | `list_resources` with a page or cursor returns only the first batch |
| Server.RemovalResource | src/server.ts:628-634 | only `endpoints`, `endpoint`, `devices` and `endpoint_groups` have a removal strategy |
| Server.RemoveEntities | src/server.ts:616-669 | the handler, with every target's error caught, computes `RemoveSpec` |
| Server.RemoveAll | src/server.ts:636-667 | the per-target loop pushes the entries and sends the DELETEs of `SweepFrom` |
| Server.RemoveTarget | src/server.ts:638-665 | one target: a dry-run plan, a recorded missing descriptor or orgId, or one DELETE and its result |
| Server.RemoveNext | src/server.ts:637-666 | one pass of the per-target loop keeps the pushed entries and the sent DELETEs a prefix of the whole sweep |
| Server.SweepOnePerTarget | src/server.ts:637-667 | with errors caught, the loop never stops early: one entry per target, in order |
| Server.OneEntryPerTarget | src/server.ts:636-668 | each target yields exactly one entry, and `executed` equals the number of entries |
| Server.IdsTakePrecedence | src/server.ts:620-624 | explicit ids are the targets, and nothing is resolved |
| Server.DryRunSweep | src/server.ts:639-640 | a dry run plans a delete for every target and sends nothing |
| Server.DryRunDeletesNothing | src/server.ts:616-668 | a dry run sends no DELETE, only the resolution listing |
| Server.SweepAgrees | src/server.ts:658-664 | when no path fails to build, the loop as written and the corrected loop agree |
| Server.RemoveEntitiesAsWritten | src/server.ts:616-669 | as written, any run that completes matches the corrected handler |
| Server.EndpointPathMissingId | src/endpoints.ts:139 | the endpoint delete path with no endpointId throws `Missing path param: endpointId` |
| Server.NamedItemWithoutId | src/lib/resolve.ts:53 | an item with a name and no id fields resolves to an undefined id |
| Server.MissingIdEscapes | src/server.ts:656-664 | as written, a target without an id ends the loop with the error; corrected, it is recorded in that target's entry |

## Left out

- MCP wiring: `McpServer`, the stdio transport, `registerTool` and start-up. These are foreign SDK calls.
- Zod schemas for tool inputs and descriptors: library validation. Descriptors keep only path and method, and tool inputs are typed datatypes.
- The other tools: `diagnose_config` (only its `tokenSource` is modelled), `verify_auth`, `audit_endpoints` and the fixed-path convenience tools of src/server.ts:163-342. They forward fixed paths to `getWithRetry` or `hx`.
- `list_endpoints_simple` is modelled only through `pick`. Its fixed-path fetch and the rest of its body are left out.
- Client-side search (src/server.ts:156, 216, 385): it filters on the text of `JSON.stringify`.
- `call_action`'s wait branch (src/server.ts:591-594). It polls with empty job params, and the Action1 map has no job status (`Poll.Action1CannotPoll`).
- Real network I/O, `Headers` internals beyond a case-insensitive map whose construction appends (value whitespace trimming and the separate `Set-Cookie` list are not modelled), `console` output in `log`, and the ISO timestamp of a log entry (a parameter).
- `JSON.parse`: a reply carries the value the parse would give, or none.
- `JSON.stringify` is modelled without indentation and without escapes beyond quotes, backslash and control characters.
- Random jitter and `setTimeout` sleeps. `Http.GetWithRetry` returns the base delays without jitter, and `Date.now()` in polling is an input.
- `toLowerCase` is modelled on ASCII letters only.
- Endpoints.Param, Endpoints.ActionNamed and Server.CallAction: lookups are own-property only. In JavaScript a lookup also finds inherited names such as `constructor` or `toString`: `call_action` with `action:"constructor"` then throws a TypeError at `path.includes`, where the model refuses with `UnknownAction`, and a `{toString}` placeholder renders the text of a function, where the model reports the param as missing. No Action1 template or action uses such a name.
- Http.Snippet: counts Unicode scalar values. JavaScript's `slice(0, 500)` counts UTF-16 code units, so text with characters outside the Basic Multilingual Plane is cut at another place, and JavaScript may cut inside a surrogate pair.
- Uri.Encode: strings are sequences of Unicode scalar values, so a lone surrogate, on which `encodeURIComponent` throws `URIError`, cannot occur in the model.
- Paginate.ShorterThan: a `length` that is a string, an array or an object is treated as not shorter than the page size. JavaScript's `<` converts it to a number first (`"3" < 50` is true). Such a `length` arises only from an object reply whose items are themselves an object with a `length` field.
- Numbers are integers: floating point and `NaN` are not modelled.
- Replies past the end of an oracle sequence act as a rejected fetch, so that every loop ends.
- Tool results are returned as outcomes rather than MCP text content. The wording of the refusal messages is not modelled, only which refusal occurs.
- Paginate.PaginatePage requires the seeded page and per-page values to be numbers or falsy. The code's `|| 1` and `page++` on a non-numeric seed would compute on strings.
- Server.ListResources requires the same of `page` and `per_page` for the page style. The Action1 map uses the cursor style, where nothing is required.
- Server.CreateResource and Server.UpdateResource require the body to be an object, as the tool's input schema does. Server.CallAction requires it to be an object or absent.
- Server.RemoveEntities: the `ops` array is not built separately. Each target is dispatched directly with the resource the strategy chose, which is equivalent.
- Server.RemoveEntities: the DELETEs are recorded by path only, without the body-less `init`.
- `postAction`'s `...init` spread is not modelled: `call_action` passes no `init`.
- Server.ListResources: a batch that is neither an array nor a string makes the spread throw, and the code stops paging there. The model computes the whole page run first; its result is only the outcome, which is the same error, so the pages the code would not fetch after that batch are not observable, and the requests list_resources makes are not part of its result.
- `remove_entities`' `groups`, `strategy`, `force`, `wait` and `wait_timeout_s` inputs: the handler never reads them.

## Findings

| source | as written | input that shows it | evidently intended | confidence | as-written member | corrected member |
|---|---|---|---|---|---|---|
| src/server.ts:454-464, 544-553 | `get_resource` and `delete_resource` fill `{orgId}`, `{endpointId}`, `{groupId}` and `{installType}` (get only), never `{deployerId}`. The deployers get and delete paths (src/endpoints.ts:230-231) therefore always throw `Missing path param: deployerId`. | get_resource `{resource:"deployers", id:"d1", orgId:"o1"}` | `deployerId` is filled from `id`, as the other ids are | medium, not executed (dedicated deployer tools exist beside the generic ones) | Server.GetResourceAsWritten, Server.DeleteResourceAsWritten (Server.DeployerGetAsWrittenThrows, Server.DeployerDeleteAsWrittenThrows) | Server.GetResource, Server.DeleteResource (Server.DeployerGetReachesServer, Server.DeployerDeleteReachesServer, Server.GetReachesServer) |
| src/server.ts:656-664 | In `remove_entities`, `interpolatePath` is called outside the `try`. A target without an id makes the handler throw. The entries of earlier targets are lost, although their DELETEs were already sent. | remove_entities `{resource:"endpoints", names:["x"], orgId:"o1", dry_run:false, confirm:"YES"}` with ALLOW_DESTRUCTIVE=true, where the listing returns `[{"name":"x"}]` | the error is recorded in that target's entry and the loop goes on, as for the other per-target failures | medium, not executed | Server.RemoveEntitiesAsWritten (Server.MissingIdEscapes, Server.NamedItemWithoutId) | Server.RemoveEntities (Server.OneEntryPerTarget, Server.SweepOnePerTarget) |
