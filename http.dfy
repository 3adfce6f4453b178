/**
 * Request shaping and the retry loop of the HTTP layer (src/lib/http.ts). `fetch` is an
 * oracle: a sequence of replies consumed one per call, where a reply is either a
 * response (status, content type, body text and what `JSON.parse` makes of that text)
 * or a rejection. The environment is a map from variable names to values.
 */
module Http {
  import opened Wrappers
  import opened Text
  import opened Js
  import opened Errors
  import opened Endpoints
  import Base64
  import Uri

  /** RETRY_STATUS: 429 (section 4 of RFC 6585) and 502, 503, 504 (RFC 9110, sections 15.6.3 to 15.6.5). */
  predicate RetryStatus(status: Option<int>) {
    status.Some? && status.value in {429, 502, 503, 504}
  }

  /** The process environment. */
  type Env = map<string, string>

  /** `process.env[k]`, an unset variable read as "" (both are falsy, and only truthiness is tested). */
  function EnvVar(env: Env, k: string): string {
    if k in env then env[k] else ""
  }

  // ---------------------------------------------------------------- base URL

  /** `s.replace(/\/+$/, "")`: the longest prefix that does not end in a slash, when the rest is all slashes. */
  function StripTrailingSlashes(s: string): (r: string)
    ensures IsPrefix(r, s)
    ensures |r| == 0 || r[|r| - 1] != '/'
    ensures forall i :: |r| <= i < |s| ==> s[i] == '/'
  {
    if |s| > 0 && s[|s| - 1] == '/' then StripTrailingSlashes(s[..|s| - 1]) else s
  }

  /** The three properties above pin the stripped string down: there is only one such prefix. */
  lemma StripTrailingSlashesUnique(s: string, r: string)
    requires IsPrefix(r, s)
    requires |r| == 0 || r[|r| - 1] != '/'
    requires forall i :: |r| <= i < |s| ==> s[i] == '/'
    ensures r == StripTrailingSlashes(s)
  {
    var t := StripTrailingSlashes(s);
    assert |t| == |r|;
  }

  lemma StripTrailingSlashesIdempotent(s: string)
    ensures StripTrailingSlashes(StripTrailingSlashes(s)) == StripTrailingSlashes(s)
  {
    var r := StripTrailingSlashes(s);
    StripTrailingSlashesUnique(r, r);
  }

  /** `/^https?:\/\//` */
  predicate HasHttpScheme(v: string) {
    IsPrefix("http://", v) || IsPrefix("https://", v)
  }

  /** resolveBaseUrl: API_BASE when it names an http(s) URL, else the configured base; trailing slashes dropped. */
  function ResolveBaseUrl(env: Env, configured: string): (r: string)
    ensures |r| == 0 || r[|r| - 1] != '/'
    ensures HasHttpScheme(EnvVar(env, "API_BASE")) ==>
      IsPrefix(r, EnvVar(env, "API_BASE")) && forall i :: |r| <= i < |EnvVar(env, "API_BASE")| ==> EnvVar(env, "API_BASE")[i] == '/'
    ensures !HasHttpScheme(EnvVar(env, "API_BASE")) ==>
      IsPrefix(r, configured) && forall i :: |r| <= i < |configured| ==> configured[i] == '/'
  {
    var fromEnv := EnvVar(env, "API_BASE");
    if fromEnv != "" && HasHttpScheme(fromEnv) then StripTrailingSlashes(fromEnv)
    else StripTrailingSlashes(configured)
  }

  /** An API_BASE without an http or https scheme is ignored entirely. */
  lemma ResolveBaseUrlIgnoresOtherSchemes(env: Env, configured: string, v: string)
    requires EnvVar(env, "API_BASE") == v && !HasHttpScheme(v)
    ensures ResolveBaseUrl(env, configured) == ResolveBaseUrl(map[], configured)
  {
  }

  // ---------------------------------------------------------------- headers

  /** `headers.append(name, value)` on a map keyed by lower-cased name: a repeated name gets ", " and the new value. */
  function Append(m: map<string, string>, name: string, value: string): map<string, string> {
    var k := Lower(name);
    if k in m then m[k := m[k] + ", " + value] else m[k := value]
  }

  /** Folds header pairs into a map keyed by lower-cased name, appending each pair in turn. */
  function FromPairs(pairs: seq<(string, string)>): map<string, string> {
    if |pairs| == 0 then map[]
    else Append(FromPairs(pairs[..|pairs| - 1]), pairs[|pairs| - 1].0, pairs[|pairs| - 1].1)
  }

  /** The values of the pairs whose name is `key` up to letter case, in order. */
  function ValuesNamed(pairs: seq<(string, string)>, key: string): (vs: seq<string>)
    ensures |vs| <= |pairs|
  {
    if |pairs| == 0 then []
    else ValuesNamed(pairs[..|pairs| - 1], key) + (if Lower(pairs[|pairs| - 1].0) == key then [pairs[|pairs| - 1].1] else [])
  }

  /** The values joined with ", ", as a combined header value is read back. */
  function JoinComma(vs: seq<string>): string {
    if |vs| == 0 then ""
    else if |vs| == 1 then vs[0]
    else JoinComma(vs[..|vs| - 1]) + ", " + vs[|vs| - 1]
  }

  /** A `Headers` object: a case-insensitive name-to-value map that requests carry. */
  class Headers {
    /** Values by lower-cased header name. */
    var entries: map<string, string>

    /** `new Headers(init)` */
    constructor (init: seq<(string, string)>)
      ensures entries == FromPairs(init)
    {
      var m: map<string, string> := map[];
      var i := 0;
      while i < |init|
        invariant 0 <= i <= |init|
        invariant m == FromPairs(init[..i])
      {
        assert init[..i + 1][..i] == init[..i];
        m := Append(m, init[i].0, init[i].1);
        i := i + 1;
      }
      assert init[..|init|] == init;
      entries := m;
    }

    /** `headers.has(name)` */
    predicate Has(name: string)
      reads this
    {
      Lower(name) in entries
    }

    /** `headers.get(name)` */
    function Get(name: string): (r: Option<string>)
      reads this
      ensures r.Some? <==> Has(name)
      ensures r.Some? ==> Lower(name) in entries && r.value == entries[Lower(name)]
    {
      if Lower(name) in entries then Some(entries[Lower(name)]) else None
    }

    /** `headers.set(name, value)` */
    method Set(name: string, value: string)
      modifies this
      ensures entries == old(entries)[Lower(name) := value]
      ensures Get(name) == Some(value)
    {
      entries := entries[Lower(name) := value];
    }
  }

  /** Header names are compared without regard to letter case. */
  lemma HeadersIgnoreCase(h: Headers, a: string, b: string)
    requires Lower(a) == Lower(b)
    ensures h.Has(a) == h.Has(b) && h.Get(a) == h.Get(b)
  {
  }

  /**
   * `new Headers(init)` holds a name exactly when some pair names it in any letter case,
   * and then the values of all such pairs, in order, joined with ", ".
   */
  lemma {:induction false} FromPairsCombines(pairs: seq<(string, string)>, name: string)
    ensures Lower(name) in FromPairs(pairs) <==> ValuesNamed(pairs, Lower(name)) != []
    ensures Lower(name) in FromPairs(pairs) ==> FromPairs(pairs)[Lower(name)] == JoinComma(ValuesNamed(pairs, Lower(name)))
    decreases |pairs|
  {
    if |pairs| > 0 {
      var init := pairs[..|pairs| - 1];
      var last := pairs[|pairs| - 1];
      FromPairsCombines(init, name);
      var vs := ValuesNamed(init, Lower(name));
      if Lower(last.0) != Lower(name) {
        assert ValuesNamed(pairs, Lower(name)) == vs + [] == vs;
        assert FromPairs(pairs) == Append(FromPairs(init), last.0, last.1);
      } else if vs == [] {
        assert ValuesNamed(pairs, Lower(name)) == [last.1];
      } else {
        var ws := vs + [last.1];
        assert ValuesNamed(pairs, Lower(name)) == ws;
        assert ws[..|ws| - 1] == vs;
      }
    }
  }

  /** `new Headers([["X-A", "1"], ["x-a", "2"]]).get("x-a")` is "1, 2". */
  lemma RepeatedNameExample()
    ensures "x-a" in FromPairs([("X-A", "1"), ("x-a", "2")]) && FromPairs([("X-A", "1"), ("x-a", "2")])["x-a"] == "1, 2"
  {
    var pairs := [("X-A", "1"), ("x-a", "2")];
    assert Lower("X-A") == "x-a" && Lower("x-a") == "x-a";
    assert pairs[..1] == [("X-A", "1")] && [("X-A", "1")][..0] == [];
    assert FromPairs([("X-A", "1")]) == map["x-a" := "1"];
  }

  /** Some pair names `key` up to letter case exactly when it has a value among the pairs. */
  lemma {:induction false} ValuesNamedNonEmpty(pairs: seq<(string, string)>, key: string)
    ensures ValuesNamed(pairs, key) != [] <==> exists j :: 0 <= j < |pairs| && Lower(pairs[j].0) == key
    decreases |pairs|
  {
    if |pairs| > 0 {
      var init := pairs[..|pairs| - 1];
      ValuesNamedNonEmpty(init, key);
      if ValuesNamed(init, key) != [] {
        var j :| 0 <= j < |init| && Lower(init[j].0) == key;
        assert pairs[j] == init[j];
      } else if Lower(pairs[|pairs| - 1].0) != key {
        forall j | 0 <= j < |pairs| ensures Lower(pairs[j].0) != key {
          if j < |init| { assert pairs[j] == init[j]; }
        }
      }
    }
  }

  /** A name given by exactly one pair reads back that pair's value. */
  lemma FromPairsSingle(pairs: seq<(string, string)>, name: string, j: int)
    requires 0 <= j < |pairs| && Lower(pairs[j].0) == Lower(name)
    requires forall k :: 0 <= k < |pairs| && k != j ==> Lower(pairs[k].0) != Lower(name)
    ensures Lower(name) in FromPairs(pairs) && FromPairs(pairs)[Lower(name)] == pairs[j].1
  {
    ValuesNamedOnly(pairs, Lower(name), j);
    FromPairsCombines(pairs, name);
  }

  lemma {:induction false} ValuesNamedOnly(pairs: seq<(string, string)>, key: string, j: int)
    requires 0 <= j < |pairs| && Lower(pairs[j].0) == key
    requires forall k :: 0 <= k < |pairs| && k != j ==> Lower(pairs[k].0) != key
    ensures ValuesNamed(pairs, key) == [pairs[j].1]
    decreases |pairs|
  {
    var init := pairs[..|pairs| - 1];
    if j == |pairs| - 1 {
      ValuesNamedNone(init, key);
    } else {
      forall k | 0 <= k < |init| && k != j ensures Lower(init[k].0) != key {
        assert init[k] == pairs[k];
      }
      ValuesNamedOnly(init, key, j);
    }
  }

  lemma {:induction false} ValuesNamedNone(pairs: seq<(string, string)>, key: string)
    requires forall k :: 0 <= k < |pairs| ==> Lower(pairs[k].0) != key
    ensures ValuesNamed(pairs, key) == []
    decreases |pairs|
  {
    if |pairs| > 0 {
      ValuesNamedNone(pairs[..|pairs| - 1], key);
    }
  }

  /** The environment variables a bearer token is read from, in order of precedence. */
  const TokenVars: seq<string> := ["BEARER_TOKEN", "API_TOKEN", "ACTION1_TOKEN"]

  /** `a || b || c` over environment variables. */
  function FirstSet(env: Env, names: seq<string>): Option<string> {
    if |names| == 0 then None
    else if EnvVar(env, names[0]) != "" then Some(EnvVar(env, names[0]))
    else FirstSet(env, names[1..])
  }

  /** FirstSet gives the value of the first variable that is set, and None only when none is. */
  lemma {:induction false} FirstSetIsFirst(env: Env, names: seq<string>)
    ensures FirstSet(env, names).None? <==> forall i :: 0 <= i < |names| ==> EnvVar(env, names[i]) == ""
    ensures FirstSet(env, names).Some? ==>
      exists j :: 0 <= j < |names| && EnvVar(env, names[j]) == FirstSet(env, names).value != "" &&
        forall i :: 0 <= i < j ==> EnvVar(env, names[i]) == ""
  {
    if |names| > 0 {
      FirstSetIsFirst(env, names[1..]);
      if EnvVar(env, names[0]) == "" {
        if FirstSet(env, names).Some? {
          var j :| 0 <= j < |names[1..]| && EnvVar(env, names[1..][j]) == FirstSet(env, names).value != "" &&
            forall i :: 0 <= i < j ==> EnvVar(env, names[1..][i]) == "";
          assert forall i :: 0 <= i < j + 1 ==> EnvVar(env, names[i]) == "" by {
            forall i | 0 < i < j + 1
              ensures EnvVar(env, names[i]) == ""
            {
              assert names[i] == names[1..][i - 1];
            }
          }
          assert EnvVar(env, names[j + 1]) == FirstSet(env, names).value;
        } else {
          forall i | 0 < i < |names|
            ensures EnvVar(env, names[i]) == ""
          {
            assert names[i] == names[1..][i - 1];
          }
        }
      }
    }
  }

  /** `BEARER_TOKEN || API_TOKEN || ACTION1_TOKEN`, absent when none is set. */
  function BearerToken(env: Env): Option<string> {
    FirstSet(env, TokenVars)
  }

  /** `Buffer.from(user + ":" + pass).toString("base64")` (UTF-8 bytes, RFC 4648 base64). */
  function BasicCredentials(user: string, pass: string): string {
    Base64.Encode(Uri.Utf8Bytes(user + ":" + pass))
  }

  /** The one header applyAuthHeaders sets for a scheme, or None when the environment lacks the secret. */
  function AuthHeader(auth: Auth, env: Env): Option<(string, string)> {
    match auth.scheme
    case OAuth2 | Bearer =>
      (match BearerToken(env)
       case None => None
       case Some(token) => Some(("Authorization", "Bearer " + token)))
    case ApiKey =>
      if OrDefault(auth.header, "") != "" && EnvVar(env, "API_KEY") != "" then
        Some((auth.header.value, EnvVar(env, "API_KEY")))
      else None
    case Basic =>
      var user, pass := EnvVar(env, "BASIC_USER"), EnvVar(env, "BASIC_PASS");
      if user != "" && pass != "" then Some(("Authorization", "Basic " + BasicCredentials(user, pass)))
      else None
  }

  /** The headers after applyAuthHeaders. */
  function WithAuth(m: map<string, string>, auth: Auth, env: Env): map<string, string> {
    match AuthHeader(auth, env)
    case None => m
    case Some(h) => m[Lower(h.0) := h.1]
  }

  /** applyAuthHeaders: sets at most one header, chosen by the configured scheme. */
  method ApplyAuthHeaders(headers: Headers, auth: Auth, env: Env)
    modifies headers
    ensures headers.entries == WithAuth(old(headers.entries), auth, env)
  {
    match auth.scheme
    case OAuth2 | Bearer =>
      var token := BearerToken(env);
      if token.Some? {
        headers.Set("Authorization", "Bearer " + token.value);
      }
    case ApiKey =>
      if auth.header.Some? && auth.header.value != "" {
        var key := EnvVar(env, "API_KEY");
        if key != "" {
          headers.Set(auth.header.value, key);
        }
      }
    case Basic =>
      var user := EnvVar(env, "BASIC_USER");
      var pass := EnvVar(env, "BASIC_PASS");
      if user != "" && pass != "" {
        headers.Set("Authorization", "Basic " + BasicCredentials(user, pass));
      }
  }

  /** For oauth2 and bearer, the token comes from the first of BEARER_TOKEN, API_TOKEN, ACTION1_TOKEN that is set (RFC 6750, section 2.1). */
  lemma BearerHeaderPrecedence(auth: Auth, env: Env)
    requires auth.scheme == OAuth2 || auth.scheme == Bearer
    ensures AuthHeader(auth, env).None? <==> forall i :: 0 <= i < |TokenVars| ==> EnvVar(env, TokenVars[i]) == ""
    ensures AuthHeader(auth, env).Some? ==>
      exists j :: 0 <= j < |TokenVars| && AuthHeader(auth, env).value == ("Authorization", "Bearer " + EnvVar(env, TokenVars[j])) &&
        EnvVar(env, TokenVars[j]) != "" && forall i :: 0 <= i < j ==> EnvVar(env, TokenVars[i]) == ""
  {
    FirstSetIsFirst(env, TokenVars);
  }

  /** With BEARER_TOKEN set, the configured API sends `Authorization: Bearer <token>`. */
  lemma BearerTokenExample(env: Env)
    requires EnvVar(env, "BEARER_TOKEN") == "test-token"
    ensures AuthHeader(Action1.auth, env) == Some(("Authorization", "Bearer " + "test-token"))
  {
  }

  /** The apiKey scheme sets nothing unless a header name is configured. */
  lemma ApiKeyNeedsHeaderName(auth: Auth, env: Env)
    requires auth.scheme == ApiKey
    ensures AuthHeader(auth, env).Some? <==> OrDefault(auth.header, "") != "" && EnvVar(env, "API_KEY") != ""
    ensures AuthHeader(auth, env).Some? ==> AuthHeader(auth, env).value == (auth.header.value, EnvVar(env, "API_KEY"))
  {
  }

  /** The basic scheme needs both user and password, and its credentials decode back to `user:pass` (RFC 7617, section 2). */
  lemma BasicNeedsBoth(auth: Auth, env: Env)
    requires auth.scheme == Basic
    ensures AuthHeader(auth, env).Some? <==> EnvVar(env, "BASIC_USER") != "" && EnvVar(env, "BASIC_PASS") != ""
    ensures AuthHeader(auth, env).Some? ==>
      var v := AuthHeader(auth, env).value.1;
      IsPrefix("Basic ", v) &&
      Base64.Decode(v[6..]) == Some(Uri.Utf8Bytes(EnvVar(env, "BASIC_USER") + ":" + EnvVar(env, "BASIC_PASS")))
  {
    var user, pass := EnvVar(env, "BASIC_USER"), EnvVar(env, "BASIC_PASS");
    if user != "" && pass != "" {
      var c := BasicCredentials(user, pass);
      Base64.DecodeEncode(Uri.Utf8Bytes(user + ":" + pass));
      assert ("Basic " + c)[6..] == c;
    }
  }

  /** Auth headers only ever add or replace one header; every other header is kept. */
  lemma WithAuthKeepsOthers(m: map<string, string>, auth: Auth, env: Env, k: string)
    requires k in m
    requires AuthHeader(auth, env).None? || Lower(AuthHeader(auth, env).value.0) != k
    ensures k in WithAuth(m, auth, env) && WithAuth(m, auth, env)[k] == m[k]
  {
  }

  // ---------------------------------------------------------------- requests

  /** The request options hx is called with (`method`, `body`, `headers`). */
  datatype Init = Init(httpMethod: Option<string>, body: Option<string>, headers: seq<(string, string)>)

  /** `init.body` is truthy. */
  predicate BodyPresent(body: Option<string>) {
    body.Some? && body.value != ""
  }

  /** Content-Type defaults to JSON when there is a body and no Content-Type of its own. */
  function WithContentType(m: map<string, string>, body: Option<string>): (r: map<string, string>)
    ensures forall k :: k in m ==> k in r && r[k] == m[k]
    ensures r.Keys <= m.Keys + {"content-type"}
    ensures "content-type" in r <==> "content-type" in m || BodyPresent(body)
    ensures "content-type" in r && "content-type" !in m ==> r["content-type"] == "application/json"
  {
    if "content-type" !in m && BodyPresent(body) then m["content-type" := "application/json"] else m
  }

  /** The headers hx sends. */
  function RequestHeaders(init: Init, auth: Auth, env: Env): map<string, string> {
    WithAuth(WithContentType(FromPairs(init.headers), init.body), auth, env)
  }

  /** The first half of hx: the URL and headers of the request it sends. */
  method PrepareRequest(configuredBase: string, path: string, init: Init, auth: Auth, env: Env)
    returns (url: string, headers: Headers)
    ensures url == ResolveBaseUrl(env, configuredBase) + path
    ensures fresh(headers) && headers.entries == RequestHeaders(init, auth, env)
  {
    url := ResolveBaseUrl(env, configuredBase) + path;
    headers := new Headers(init.headers);
    assert Lower("Content-Type") == "content-type";
    if !headers.Has("Content-Type") && BodyPresent(init.body) {
      headers.Set("Content-Type", "application/json");
    }
    ApplyAuthHeaders(headers, auth, env);
  }

  /** A JSON content type is added for a body under the configured API, whose oauth2 auth only sets Authorization. */
  lemma JsonBodyGetsContentType(init: Init, env: Env)
    requires BodyPresent(init.body)
    requires forall i :: 0 <= i < |init.headers| ==> Lower(init.headers[i].0) != "content-type"
    ensures "content-type" in RequestHeaders(init, Action1.auth, env)
    ensures RequestHeaders(init, Action1.auth, env)["content-type"] == "application/json"
  {
    FromPairsKeys(init.headers);
    assert Lower("Authorization") == "authorization";
  }

  lemma {:induction false} FromPairsKeys(pairs: seq<(string, string)>)
    ensures forall k :: k in FromPairs(pairs) ==> exists i :: 0 <= i < |pairs| && Lower(pairs[i].0) == k
  {
    if |pairs| > 0 {
      var init := pairs[..|pairs| - 1];
      FromPairsKeys(init);
      forall k | k in FromPairs(pairs)
        ensures exists i :: 0 <= i < |pairs| && Lower(pairs[i].0) == k
      {
        if k != Lower(pairs[|pairs| - 1].0) {
          assert k in FromPairs(init);
          var i :| 0 <= i < |init| && Lower(init[i].0) == k;
          assert pairs[i] == init[i];
        }
      }
    }
  }

  // ---------------------------------------------------------------- responses

  /** A response as hx sees it; `parsed` is what JSON.parse gives for `text` (None: it throws). */
  datatype Response = Response(status: int, contentType: Option<string>, text: string, parsed: Option<Json>)

  /** What one call to fetch produced. */
  datatype Reply = Answered(response: Response) | Rejected

  /** `res.ok` */
  predicate Ok(status: int) {
    200 <= status <= 299
  }

  /** `text.slice(0, 500)` */
  function Snippet(text: string): (r: string)
    ensures IsPrefix(r, text)
    ensures |r| == if |text| < 500 then |text| else 500
  {
    if |text| <= 500 then text else text[..500]
  }

  /** `(res.headers.get("content-type") || "").includes("application/json")` */
  predicate IsJson(res: Response) {
    Contains(OrDefault(res.contentType, ""), "application/json")
  }

  /** The second half of hx: turning a response into a value or a thrown error. */
  function Classify(res: Response): (r: Result<Json, Error>)
    ensures r.Failure? <==> !Ok(res.status) || (IsJson(res) && res.text != "" && res.parsed.None?)
    ensures r.Failure? ==> StatusOf(r.error) == Some(res.status)
    ensures r.Success? && !IsJson(res) ==> r.value == Str(res.text)
  {
    if !Ok(res.status) then Failure(HttpStatus(res.status, Snippet(res.text)))
    else if IsJson(res) then
      if res.text == "" then Success(Obj([]))
      else if res.parsed.None? then Failure(ParseFailure(res.status, Snippet(res.text)))
      else Success(res.parsed.value)
    else Success(Str(res.text))
  }

  /** A JSON response with an empty body is the empty object; a non-empty one is what it parses to. */
  lemma ClassifyJson(res: Response)
    requires Ok(res.status) && IsJson(res)
    ensures res.text == "" ==> Classify(res) == Success(Obj([]))
    ensures res.text != "" && res.parsed.Some? ==> Classify(res) == Success(res.parsed.value)
    ensures res.text != "" && res.parsed.None? ==> Classify(res) == Failure(ParseFailure(res.status, Snippet(res.text)))
  {
  }

  /** A failed response carries at most the first 500 characters of its body. */
  lemma ClassifySnippet(res: Response)
    requires !Ok(res.status)
    ensures Classify(res).Failure? && Classify(res).error.HttpStatus?
    ensures IsPrefix(Classify(res).error.snippet, res.text) && |Classify(res).error.snippet| <= 500
  {
  }

  /** hx over the fetch oracle: a rejected fetch throws an error without a status. */
  function Hx(reply: Reply): Result<Json, Error> {
    match reply
    case Rejected => Failure(NetworkFailure)
    case Answered(res) => Classify(res)
  }

  /** The reply to call number i; past the end of the oracle, fetch rejects. */
  function ReplyAt(replies: seq<Reply>, i: nat): Reply {
    if i < |replies| then replies[i] else Rejected
  }

  // ---------------------------------------------------------------- retries

  function Pow2(n: nat): (r: nat)
    ensures r >= 1
  {
    if n == 0 then 1 else 2 * Pow2(n - 1)
  }

  /** The base delays of the first n retries. */
  function BaseDelays(n: nat): (d: seq<int>)
    ensures |d| == n
  {
    if n == 0 then [] else BaseDelays(n - 1) + [250 * Pow2(n - 1)]
  }

  /** The base delay starts at 250 and doubles after every retry. */
  lemma {:induction false} BaseDelaysDouble(n: nat)
    ensures n > 0 ==> BaseDelays(n)[0] == 250
    ensures forall i :: 0 < i < n ==> BaseDelays(n)[i] == 2 * BaseDelays(n)[i - 1]
  {
    if n > 0 {
      BaseDelaysDouble(n - 1);
      assert BaseDelays(n)[..n - 1] == BaseDelays(n - 1);
      if n > 1 {
        assert BaseDelays(n)[n - 1] == 250 * Pow2(n - 1) == 2 * (250 * Pow2(n - 2));
        assert BaseDelays(n - 1)[n - 2] == 250 * Pow2(n - 2);
      }
    }
  }

  /**
   * What getWithRetry returns, and how many calls it has made, once `attempt` retries are
   * behind it and `last` is the error of the latest one.
   */
  function Retry(replies: seq<Reply>, maxAttempts: int, attempt: nat, last: Option<Error>): (Result<Json, Error>, nat)
    decreases maxAttempts - attempt
  {
    if attempt >= maxAttempts then (Failure(last.GetOr(NothingThrown)), attempt)
    else
      var o := Hx(ReplyAt(replies, attempt));
      if o.Success? || !RetryStatus(StatusOf(o.error)) then (o, attempt + 1)
      else Retry(replies, maxAttempts, attempt + 1, Some(o.error))
  }

  /** A failure that getWithRetry would retry. */
  predicate Retryable(o: Result<Json, Error>) {
    o.Failure? && RetryStatus(StatusOf(o.error))
  }

  /**
   * getWithRetry: GET until a success or a non-retryable error, at most maxAttempts times.
   * `delays` are the base delays slept after each retried failure (the jitter is not modelled).
   */
  method GetWithRetry(replies: seq<Reply>, maxAttempts: int) returns (r: Result<Json, Error>, calls: nat, delays: seq<int>)
    ensures (r, calls) == Retry(replies, maxAttempts, 0, None)
    ensures |delays| == if Retryable(r) then calls else if calls == 0 then 0 else calls - 1
    ensures delays == BaseDelays(|delays|)
  {
    var attempt: nat := 0;
    var lastError: Option<Error> := None;
    var delay := 250;
    delays := [];
    while attempt < maxAttempts
      invariant Retry(replies, maxAttempts, 0, None) == Retry(replies, maxAttempts, attempt, lastError)
      invariant delays == BaseDelays(attempt) && delay == 250 * Pow2(attempt)
      invariant attempt == 0 <==> lastError.None?
      invariant lastError.Some? ==> RetryStatus(StatusOf(lastError.value))
      decreases maxAttempts - attempt
    {
      var o := Hx(ReplyAt(replies, attempt));
      if o.Success? || !RetryStatus(StatusOf(o.error)) {
        assert !Retryable(o);
        return o, attempt + 1, delays;
      }
      ghost var prev := lastError;
      lastError := Some(o.error);
      attempt := attempt + 1;
      delays := delays + [delay];
      delay := delay * 2;
      assert Retry(replies, maxAttempts, attempt - 1, prev) == Retry(replies, maxAttempts, attempt, lastError);
    }
    r := Failure(lastError.GetOr(NothingThrown));
    calls := attempt;
  }

  /**
   * The result of getWithRetry is the outcome of its last call, every earlier call was a
   * retryable failure, and it makes at most maxAttempts calls (none when maxAttempts <= 0,
   * in which case it throws `undefined`).
   */
  lemma {:induction false} RetryIsLastCall(replies: seq<Reply>, maxAttempts: int, attempt: nat, last: Option<Error>)
    requires attempt > 0 ==> Retryable(Hx(ReplyAt(replies, attempt - 1))) && last == Some(Hx(ReplyAt(replies, attempt - 1)).error)
    requires attempt == 0 ==> last.None?
    requires attempt <= maxAttempts || attempt == 0
    ensures var (r, calls) := Retry(replies, maxAttempts, attempt, last);
      (calls == 0 <==> maxAttempts <= 0) &&
      (calls == 0 ==> r == Failure(NothingThrown)) &&
      (calls > 0 ==> r == Hx(ReplyAt(replies, calls - 1))) &&
      attempt <= calls && (calls <= maxAttempts || calls == 0) &&
      (calls < maxAttempts ==> !Retryable(r)) &&
      forall i :: attempt <= i < calls - 1 ==> Retryable(Hx(ReplyAt(replies, i)))
    decreases maxAttempts - attempt
  {
    if attempt < maxAttempts {
      var o := Hx(ReplyAt(replies, attempt));
      if !(o.Success? || !RetryStatus(StatusOf(o.error))) {
        RetryIsLastCall(replies, maxAttempts, attempt + 1, Some(o.error));
      }
    }
  }

  /** Only 429, 502, 503 and 504 are retried: any other error is thrown after one call. */
  lemma NonRetryableStopsAtOnce(replies: seq<Reply>, maxAttempts: int)
    requires maxAttempts >= 1
    requires !Retryable(Hx(ReplyAt(replies, 0)))
    ensures Retry(replies, maxAttempts, 0, None) == (Hx(ReplyAt(replies, 0)), 1)
  {
  }

  /** When every attempt fails retryably, the last of those errors is thrown after maxAttempts calls. */
  lemma {:induction false} ExhaustionThrowsLastError(replies: seq<Reply>, maxAttempts: int, attempt: nat, last: Option<Error>)
    requires attempt < maxAttempts
    requires forall i :: attempt <= i < maxAttempts ==> Retryable(Hx(ReplyAt(replies, i)))
    ensures Retry(replies, maxAttempts, attempt, last) == (Hx(ReplyAt(replies, maxAttempts - 1)), maxAttempts)
    decreases maxAttempts - attempt
  {
    var o := Hx(ReplyAt(replies, attempt));
    assert Retryable(o);
    if attempt + 1 < maxAttempts {
      ExhaustionThrowsLastError(replies, maxAttempts, attempt + 1, Some(o.error));
    }
  }

  /** A 429 and then a 2xx JSON response: the parsed payload comes back after exactly two calls. */
  lemma RetryThenSucceed(payload: Json, text: string)
    requires text != ""
    ensures var replies := [
        Answered(Response(429, None, "rate", None)),
        Answered(Response(200, Some("application/json"), text, Some(payload)))];
      Retry(replies, 4, 0, None) == (Success(payload), 2)
  {
    assert IsPrefix("application/json", "application/json");
  }

  /** A 400 is thrown after a single call. */
  lemma BadRequestNotRetried(replies: seq<Reply>)
    requires |replies| >= 1 && replies[0] == Answered(Response(400, None, "bad", None))
    ensures Retry(replies, 4, 0, None) == (Failure(HttpStatus(400, "bad")), 1)
  {
  }

  // ---------------------------------------------------------------- postAction

  /** `body ? JSON.stringify(body) : undefined` */
  function PostBody(body: Json): (r: Option<string>)
    ensures r.Some? <==> Truthy(body)
  {
    if Truthy(body) then Some(Stringify(body)) else None
  }

  /** JSON text is never empty, so a truthy body is always sent and marked as JSON. */
  lemma StringifyNonEmpty(v: Json)
    requires !v.Undefined?
    ensures Stringify(v) != ""
  {
    match v
    case Null =>
    case Bool(b) =>
    case Num(n) =>
    case Str(s) =>
    case Arr(_) =>
    case Obj(_) =>
  }

  /** The request postAction sends: a POST whose body, if any, is the JSON text of `body`. */
  function PostInit(body: Json): Init {
    Init(Some("POST"), PostBody(body), [])
  }

  /** A truthy body goes out as JSON with a JSON content type; a falsy one goes out with neither. */
  lemma PostActionContentType(body: Json, env: Env)
    ensures Truthy(body) ==>
      "content-type" in RequestHeaders(PostInit(body), Action1.auth, env) &&
      RequestHeaders(PostInit(body), Action1.auth, env)["content-type"] == "application/json"
    ensures !Truthy(body) ==> "content-type" !in RequestHeaders(PostInit(body), Action1.auth, env)
  {
    assert Lower("Authorization") == "authorization";
    if Truthy(body) {
      StringifyNonEmpty(body);
    }
  }
}
