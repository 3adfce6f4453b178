/**
 * The declarative description of the Action1 REST API (base URL, auth scheme,
 * pagination style, resources with their optional operations, POST-only actions)
 * and `interpolatePath`, which fills `{word}` placeholders of a path template
 * with percent-encoded values.
 */
module Endpoints {
  import opened Wrappers
  import opened Text
  import opened Js
  import opened Uri
  import opened Errors

  datatype Method = GET | POST | PATCH | DELETE

  /** One HTTP operation: a path template and its method (request schemas are not modelled). */
  datatype Endpoint = Endpoint(path: string, httpMethod: Method)

  /** A resource declares any subset of the five operations, and may nest subresources. */
  datatype Resource = Resource(
    list: Option<Endpoint> := None,
    get: Option<Endpoint> := None,
    create: Option<Endpoint> := None,
    update: Option<Endpoint> := None,
    delete: Option<Endpoint> := None,
    subresources: map<string, Resource> := map[])

  datatype Scheme = ApiKey | Bearer | Basic | OAuth2

  datatype Auth = Auth(scheme: Scheme, header: Option<string>, queryParam: Option<string>, scopes: Option<seq<string>>)

  datatype Style = PageStyle | CursorStyle | LinkStyle | NoPaging

  datatype Pagination = Pagination(
    style: Style,
    pageParam: Option<string>,
    perPageParam: Option<string>,
    cursorParam: Option<string>,
    nextField: Option<string>)

  /** An action is a POST to a path template. */
  datatype Action = Action(path: string, httpMethod: Method)

  /** Where and how a long-running job's status is read. */
  datatype JobStatus = JobStatus(
    pathTemplate: string,
    labelField: Option<string>,
    statusField: string,
    successValues: seq<string>,
    failureValues: seq<string>)

  datatype Spec = Spec(
    baseUrl: string,
    auth: Auth,
    pagination: Pagination,
    resources: map<string, Resource>,
    actions: Option<map<string, Action>>,
    jobStatus: Option<JobStatus>)

  /** `o || d` for an optional string: absent and empty both give d. */
  function OrDefault(o: Option<string>, d: string): string {
    if o.Some? && o.value != "" then o.value else d
  }

  function Op(path: string, m: Method): Option<Endpoint> {
    Some(Endpoint(path, m))
  }

  /** The API as this adapter describes it. */
  const Action1: Spec := Spec(
    "https://app.action1.com/api/3.0",
    Auth(OAuth2, None, None, None),
    Pagination(CursorStyle, None, Some("limit"), Some("next_page"), None),
    map[
      "organizations" := Resource(list := Op("/organizations", GET)),
      "endpoints_status" := Resource(list := Op("/endpoints/status/{orgId}", GET)),
      "endpoints" := Resource(
        list := Op("/endpoints/managed/{orgId}", GET),
        get := Op("/endpoints/managed/{orgId}/{endpointId}", GET),
        update := Op("/endpoints/managed/{orgId}/{endpointId}", PATCH),
        delete := Op("/endpoints/managed/{orgId}/{endpointId}", DELETE),
        subresources := map[
          "general" := Resource(get := Op("/endpoints/managed/{orgId}/{endpointId}/general", GET)),
          "missingUpdates" := Resource(list := Op("/endpoints/managed/{orgId}/{endpointId}/missing-updates", GET)),
          "remoteSessions" := Resource(
            get := Op("/endpoints/managed/{orgId}/{endpointId}/remote-sessions/{sessionId}", GET),
            update := Op("/endpoints/managed/{orgId}/{endpointId}/remote-sessions/{sessionId}", PATCH))]),
      "endpoint_groups" := Resource(
        list := Op("/endpoints/groups/{orgId}", GET),
        create := Op("/endpoints/groups/{orgId}", POST),
        get := Op("/endpoints/groups/{orgId}/{groupId}", GET),
        update := Op("/endpoints/groups/{orgId}/{groupId}", PATCH),
        delete := Op("/endpoints/groups/{orgId}/{groupId}", DELETE),
        subresources := map[
          "contents" := Resource(
            list := Op("/endpoints/groups/{orgId}/{groupId}/contents", GET),
            create := Op("/endpoints/groups/{orgId}/{groupId}/contents", POST))]),
      "search" := Resource(list := Op("/search/{orgId}", GET)),
      "agent_deployment" := Resource(
        get := Op("/endpoints/agent-deployment/{orgId}", GET),
        update := Op("/endpoints/agent-deployment/{orgId}", PATCH)),
      "agent_installation" := Resource(get := Op("/endpoints/agent-installation/{orgId}/{installType}", GET)),
      "deployers" := Resource(
        list := Op("/endpoints/deployers/{orgId}", GET),
        get := Op("/endpoints/deployers/{orgId}/{deployerId}", GET),
        delete := Op("/endpoints/deployers/{orgId}/{deployerId}", DELETE)),
      "deployer_installation_windows" := Resource(list := Op("/endpoints/deployer-installation/{orgId}/windowsEXE", GET))
    ],
    Some(map[
      "move_endpoint" := Action("/endpoints/managed/{orgId}/{endpointId}/move", POST),
      "initiate_remote_session" := Action("/endpoints/managed/{orgId}/{endpointId}/remote-sessions", POST),
      "license_enterprise_trial" := Action("/license/enterprise/trial", POST)
    ]),
    None)

  /** `spec.resources[name]` */
  function ResourceNamed(spec: Spec, name: string): Option<Resource> {
    if name in spec.resources then Some(spec.resources[name]) else None
  }

  /** `spec.actions?.[name]` */
  function ActionNamed(spec: Spec, name: string): Option<Action> {
    if spec.actions.Some? && name in spec.actions.value then Some(spec.actions.value[name]) else None
  }

  // ----- interpolatePath -----

  /** The regular-expression class `\w`. */
  predicate IsWordChar(c: char) {
    ('A' <= c <= 'Z') || ('a' <= c <= 'z') || ('0' <= c <= '9') || c == '_'
  }

  /** Length of the run of word characters that s starts with. */
  function WordRun(s: string): (n: nat)
    ensures n <= |s|
    ensures forall j :: 0 <= j < n ==> IsWordChar(s[j])
    ensures n < |s| ==> !IsWordChar(s[n])
  {
    if |s| == 0 || !IsWordChar(s[0]) then 0 else 1 + WordRun(s[1..])
  }

  /** The name k when t starts with a match of `\{(\w+)\}`, that is with "{" + k + "}". */
  function PlaceholderAt(t: string): (r: Option<string>)
    ensures r.Some? ==> 1 <= |r.value| && |r.value| + 2 <= |t|
    ensures r.Some? ==> t[..|r.value| + 2] == "{" + r.value + "}"
    ensures r.Some? ==> forall j :: 0 <= j < |r.value| ==> IsWordChar(r.value[j])
  {
    if |t| > 0 && t[0] == '{' then
      var n := WordRun(t[1..]);
      if n > 0 && n + 1 < |t| && t[n + 1] == '}' then Some(t[1..n + 1]) else None
    else None
  }

  /** The placeholder names of a template, left to right, as the global match finds them. */
  function Placeholders(t: string): seq<string>
    decreases |t|
  {
    if |t| == 0 then []
    else match PlaceholderAt(t)
      case Some(k) => [k] + Placeholders(t[|k| + 2..])
      case None => Placeholders(t[1..])
  }

  /** `params[k]`: a key that is absent reads as undefined. */
  function Param(params: map<string, Json>, k: string): Json {
    if k in params then params[k] else Undefined
  }

  /** Text s in front of a successful result; a failure passes through. */
  function Prepend(s: string, r: Result<string, Error>): Result<string, Error> {
    match r
    case Success(o) => Success(s + o)
    case Failure(e) => Failure(e)
  }

  /**
   * `interpolatePath(t, params)`: each placeholder becomes `encodeURIComponent(String(v))`;
   * the first placeholder, left to right, whose value is undefined raises `Missing path param`.
   */
  function Interpolate(t: string, params: map<string, Json>): Result<string, Error>
    decreases |t|
  {
    if |t| == 0 then Success("")
    else match PlaceholderAt(t)
      case Some(k) =>
        var v := Param(params, k);
        if v.Undefined? then Failure(MissingPathParam(k))
        else Prepend(Encode(ToStr(v)), Interpolate(t[|k| + 2..], params))
      case None =>
        Prepend([t[0]], Interpolate(t[1..], params))
  }

  /** The first name in the list whose value is undefined. */
  function FirstMissing(names: seq<string>, params: map<string, Json>): (r: Option<string>)
    ensures r.Some? ==> r.value in names && Param(params, r.value).Undefined?
    ensures r.None? <==> forall j :: 0 <= j < |names| ==> !Param(params, names[j]).Undefined?
  {
    if |names| == 0 then None
    else if Param(params, names[0]).Undefined? then Some(names[0])
    else FirstMissing(names[1..], params)
  }

  /**
   * Interpolation fails exactly when some placeholder's value is undefined, and the error
   * names the first such placeholder.
   */
  lemma {:induction false} InterpolateFailure(t: string, params: map<string, Json>)
    ensures Interpolate(t, params).Failure? <==> FirstMissing(Placeholders(t), params).Some?
    ensures Interpolate(t, params).Failure? ==>
      Interpolate(t, params).error == MissingPathParam(FirstMissing(Placeholders(t), params).value)
    decreases |t|
  {
    if |t| > 0 {
      match PlaceholderAt(t)
      case Some(k) =>
        InterpolateFailure(t[|k| + 2..], params);
        assert Placeholders(t) == [k] + Placeholders(t[|k| + 2..]);
        assert ([k] + Placeholders(t[|k| + 2..]))[1..] == Placeholders(t[|k| + 2..]);
      case None =>
        InterpolateFailure(t[1..], params);
    }
  }

  /** Params that the template does not name have no effect. */
  lemma {:induction false} InterpolateIgnoresOtherParams(t: string, p1: map<string, Json>, p2: map<string, Json>)
    requires forall k :: k in Placeholders(t) ==> Param(p1, k) == Param(p2, k)
    ensures Interpolate(t, p1) == Interpolate(t, p2)
    decreases |t|
  {
    if |t| > 0 {
      match PlaceholderAt(t)
      case Some(k) =>
        assert k in Placeholders(t);
        InterpolateIgnoresOtherParams(t[|k| + 2..], p1, p2);
      case None =>
        InterpolateIgnoresOtherParams(t[1..], p1, p2);
    }
  }

  /** A template without placeholders comes back unchanged, whatever the params. */
  lemma {:induction false} InterpolateNoPlaceholders(t: string, params: map<string, Json>)
    requires Placeholders(t) == []
    ensures Interpolate(t, params) == Success(t)
    decreases |t|
  {
    if |t| > 0 {
      match PlaceholderAt(t)
      case Some(k) =>
      case None =>
        InterpolateNoPlaceholders(t[1..], params);
        assert [t[0]] + t[1..] == t;
    }
  }

  /** Text that holds no '{' has no placeholder. */
  lemma {:induction false} NoOpenBraceNoPlaceholders(s: string)
    requires '{' !in s
    ensures Placeholders(s) == []
    decreases |s|
  {
    if |s| > 0 {
      assert s[0] != '{';
      NoOpenBraceNoPlaceholders(s[1..]);
    }
  }

  /** Literal text in front of a template is copied unchanged. */
  lemma {:induction false} InterpolateLiteralPrefix(lit: string, t: string, params: map<string, Json>)
    requires '{' !in lit
    ensures Interpolate(lit + t, params) == Prepend(lit, Interpolate(t, params))
    decreases |lit|
  {
    if |lit| > 0 {
      var s := lit + t;
      assert s[0] == lit[0] && s[1..] == lit[1..] + t;
      assert lit[0] in lit;
      assert PlaceholderAt(s).None?;
      InterpolateLiteralPrefix(lit[1..], t, params);
      assert [lit[0]] + lit[1..] == lit;
      if Interpolate(t, params).Success? {
        var o := Interpolate(t, params).value;
        assert [lit[0]] + (lit[1..] + o) == lit + o;
      }
    } else {
      assert lit + t == t;
      if Interpolate(t, params).Success? {
        assert lit + Interpolate(t, params).value == Interpolate(t, params).value;
      }
    }
  }

  /** "{" + k + "}" starts with a placeholder named k whenever k is a non-empty word. */
  lemma PlaceholderAtName(k: string, t: string)
    requires |k| >= 1 && forall j :: 0 <= j < |k| ==> IsWordChar(k[j])
    ensures PlaceholderAt("{" + k + "}" + t) == Some(k)
    ensures ("{" + k + "}" + t)[|k| + 2..] == t
  {
    var s := "{" + k + "}" + t;
    assert s[1..][..|k|] == k;
    assert WordRun(s[1..]) == |k| by {
      assert s[1..][|k|] == '}';
    }
    assert s[1..|k| + 1] == k;
  }

  /** A placeholder in front of a template becomes the encoded text of its value. */
  lemma InterpolatePlaceholderPrefix(k: string, t: string, params: map<string, Json>)
    requires |k| >= 1 && forall j :: 0 <= j < |k| ==> IsWordChar(k[j])
    ensures Interpolate("{" + k + "}" + t, params) ==
      if Param(params, k).Undefined? then Failure(MissingPathParam(k))
      else Prepend(Encode(ToStr(Param(params, k))), Interpolate(t, params))
  {
    PlaceholderAtName(k, t);
  }

  /** Every '{' of t opens a placeholder. */
  predicate BracesOpenPlaceholders(t: string)
    decreases |t|
  {
    |t| == 0 ||
    match PlaceholderAt(t)
    case Some(k) => BracesOpenPlaceholders(t[|k| + 2..])
    case None => t[0] != '{' && BracesOpenPlaceholders(t[1..])
  }

  /**
   * When every '{' of the template opens a placeholder, a successful interpolation leaves
   * no '{' behind, and so no placeholder.
   */
  lemma {:induction false} InterpolateLeavesNoPlaceholder(t: string, params: map<string, Json>)
    requires BracesOpenPlaceholders(t)
    requires Interpolate(t, params).Success?
    ensures '{' !in Interpolate(t, params).value
    ensures Placeholders(Interpolate(t, params).value) == []
    decreases |t|
  {
    var o := Interpolate(t, params).value;
    if |t| > 0 {
      match PlaceholderAt(t)
      case Some(k) =>
        var rest := t[|k| + 2..];
        InterpolateLeavesNoPlaceholder(rest, params);
        var e := Encode(ToStr(Param(params, k)));
        EncodeHasNoDelimiters(ToStr(Param(params, k)));
        assert o == e + Interpolate(rest, params).value;
        assert '{' !in e + Interpolate(rest, params).value;
      case None =>
        InterpolateLeavesNoPlaceholder(t[1..], params);
        assert o == [t[0]] + Interpolate(t[1..], params).value;
        assert t[0] != '{';
    }
    NoOpenBraceNoPlaceholders(o);
  }

  /** Without that condition a placeholder can survive: "{{a}}" gives "{x}". */
  lemma NestedBracesLeavePlaceholder(p: map<string, Json>)
    requires Param(p, "a") == Str("x")
    ensures Interpolate("{" + "{a}" + "}", p) == Success("{" + "x" + "}")
    ensures Placeholders("{" + "x" + "}") == ["x"]
    ensures !BracesOpenPlaceholders("{" + "{a}" + "}")
  {
    InterpolateLiteralPrefix("}", "", p);
    assert "}" + "" == "}";
    InterpolatePlaceholderPrefix("a", "}", p);
    assert "{" + "a" + "}" == "{a}";
    EncodeUnreserved("x");
    assert ToStr(Str("x")) == "x";
    assert Interpolate("{a}" + "}", p) == Success("x" + "}");
    var t := "{" + ("{a}" + "}");
    assert t[0] == '{' && t[1..] == "{a}" + "}";
    assert t[1..][0] == '{';
    assert WordRun(t[1..]) == 0;
    assert PlaceholderAt(t) == None;
    assert Interpolate(t, p) == Success("{" + ("x" + "}"));
    Associate3("{", "{a}", "}");
    Associate3("{", "x", "}");
    PlaceholderAtName("x", "");
    assert "{" + "x" + "}" + "" == "{" + "x" + "}";
  }

  lemma Associate3(a: string, b: string, c: string)
    ensures a + (b + c) == a + b + c
  {
  }

  function CountChar(s: string, c: char): nat
    decreases |s|
  {
    if |s| == 0 then 0 else (if s[0] == c then 1 else 0) + CountChar(s[1..], c)
  }

  lemma {:induction false} CountCharAppend(a: string, b: string, c: char)
    ensures CountChar(a + b, c) == CountChar(a, c) + CountChar(b, c)
    decreases |a|
  {
    if |a| > 0 {
      assert (a + b)[0] == a[0] && (a + b)[1..] == a[1..] + b;
      CountCharAppend(a[1..], b, c);
    } else {
      assert a + b == b;
    }
  }

  lemma {:induction false} CountCharAbsent(s: string, c: char)
    requires c !in s
    ensures CountChar(s, c) == 0
    decreases |s|
  {
    if |s| > 0 {
      CountCharAbsent(s[1..], c);
    }
  }

  /** Values cannot add path segments: the output has exactly the template's slashes. */
  lemma {:induction false} InterpolateKeepsSlashes(t: string, params: map<string, Json>)
    requires Interpolate(t, params).Success?
    ensures CountChar(Interpolate(t, params).value, '/') == CountChar(t, '/')
    decreases |t|
  {
    if |t| > 0 {
      match PlaceholderAt(t)
      case Some(k) =>
        var rest := t[|k| + 2..];
        InterpolateKeepsSlashes(rest, params);
        var e := Encode(ToStr(Param(params, k)));
        EncodeHasNoDelimiters(ToStr(Param(params, k)));
        SlashesAfterPlaceholder(t, k, e, Interpolate(rest, params).value);
      case None =>
        InterpolateKeepsSlashes(t[1..], params);
        CountCharAppend([t[0]], Interpolate(t[1..], params).value, '/');
    }
  }

  /** A placeholder adds no slash to the template, and an encoded value none to the output. */
  lemma SlashesAfterPlaceholder(t: string, k: string, e: string, o: string)
    requires |k| + 2 <= |t| && t[..|k| + 2] == "{" + k + "}"
    requires forall j :: 0 <= j < |k| ==> IsWordChar(k[j])
    requires '/' !in e
    ensures CountChar(e + o, '/') == CountChar(o, '/')
    ensures CountChar(t, '/') == CountChar(t[|k| + 2..], '/')
  {
    var slot := t[..|k| + 2];
    CountCharAbsent(e, '/');
    CountCharAppend(e, o, '/');
    assert t == slot + t[|k| + 2..];
    CountCharAppend(slot, t[|k| + 2..], '/');
    assert '/' !in slot by {
      forall j | 0 <= j < |slot| ensures slot[j] != '/' {
        if 0 < j < |slot| - 1 { assert slot[j] == k[j - 1]; }
      }
    }
    CountCharAbsent(slot, '/');
  }

  /** Literal text, then a placeholder whose value is present, then a template that interpolates to o. */
  lemma InterpolateSegment(lit: string, k: string, rest: string, p: map<string, Json>, o: string)
    requires '{' !in lit
    requires |k| >= 1 && forall j :: 0 <= j < |k| ==> IsWordChar(k[j])
    requires !Param(p, k).Undefined?
    requires Interpolate(rest, p) == Success(o)
    ensures Interpolate(lit + ("{" + k + "}" + rest), p) == Success(lit + (Encode(ToStr(Param(p, k))) + o))
  {
    InterpolatePlaceholderPrefix(k, rest, p);
    InterpolateLiteralPrefix(lit, "{" + k + "}" + rest, p);
  }

  lemma Associate(a: string, b: string, c: string, d: string)
    ensures a + (b + (c + d)) == a + b + c + d
  {
  }

  /**
   * Two placeholders after literal text: a space in the first value and a slash in the
   * second are escaped, so `/x/{orgId}/y/{endpointId}` with `org 1` and `id/2` gives
   * `/x/org%201/y/id%2F2`.
   */
  lemma InterpolateExample(lit1: string, k1: string, lit2: string, k2: string, p: map<string, Json>,
                           a1: string, b1: string, a2: string, b2: string)
    requires '{' !in lit1 && '{' !in lit2
    requires |k1| >= 1 && forall j :: 0 <= j < |k1| ==> IsWordChar(k1[j])
    requires |k2| >= 1 && forall j :: 0 <= j < |k2| ==> IsWordChar(k2[j])
    requires forall i :: 0 <= i < |a1| ==> Unreserved(a1[i])
    requires forall i :: 0 <= i < |b1| ==> Unreserved(b1[i])
    requires forall i :: 0 <= i < |a2| ==> Unreserved(a2[i])
    requires forall i :: 0 <= i < |b2| ==> Unreserved(b2[i])
    requires Param(p, k1) == Str(a1 + (" " + b1)) && Param(p, k2) == Str(a2 + ("/" + b2))
    ensures Interpolate(lit1 + ("{" + k1 + "}") + lit2 + ("{" + k2 + "}"), p)
         == Success(lit1 + (a1 + ("%20" + b1)) + lit2 + (a2 + ("%2F" + b2)))
  {
    var e1, e2 := a1 + ("%20" + b1), a2 + ("%2F" + b2);
    var s1, s2 := "{" + k1 + "}", "{" + k2 + "}";
    EncodeSpaceAndSlash(a1, b1);
    EncodeSpaceAndSlash(a2, b2);
    assert s2 + "" == s2 && e2 + "" == e2;
    InterpolateSegment(lit2, k2, "", p, "");
    InterpolateSegment(lit1, k1, lit2 + s2, p, lit2 + e2);
    Associate(lit1, s1, lit2, s2);
    Associate(lit1, e1, lit2, e2);
  }

  /** A missing key is reported by name; only undefined counts as missing, null is rendered as "null". */
  lemma InterpolateMissingOrNull(lit: string, k: string, p: map<string, Json>)
    requires '{' !in lit
    requires |k| >= 1 && forall j :: 0 <= j < |k| ==> IsWordChar(k[j])
    ensures Param(p, k).Undefined? ==> Interpolate(lit + ("{" + k + "}"), p) == Failure(MissingPathParam(k))
    ensures Param(p, k).Null? ==> Interpolate(lit + ("{" + k + "}"), p) == Success(lit + "null")
  {
    var slot := "{" + k + "}";
    assert slot + "" == slot;
    InterpolateLiteralPrefix(lit, slot, p);
    InterpolatePlaceholderPrefix(k, "", p);
    if Param(p, k).Null? {
      NullRendered();
      assert "null" + "" == "null";
    }
  }

  /** null is rendered as the text "null", which encoding leaves alone. */
  lemma NullRendered()
    ensures Encode(ToStr(Null)) == "null"
  {
    EncodeUnreserved("null");
  }

  /** A brace group that is not all word characters is plain text. */
  lemma NonWordBracesAreText(p: map<string, Json>)
    ensures Placeholders("/a/{a-b}") == []
    ensures Interpolate("/a/{a-b}", p) == Success("/a/{a-b}")
  {
    InterpolateNoPlaceholders("/a/{a-b}", p);
  }

  // ----- the shape of the description -----

  /** `organizations` can only be listed. */
  lemma OrganizationsListOnly()
    ensures "organizations" in Action1.resources
    ensures var r := Action1.resources["organizations"];
      r.list.Some? && r.get.None? && r.create.None? && r.update.None? && r.delete.None?
  {
  }

  /** `agent_installation` is read by install type. */
  lemma AgentInstallationByType()
    ensures "agent_installation" in Action1.resources
    ensures var r := Action1.resources["agent_installation"];
      r.get.Some? && Contains(r.get.value.path, "{installType}")
  {
    var t := "/endpoints/agent-installation/{orgId}/{installType}";
    assert t == "/endpoints/agent-installation/{orgId}/" + "{installType}";
    ContainsSuffix("/endpoints/agent-installation/{orgId}/", "{installType}");
  }

  /** The remote sessions of an endpoint can be read and updated. */
  lemma RemoteSessionsGetAndUpdate()
    ensures "endpoints" in Action1.resources
    ensures "remoteSessions" in Action1.resources["endpoints"].subresources
    ensures var r := Action1.resources["endpoints"].subresources["remoteSessions"];
      r.get.Some? && r.update.Some?
  {
  }

  /** Every action of the description is a POST. */
  lemma ActionsArePosts()
    ensures Action1.actions.Some?
    ensures forall name :: name in Action1.actions.value ==> Action1.actions.value[name].httpMethod == POST
  {
  }
}
