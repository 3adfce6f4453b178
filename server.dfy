/**
 * The decisions the MCP tools of src/server.ts take before and around their requests:
 * the destructive-operation gate, the organisation and token fallbacks, `pick`, and the
 * tools list_resources, get_resource, create_resource, update_resource, delete_resource,
 * call_action and remove_entities. Each tool is a function of its input, the process
 * environment and what its requests return; its result records the requests it made.
 */
module Server {
  import opened Wrappers
  import opened Text
  import opened Js
  import opened Errors
  import opened Endpoints
  import Http
  import Paginate
  import Resolve

  // ---------------------------------------------------------------- allowDestructive

  datatype Denial = DestructiveDisabled | ConfirmationRequired

  datatype Guard = Allowed | Denied(reason: Denial)

  /** allowDestructive: a dry run passes; otherwise ALLOW_DESTRUCTIVE must be "true" and confirm "YES". */
  function AllowDestructive(env: Http.Env, confirm: Option<string>, dryRun: Option<bool>): (g: Guard)
    ensures g.Allowed? <==> dryRun == Some(true) || (Http.EnvVar(env, "ALLOW_DESTRUCTIVE") == "true" && confirm == Some("YES"))
    ensures g == Denied(DestructiveDisabled) <==> dryRun != Some(true) && Http.EnvVar(env, "ALLOW_DESTRUCTIVE") != "true"
    ensures g == Denied(ConfirmationRequired) <==>
      dryRun != Some(true) && Http.EnvVar(env, "ALLOW_DESTRUCTIVE") == "true" && confirm != Some("YES")
  {
    if dryRun == Some(true) then Allowed
    else if Http.EnvVar(env, "ALLOW_DESTRUCTIVE") != "true" then Denied(DestructiveDisabled)
    else if confirm != Some("YES") then Denied(ConfirmationRequired)
    else Allowed
  }

  // ---------------------------------------------------------------- resolveOrgId, tokenSource

  /** `orgId ?? process.env.ORG_ID` */
  function ResolveOrgId(orgId: Json, env: Http.Env): (r: Json)
    ensures !IsNullish(orgId) ==> r == orgId
    ensures IsNullish(orgId) && "ORG_ID" in env ==> r == Str(env["ORG_ID"])
    ensures IsNullish(r) <==> IsNullish(orgId) && "ORG_ID" !in env
  {
    Coalesce(orgId, if "ORG_ID" in env then Str(env["ORG_ID"]) else Undefined)
  }

  datatype TokenInfo = TokenInfo(hasToken: bool, source: Option<string>)

  /** tokenSource: the first of BEARER_TOKEN, API_TOKEN, ACTION1_TOKEN that is set. */
  function TokenSource(env: Http.Env): (t: TokenInfo)
    ensures t.hasToken <==> t.source.Some?
    ensures t.source.Some? ==> t.source.value in Http.TokenVars && Http.EnvVar(env, t.source.value) != ""
    ensures t.source == Some("API_TOKEN") ==> Http.EnvVar(env, "BEARER_TOKEN") == ""
    ensures t.source == Some("ACTION1_TOKEN") ==> Http.EnvVar(env, "BEARER_TOKEN") == "" && Http.EnvVar(env, "API_TOKEN") == ""
    ensures t.source.None? <==> forall k :: k in Http.TokenVars ==> Http.EnvVar(env, k) == ""
  {
    if Http.EnvVar(env, "BEARER_TOKEN") != "" then TokenInfo(true, Some("BEARER_TOKEN"))
    else if Http.EnvVar(env, "API_TOKEN") != "" then TokenInfo(true, Some("API_TOKEN"))
    else if Http.EnvVar(env, "ACTION1_TOKEN") != "" then TokenInfo(true, Some("ACTION1_TOKEN"))
    else TokenInfo(false, None)
  }

  /** The token the diagnostics name is the one requests are authorised with. */
  lemma TokenSourceIsBearerToken(env: Http.Env)
    ensures TokenSource(env).hasToken <==> Http.BearerToken(env).Some?
    ensures TokenSource(env).hasToken ==> Http.EnvVar(env, TokenSource(env).source.value) == Http.BearerToken(env).value
  {
    var n0 := Http.TokenVars;
    var n1 := n0[1..];
    var n2 := n1[1..];
    assert n0[0] == "BEARER_TOKEN" && n1[0] == "API_TOKEN" && n2[0] == "ACTION1_TOKEN";
    assert Http.FirstSet(env, n2[1..]) == None;
    assert Http.FirstSet(env, n2) == if Http.EnvVar(env, "ACTION1_TOKEN") != "" then Some(Http.EnvVar(env, "ACTION1_TOKEN")) else None;
    assert Http.FirstSet(env, n1) == if Http.EnvVar(env, "API_TOKEN") != "" then Some(Http.EnvVar(env, "API_TOKEN")) else Http.FirstSet(env, n2);
    assert Http.BearerToken(env) == if Http.EnvVar(env, "BEARER_TOKEN") != "" then Some(Http.EnvVar(env, "BEARER_TOKEN")) else Http.FirstSet(env, n1);
  }

  // ---------------------------------------------------------------- pick

  /** The value under the first key whose value is neither null nor undefined; undefined when there is none. */
  function FirstPresent(obj: Json, keys: seq<string>): Json
    decreases |keys|
  {
    if |keys| == 0 then Undefined
    else if !IsNullish(Get(obj, keys[0])) then Get(obj, keys[0])
    else FirstPresent(obj, keys[1..])
  }

  /** FirstPresent is the value under the first key that has one, and undefined only when no key has one. */
  lemma {:induction false} FirstPresentIsFirst(obj: Json, keys: seq<string>)
    ensures IsNullish(FirstPresent(obj, keys)) <==> forall i :: 0 <= i < |keys| ==> IsNullish(Get(obj, keys[i]))
    ensures IsNullish(FirstPresent(obj, keys)) ==> FirstPresent(obj, keys) == Undefined
    ensures !IsNullish(FirstPresent(obj, keys)) ==>
      exists j :: 0 <= j < |keys| && FirstPresent(obj, keys) == Get(obj, keys[j]) &&
        forall i :: 0 <= i < j ==> IsNullish(Get(obj, keys[i]))
    decreases |keys|
  {
    if |keys| > 0 && IsNullish(Get(obj, keys[0])) {
      FirstPresentIsFirst(obj, keys[1..]);
      forall i | 0 < i < |keys|
        ensures keys[i] == keys[1..][i - 1]
      {
      }
      if !IsNullish(FirstPresent(obj, keys)) {
        var j :| 0 <= j < |keys[1..]| && FirstPresent(obj, keys) == Get(obj, keys[1..][j]) &&
          forall i :: 0 <= i < j ==> IsNullish(Get(obj, keys[1..][i]));
        assert FirstPresent(obj, keys) == Get(obj, keys[j + 1]);
        assert forall i :: 0 <= i < j + 1 ==> IsNullish(Get(obj, keys[i]));
      }
    } else if |keys| > 0 {
      assert FirstPresent(obj, keys) == Get(obj, keys[0]);
    }
  }

  /** pick: reading a key of null or undefined throws; otherwise the first value present. */
  method Pick(obj: Json, keys: seq<string>) returns (r: Result<Json, Error>)
    ensures IsNullish(obj) && |keys| > 0 ==> r == Failure(NullProperty)
    ensures !(IsNullish(obj) && |keys| > 0) ==> r == Success(FirstPresent(obj, keys))
  {
    for i := 0 to |keys|
      invariant FirstPresent(obj, keys) == FirstPresent(obj, keys[i..])
      invariant i > 0 ==> !IsNullish(obj)
    {
      if IsNullish(obj) {
        return Failure(NullProperty);
      }
      var v := Get(obj, keys[i]);
      if !IsNullish(v) {
        return Success(v);
      }
      assert keys[i..][1..] == keys[i + 1..];
    }
    assert keys[|keys|..] == [];
    return Success(Undefined);
  }

  // ---------------------------------------------------------------- tool results

  datatype OpKind = ListOp | GetOp | CreateOp | UpdateOp | DeleteOp

  /** Why a tool answered with a message and made no further request. */
  datatype Refusal =
    | Guarded(reason: Denial)
    | NotSupported(resource: string, op: OpKind)
    | OrgIdMissing(name: string)
    | EndpointIdMissing(action: string)
    | UnknownAction(action: string)
    | NoTargets
    | NoRemovalStrategy(resource: string)

  /** A request a tool sends through hx, getWithRetry or postAction. */
  datatype Call = Call(httpMethod: Method, path: string, body: Option<string>)

  /** What a tool returns: a refusal message, a dry-run plan, the data it got, or the error it throws. */
  datatype Outcome =
    | Refused(refusal: Refusal)
    | Planned(plan: Json)
    | Returned(data: Json)
    | Threw(error: Error)

  datatype Handled = Handled(outcome: Outcome, calls: seq<Call>)

  /** What a request's reply makes of the tool's result. */
  function Answer(answer: Result<Json, Error>): Outcome {
    match answer
    case Success(data) => Returned(data)
    case Failure(e) => Threw(e)
  }

  /** `path.includes("{k}")` */
  predicate Names(path: string, k: string) {
    Contains(path, "{" + k + "}")
  }

  /** `if (path.includes("{k}")) params.k = v` */
  function SetIfNamed(params: map<string, Json>, path: string, k: string, v: Json): map<string, Json> {
    if Names(path, k) then params[k := v] else params
  }

  /** The text "{k}" occurs in the middle of pre + "{k}" + post. */
  lemma NamesIn(pre: string, k: string, post: string)
    ensures Names(pre + ("{" + k + "}") + post, k)
  {
    var s := pre + ("{" + k + "}") + post;
    assert s[|pre|..|pre| + |k| + 2] == "{" + k + "}";
    assert OccursAt(s, "{" + k + "}", |pre|);
    ContainsIff(s, "{" + k + "}");
  }

  /** Every placeholder a template holds occurs in it as "{k}". */
  lemma {:induction false} PlaceholderNamed(t: string, k: string)
    requires k in Placeholders(t)
    ensures Names(t, k)
    decreases |t|
  {
    match PlaceholderAt(t)
    case Some(k') =>
      if k' == k {
        assert IsPrefix("{" + k + "}", t);
      } else {
        var n := |k'| + 2;
        assert k in Placeholders(t[n..]);
        PlaceholderNamed(t[n..], k);
        ContainsDrop(t, "{" + k + "}", n);
      }
    case None =>
      PlaceholderNamed(t[1..], k);
      ContainsDrop(t, "{" + k + "}", 1);
  }

  /**
   * A template interpolates whenever every placeholder it holds is one of the names the
   * caller fills, and each of those the template names has a value.
   */
  lemma FilledNamesInterpolate(path: string, params: map<string, Json>, names: set<string>)
    requires forall k :: k in Placeholders(path) ==> k in names
    requires forall k :: k in names && Names(path, k) ==> !Param(params, k).Undefined?
    ensures Interpolate(path, params).Success?
  {
    InterpolateFailure(path, params);
    var m := FirstMissing(Placeholders(path), params);
    if m.Some? {
      PlaceholderNamed(path, m.value);
    }
  }

  // ---------------------------------------------------------------- get_resource

  /** get_resource's input; an absent orgId or endpointId is Undefined. */
  datatype GetInput = GetInput(resource: string, id: Json, orgId: Json, endpointId: Json)

  /**
   * The path params of get_resource: `id`, then orgId, endpointId (`endpointId ?? id`),
   * groupId and installType (both `id`) when the path names them; `fillDeployer` adds
   * deployerId (`id`) the same way.
   */
  function GetParams(path: string, input: GetInput, orgId: Json, fillDeployer: bool): map<string, Json> {
    var p0 := SetIfNamed(map["id" := input.id], path, "orgId", orgId);
    var p1 := SetIfNamed(p0, path, "endpointId", Coalesce(input.endpointId, input.id));
    var p2 := SetIfNamed(p1, path, "groupId", input.id);
    var p3 := SetIfNamed(p2, path, "installType", input.id);
    if fillDeployer then SetIfNamed(p3, path, "deployerId", input.id) else p3
  }

  function GetWith(spec: Spec, env: Http.Env, input: GetInput, answer: Result<Json, Error>, fillDeployer: bool): Handled {
    var res := ResourceNamed(spec, input.resource);
    if res.None? || res.value.get.None? then Handled(Refused(NotSupported(input.resource, GetOp)), [])
    else
      var path := res.value.get.value.path;
      var orgId := ResolveOrgId(input.orgId, env);
      if Names(path, "orgId") && IsNullish(orgId) then Handled(Refused(OrgIdMissing(input.resource)), [])
      else
        match Interpolate(path, GetParams(path, input, orgId, fillDeployer))
        case Failure(e) => Handled(Threw(e), [])
        case Success(full) => Handled(Answer(answer), [Call(GET, full, None)])
  }

  /**
   * get_resource with `{deployerId}` filled from `id` like the other id placeholders: at
   * most one GET, whose reply is the result; none when the resource has no get operation
   * or the path needs an organisation that neither the input nor ORG_ID gives. The GET
   * goes to the get template filled with GetParams, and is sent exactly when that template
   * interpolates; otherwise the interpolation's error is thrown.
   */
  function GetResource(spec: Spec, env: Http.Env, input: GetInput, answer: Result<Json, Error>): (h: Handled)
    ensures |h.calls| <= 1
    ensures h.calls != [] ==> h.calls[0].httpMethod == GET && h.calls[0].body.None? && h.outcome == Answer(answer)
    ensures ResourceNamed(spec, input.resource).None? || ResourceNamed(spec, input.resource).value.get.None? ==>
      h == Handled(Refused(NotSupported(input.resource, GetOp)), [])
    ensures h.outcome.Refused? ==> h.calls == []
    ensures var res := ResourceNamed(spec, input.resource);
      res.Some? && res.value.get.Some? ==>
        var path := res.value.get.value.path;
        var orgId := ResolveOrgId(input.orgId, env);
        var full := Interpolate(path, GetParams(path, input, orgId, true));
        (Names(path, "orgId") && IsNullish(orgId) ==> h == Handled(Refused(OrgIdMissing(input.resource)), [])) &&
        (h.calls != [] <==> !(Names(path, "orgId") && IsNullish(orgId)) && full.Success?) &&
        (h.calls != [] ==> h.calls[0].path == full.value) &&
        (!(Names(path, "orgId") && IsNullish(orgId)) && full.Failure? ==> h == Handled(Threw(full.error), []))
  {
    GetWith(spec, env, input, answer, true)
  }

  /** get_resource as written, which never fills `{deployerId}`; it agrees with GetResource on every other path. */
  function GetResourceAsWritten(spec: Spec, env: Http.Env, input: GetInput, answer: Result<Json, Error>): (h: Handled)
    ensures var res := ResourceNamed(spec, input.resource);
      res.Some? && res.value.get.Some? && !Names(res.value.get.value.path, "deployerId") ==>
        h == GetResource(spec, env, input, answer)
    ensures |h.calls| <= 1
  {
    GetWith(spec, env, input, answer, false)
  }

  /** Which path params get_resource fills, and with what. */
  lemma GetParamsFill(path: string, input: GetInput, orgId: Json, fillDeployer: bool)
    ensures var p := GetParams(path, input, orgId, fillDeployer);
      Param(p, "id") == input.id &&
      Param(p, "orgId") == (if Names(path, "orgId") then orgId else Undefined) &&
      Param(p, "endpointId") == (if Names(path, "endpointId") then Coalesce(input.endpointId, input.id) else Undefined) &&
      Param(p, "groupId") == (if Names(path, "groupId") then input.id else Undefined) &&
      Param(p, "installType") == (if Names(path, "installType") then input.id else Undefined) &&
      Param(p, "deployerId") == (if fillDeployer && Names(path, "deployerId") then input.id else Undefined)
  {
  }

  /** The id placeholders get_resource and delete_resource fill. */
  const IdNames: set<string> := {"orgId", "endpointId", "groupId", "installType", "deployerId"}

  /**
   * A get path whose placeholders are all id placeholders always reaches the server once
   * the organisation is known: the GET is sent and its reply is the result.
   */
  lemma GetReachesServer(spec: Spec, env: Http.Env, input: GetInput, answer: Result<Json, Error>)
    requires input.resource in spec.resources && spec.resources[input.resource].get.Some?
    requires forall k :: k in Placeholders(spec.resources[input.resource].get.value.path) ==> k in IdNames
    requires !input.id.Undefined?
    requires !IsNullish(ResolveOrgId(input.orgId, env))
    ensures |GetResource(spec, env, input, answer).calls| == 1
    ensures GetResource(spec, env, input, answer).outcome == Answer(answer)
  {
    var path := spec.resources[input.resource].get.value.path;
    var orgId := ResolveOrgId(input.orgId, env);
    GetParamsFill(path, input, orgId, true);
    FilledNamesInterpolate(path, GetParams(path, input, orgId, true), IdNames);
  }

  /** "{k}" */
  function Slot(k: string): string {
    "{" + k + "}"
  }

  /** A name that `\{(\w+)\}` captures. */
  predicate IsWord(k: string) {
    |k| >= 1 && forall j :: 0 <= j < |k| ==> IsWordChar(k[j])
  }

  /** A path of two literal segments, each followed by a placeholder, names both placeholders. */
  lemma TwoSlotNames(lit1: string, k1: string, lit2: string, k2: string)
    ensures Names(lit1 + Slot(k1) + lit2 + Slot(k2), k1) && Names(lit1 + Slot(k1) + lit2 + Slot(k2), k2)
  {
    var s := lit1 + Slot(k1) + lit2 + Slot(k2);
    NamesIn(lit1, k1, lit2 + Slot(k2));
    assert lit1 + ("{" + k1 + "}") + (lit2 + Slot(k2)) == s;
    NamesIn(lit1 + Slot(k1) + lit2, k2, "");
    assert lit1 + Slot(k1) + lit2 + ("{" + k2 + "}") + "" == s;
  }

  /**
   * Such a path, once its first placeholder has a value, throws for the second exactly
   * when that one has none.
   */
  lemma TwoSlotInterpolate(lit1: string, k1: string, lit2: string, k2: string, p: map<string, Json>)
    requires '{' !in lit1 && '{' !in lit2 && IsWord(k1) && IsWord(k2)
    requires !Param(p, k1).Undefined?
    ensures Param(p, k2).Undefined? ==> Interpolate(lit1 + Slot(k1) + lit2 + Slot(k2), p) == Failure(MissingPathParam(k2))
    ensures !Param(p, k2).Undefined? ==> Interpolate(lit1 + Slot(k1) + lit2 + Slot(k2), p).Success?
  {
    InterpolatePlaceholderPrefix(k2, "", p);
    assert "{" + k2 + "}" + "" == Slot(k2);
    InterpolateLiteralPrefix(lit2, Slot(k2), p);
    InterpolatePlaceholderPrefix(k1, lit2 + Slot(k2), p);
    InterpolateLiteralPrefix(lit1, Slot(k1) + (lit2 + Slot(k2)), p);
    assert lit1 + (Slot(k1) + (lit2 + Slot(k2))) == lit1 + Slot(k1) + lit2 + Slot(k2);
  }

  /** The deployers' item path of the API description. */
  const DeployerPath: string := "/endpoints/deployers/" + Slot("orgId") + "/" + Slot("deployerId")

  /** DeployerPath names orgId and deployerId, and throws for deployerId exactly when it has no value. */
  lemma DeployerPathInterpolates(p: map<string, Json>)
    requires !Param(p, "orgId").Undefined?
    ensures Param(p, "deployerId").Undefined? ==> Interpolate(DeployerPath, p) == Failure(MissingPathParam("deployerId"))
    ensures !Param(p, "deployerId").Undefined? ==> Interpolate(DeployerPath, p).Success?
  {
    assert IsWord("orgId") && IsWord("deployerId");
    TwoSlotInterpolate("/endpoints/deployers/", "orgId", "/", "deployerId", p);
  }

  lemma DeployerPathNames()
    ensures Names(DeployerPath, "orgId") && Names(DeployerPath, "deployerId")
  {
    TwoSlotNames("/endpoints/deployers/", "orgId", "/", "deployerId");
  }

  /** As written, get_resource on the deployers throws for the missing deployerId and sends nothing. */
  lemma DeployerGetAsWrittenThrows(spec: Spec, env: Http.Env, input: GetInput, answer: Result<Json, Error>)
    requires input.resource in spec.resources && spec.resources[input.resource].get == Op(DeployerPath, GET)
    requires !IsNullish(ResolveOrgId(input.orgId, env))
    ensures GetResourceAsWritten(spec, env, input, answer) == Handled(Threw(MissingPathParam("deployerId")), [])
  {
    var orgId := ResolveOrgId(input.orgId, env);
    DeployerPathNames();
    GetParamsFill(DeployerPath, input, orgId, false);
    DeployerPathInterpolates(GetParams(DeployerPath, input, orgId, false));
  }

  /** With deployerId filled, the same call sends its GET and returns the reply. */
  lemma DeployerGetReachesServer(spec: Spec, env: Http.Env, input: GetInput, answer: Result<Json, Error>)
    requires input.resource in spec.resources && spec.resources[input.resource].get == Op(DeployerPath, GET)
    requires !IsNullish(ResolveOrgId(input.orgId, env)) && !input.id.Undefined?
    ensures |GetResource(spec, env, input, answer).calls| == 1
    ensures GetResource(spec, env, input, answer).outcome == Answer(answer)
  {
    var orgId := ResolveOrgId(input.orgId, env);
    DeployerPathNames();
    GetParamsFill(DeployerPath, input, orgId, true);
    DeployerPathInterpolates(GetParams(DeployerPath, input, orgId, true));
  }

  // ---------------------------------------------------------------- create_resource

  /** create_resource's input; `body` is the record the caller passed. */
  datatype CreateInput = CreateInput(resource: string, body: Json, orgId: Json, dryRun: Option<bool>, confirm: Option<string>)

  /** `{ path, body, dry_run: true }` */
  function WritePlan(path: string, body: Json): (plan: Json)
    ensures Get(plan, "path") == Str(path) && Get(plan, "body") == body && Get(plan, "dry_run") == Bool(true)
  {
    var fields := [("path", Str(path)), ("body", body), ("dry_run", Bool(true))];
    assert fields[1..] == [("body", body), ("dry_run", Bool(true))];
    assert fields[1..][1..] == [("dry_run", Bool(true))];
    assert Lookup(fields, "body") == Lookup(fields[1..], "body") == body;
    assert Lookup(fields, "dry_run") == Lookup(fields[1..], "dry_run") == Lookup(fields[1..][1..], "dry_run");
    Obj(fields)
  }

  /**
   * create_resource: the gate first; then the create operation, `{orgId}` filled when the
   * path names it; a dry run reports the path and body, anything else POSTs the body as JSON.
   * A create path that does not name `{orgId}` is used as it stands, without interpolation.
   */
  function CreateResource(spec: Spec, env: Http.Env, input: CreateInput, answer: Result<Json, Error>): (h: Handled)
    requires input.body.Obj?
    ensures AllowDestructive(env, input.confirm, input.dryRun).Denied? ==>
      h == Handled(Refused(Guarded(AllowDestructive(env, input.confirm, input.dryRun).reason)), [])
    ensures input.dryRun == Some(true) ==> h.calls == [] && !h.outcome.Returned?
    ensures h.outcome.Planned? ==> Get(h.outcome.plan, "body") == input.body && Get(h.outcome.plan, "dry_run") == Bool(true)
    ensures |h.calls| <= 1
    ensures h.calls != [] ==>
      h.calls[0].httpMethod == POST && h.calls[0].body == Some(Stringify(input.body)) && h.outcome == Answer(answer)
    ensures var res := ResourceNamed(spec, input.resource);
      AllowDestructive(env, input.confirm, input.dryRun).Allowed? && (res.None? || res.value.create.None?) ==>
        h == Handled(Refused(NotSupported(input.resource, CreateOp)), [])
    ensures var res := ResourceNamed(spec, input.resource);
      AllowDestructive(env, input.confirm, input.dryRun).Allowed? && res.Some? && res.value.create.Some? ==>
        var template := res.value.create.value.path;
        var orgId := ResolveOrgId(input.orgId, env);
        var orgMissing := Names(template, "orgId") && IsNullish(orgId);
        var path := if Names(template, "orgId") then Interpolate(template, map["orgId" := orgId]) else Success(template);
        (orgMissing ==> h == Handled(Refused(OrgIdMissing(input.resource)), [])) &&
        (h.calls != [] <==> input.dryRun != Some(true) && !orgMissing && path.Success?) &&
        (h.outcome.Planned? <==> input.dryRun == Some(true) && !orgMissing && path.Success?) &&
        (h.calls != [] ==> h.calls[0].path == path.value) &&
        (h.outcome.Planned? ==> h.outcome.plan == WritePlan(path.value, input.body)) &&
        (!orgMissing && path.Failure? ==> h == Handled(Threw(path.error), []))
  {
    match AllowDestructive(env, input.confirm, input.dryRun)
    case Denied(r) => Handled(Refused(Guarded(r)), [])
    case Allowed =>
      var res := ResourceNamed(spec, input.resource);
      if res.None? || res.value.create.None? then Handled(Refused(NotSupported(input.resource, CreateOp)), [])
      else
        var template := res.value.create.value.path;
        var orgId := ResolveOrgId(input.orgId, env);
        if Names(template, "orgId") && IsNullish(orgId) then Handled(Refused(OrgIdMissing(input.resource)), [])
        else
          var path := if Names(template, "orgId") then Interpolate(template, map["orgId" := orgId]) else Success(template);
          match path
          case Failure(e) => Handled(Threw(e), [])
          case Success(p) =>
            if input.dryRun == Some(true) then Handled(Planned(WritePlan(p, input.body)), [])
            else Handled(Answer(answer), [Call(POST, p, Some(Stringify(input.body)))])
  }

  /**
   * A dry run plans exactly the request the confirmed call sends: it has a plan exactly
   * when the real call sends a request, and the plan's path is that request's path.
   */
  lemma CreateDryRunMatchesCall(spec: Spec, env: Http.Env, input: CreateInput, answer: Result<Json, Error>)
    requires input.body.Obj?
    requires Http.EnvVar(env, "ALLOW_DESTRUCTIVE") == "true" && input.confirm == Some("YES")
    ensures var plan := CreateResource(spec, env, input.(dryRun := Some(true)), answer);
      var confirmed := CreateResource(spec, env, input.(dryRun := None), answer);
      (plan.outcome.Planned? <==> confirmed.calls != []) &&
      (confirmed.calls != [] ==> plan.outcome.plan == WritePlan(confirmed.calls[0].path, input.body)) &&
      (!plan.outcome.Planned? ==> plan == confirmed)
  {
  }

  /**
   * create_resource fills `{orgId}` and nothing else: with an organisation, a path naming
   * `{orgId}` interpolates exactly when every placeholder it holds is `{orgId}`.
   */
  lemma CreateFillsOnlyOrg(template: string, orgId: Json)
    requires !IsNullish(orgId)
    ensures Interpolate(template, map["orgId" := orgId]).Success? <==>
      forall k :: k in Placeholders(template) ==> k == "orgId"
  {
    var names := Placeholders(template);
    var m := map["orgId" := orgId];
    InterpolateFailure(template, m);
    if forall k :: k in names ==> k == "orgId" {
      assert forall j :: 0 <= j < |names| ==> !Param(m, names[j]).Undefined?;
    } else {
      var k :| k in names && k != "orgId";
      var j :| 0 <= j < |names| && names[j] == k;
      assert Param(m, names[j]).Undefined?;
    }
  }

  // ---------------------------------------------------------------- update_resource

  datatype UpdateInput = UpdateInput(resource: string, id: Json, body: Json, orgId: Json, endpointId: Json,
                                     dryRun: Option<bool>, confirm: Option<string>)

  /** The path params of update_resource: orgId, endpointId (`endpointId ?? id`) and groupId (`id`) when named. */
  function UpdateParams(path: string, input: UpdateInput, orgId: Json): map<string, Json> {
    var p0 := SetIfNamed(map[], path, "orgId", orgId);
    var p1 := SetIfNamed(p0, path, "endpointId", Coalesce(input.endpointId, input.id));
    SetIfNamed(p1, path, "groupId", input.id)
  }

  /** Which path params update_resource fills, and with what; it sets no other. */
  lemma UpdateParamsFill(path: string, input: UpdateInput, orgId: Json)
    ensures var p := UpdateParams(path, input, orgId);
      Param(p, "orgId") == (if Names(path, "orgId") then orgId else Undefined) &&
      Param(p, "endpointId") == (if Names(path, "endpointId") then Coalesce(input.endpointId, input.id) else Undefined) &&
      Param(p, "groupId") == (if Names(path, "groupId") then input.id else Undefined) &&
      forall k :: k != "orgId" && k != "endpointId" && k != "groupId" ==> Param(p, k) == Undefined
  {
  }

  /**
   * update_resource: the gate, the update operation, the path params, then a dry-run plan
   * or a PATCH of the body as JSON, to the update template filled with UpdateParams.
   */
  function UpdateResource(spec: Spec, env: Http.Env, input: UpdateInput, answer: Result<Json, Error>): (h: Handled)
    requires input.body.Obj?
    ensures AllowDestructive(env, input.confirm, input.dryRun).Denied? ==>
      h == Handled(Refused(Guarded(AllowDestructive(env, input.confirm, input.dryRun).reason)), [])
    ensures input.dryRun == Some(true) ==> h.calls == [] && !h.outcome.Returned?
    ensures h.outcome.Planned? ==> Get(h.outcome.plan, "body") == input.body && Get(h.outcome.plan, "dry_run") == Bool(true)
    ensures |h.calls| <= 1
    ensures h.calls != [] ==>
      h.calls[0].httpMethod == PATCH && h.calls[0].body == Some(Stringify(input.body)) && h.outcome == Answer(answer)
    ensures var res := ResourceNamed(spec, input.resource);
      AllowDestructive(env, input.confirm, input.dryRun).Allowed? && (res.None? || res.value.update.None?) ==>
        h == Handled(Refused(NotSupported(input.resource, UpdateOp)), [])
    ensures var res := ResourceNamed(spec, input.resource);
      AllowDestructive(env, input.confirm, input.dryRun).Allowed? && res.Some? && res.value.update.Some? ==>
        var template := res.value.update.value.path;
        var orgId := ResolveOrgId(input.orgId, env);
        var orgMissing := Names(template, "orgId") && IsNullish(orgId);
        var path := Interpolate(template, UpdateParams(template, input, orgId));
        (orgMissing ==> h == Handled(Refused(OrgIdMissing(input.resource)), [])) &&
        (h.calls != [] <==> input.dryRun != Some(true) && !orgMissing && path.Success?) &&
        (h.outcome.Planned? <==> input.dryRun == Some(true) && !orgMissing && path.Success?) &&
        (h.calls != [] ==> h.calls[0].path == path.value) &&
        (h.outcome.Planned? ==> h.outcome.plan == WritePlan(path.value, input.body)) &&
        (!orgMissing && path.Failure? ==> h == Handled(Threw(path.error), []))
  {
    match AllowDestructive(env, input.confirm, input.dryRun)
    case Denied(r) => Handled(Refused(Guarded(r)), [])
    case Allowed =>
      var res := ResourceNamed(spec, input.resource);
      if res.None? || res.value.update.None? then Handled(Refused(NotSupported(input.resource, UpdateOp)), [])
      else
        var template := res.value.update.value.path;
        var orgId := ResolveOrgId(input.orgId, env);
        if Names(template, "orgId") && IsNullish(orgId) then Handled(Refused(OrgIdMissing(input.resource)), [])
        else
          match Interpolate(template, UpdateParams(template, input, orgId))
          case Failure(e) => Handled(Threw(e), [])
          case Success(p) =>
            if input.dryRun == Some(true) then Handled(Planned(WritePlan(p, input.body)), [])
            else Handled(Answer(answer), [Call(PATCH, p, Some(Stringify(input.body)))])
  }

  /** update_resource's dry run plans exactly the PATCH the confirmed call sends. */
  lemma UpdateDryRunMatchesCall(spec: Spec, env: Http.Env, input: UpdateInput, answer: Result<Json, Error>)
    requires input.body.Obj?
    requires Http.EnvVar(env, "ALLOW_DESTRUCTIVE") == "true" && input.confirm == Some("YES")
    ensures var plan := UpdateResource(spec, env, input.(dryRun := Some(true)), answer);
      var confirmed := UpdateResource(spec, env, input.(dryRun := None), answer);
      (plan.outcome.Planned? <==> confirmed.calls != []) &&
      (confirmed.calls != [] ==> plan.outcome.plan == WritePlan(confirmed.calls[0].path, input.body)) &&
      (!plan.outcome.Planned? ==> plan == confirmed)
  {
  }

  // ---------------------------------------------------------------- delete_resource

  datatype DeleteInput = DeleteInput(resource: string, id: Json, orgId: Json, dryRun: Option<bool>, confirm: Option<string>)

  /** `data ?? { deleted: true }` */
  function DeletedOr(data: Json): Json {
    Coalesce(data, Obj([("deleted", Bool(true))]))
  }

  /**
   * The path params of a DELETE: orgId, endpointId and groupId (both the target id) when
   * named; `fillDeployer` adds deployerId the same way.
   */
  function DeleteParams(path: string, id: Json, orgId: Json, fillDeployer: bool): map<string, Json> {
    var p0 := SetIfNamed(map[], path, "orgId", orgId);
    var p1 := SetIfNamed(p0, path, "endpointId", id);
    var p2 := SetIfNamed(p1, path, "groupId", id);
    if fillDeployer then SetIfNamed(p2, path, "deployerId", id) else p2
  }

  function DeleteWith(spec: Spec, env: Http.Env, input: DeleteInput, answer: Result<Json, Error>, fillDeployer: bool): Handled {
    match AllowDestructive(env, input.confirm, input.dryRun)
    case Denied(r) => Handled(Refused(Guarded(r)), [])
    case Allowed =>
      var res := ResourceNamed(spec, input.resource);
      if res.None? || res.value.delete.None? then Handled(Refused(NotSupported(input.resource, DeleteOp)), [])
      else
        var template := res.value.delete.value.path;
        var orgId := ResolveOrgId(input.orgId, env);
        if Names(template, "orgId") && IsNullish(orgId) then Handled(Refused(OrgIdMissing(input.resource)), [])
        else
          match Interpolate(template, DeleteParams(template, input.id, orgId, fillDeployer))
          case Failure(e) => Handled(Threw(e), [])
          case Success(p) =>
            if input.dryRun == Some(true) then Handled(Planned(Obj([("path", Str(p)), ("dry_run", Bool(true))])), [])
            else
              var o := match answer
                case Success(data) => Returned(DeletedOr(data))
                case Failure(e) => Threw(e);
              Handled(o, [Call(DELETE, p, None)])
  }

  /**
   * Which path params delete_resource fills, and with what: the target id itself for
   * endpointId (never an `endpointId` input, unlike get and update); it sets no other.
   */
  lemma DeleteParamsFill(path: string, id: Json, orgId: Json, fillDeployer: bool)
    ensures var p := DeleteParams(path, id, orgId, fillDeployer);
      Param(p, "orgId") == (if Names(path, "orgId") then orgId else Undefined) &&
      Param(p, "endpointId") == (if Names(path, "endpointId") then id else Undefined) &&
      Param(p, "groupId") == (if Names(path, "groupId") then id else Undefined) &&
      Param(p, "deployerId") == (if fillDeployer && Names(path, "deployerId") then id else Undefined) &&
      forall k :: k != "orgId" && k != "endpointId" && k != "groupId" && k != "deployerId" ==> Param(p, k) == Undefined
  {
  }

  /**
   * delete_resource with `{deployerId}` filled from `id`: the gate first, at most one
   * DELETE without a body, none on a dry run; a reply of null or undefined reads as
   * `{deleted: true}`. The DELETE, or the dry-run plan, names the delete template filled
   * with DeleteParams.
   */
  function DeleteResource(spec: Spec, env: Http.Env, input: DeleteInput, answer: Result<Json, Error>): (h: Handled)
    ensures AllowDestructive(env, input.confirm, input.dryRun).Denied? ==>
      h == Handled(Refused(Guarded(AllowDestructive(env, input.confirm, input.dryRun).reason)), [])
    ensures input.dryRun == Some(true) ==> h.calls == [] && !h.outcome.Returned?
    ensures |h.calls| <= 1
    ensures h.calls != [] ==> h.calls[0].httpMethod == DELETE && h.calls[0].body.None?
    ensures h.calls != [] && answer.Success? ==> h.outcome == Returned(DeletedOr(answer.value)) && !IsNullish(h.outcome.data)
    ensures h.calls != [] && answer.Failure? ==> h.outcome == Threw(answer.error)
    ensures var res := ResourceNamed(spec, input.resource);
      AllowDestructive(env, input.confirm, input.dryRun).Allowed? && (res.None? || res.value.delete.None?) ==>
        h == Handled(Refused(NotSupported(input.resource, DeleteOp)), [])
    ensures var res := ResourceNamed(spec, input.resource);
      AllowDestructive(env, input.confirm, input.dryRun).Allowed? && res.Some? && res.value.delete.Some? ==>
        var template := res.value.delete.value.path;
        var orgId := ResolveOrgId(input.orgId, env);
        var orgMissing := Names(template, "orgId") && IsNullish(orgId);
        var path := Interpolate(template, DeleteParams(template, input.id, orgId, true));
        (orgMissing ==> h == Handled(Refused(OrgIdMissing(input.resource)), [])) &&
        (h.calls != [] <==> input.dryRun != Some(true) && !orgMissing && path.Success?) &&
        (h.outcome.Planned? <==> input.dryRun == Some(true) && !orgMissing && path.Success?) &&
        (h.calls != [] ==> h.calls[0].path == path.value) &&
        (h.outcome.Planned? ==> h.outcome.plan == Obj([("path", Str(path.value)), ("dry_run", Bool(true))])) &&
        (!orgMissing && path.Failure? ==> h == Handled(Threw(path.error), []))
  {
    DeleteWith(spec, env, input, answer, true)
  }

  /** delete_resource as written, which never fills `{deployerId}`; it agrees with DeleteResource on every other path. */
  function DeleteResourceAsWritten(spec: Spec, env: Http.Env, input: DeleteInput, answer: Result<Json, Error>): (h: Handled)
    ensures var res := ResourceNamed(spec, input.resource);
      res.Some? && res.value.delete.Some? && !Names(res.value.delete.value.path, "deployerId") ==>
        h == DeleteResource(spec, env, input, answer)
    ensures |h.calls| <= 1
  {
    DeleteWith(spec, env, input, answer, false)
  }

  /** As written, a confirmed delete_resource on the deployers throws for the missing deployerId and sends nothing. */
  lemma DeployerDeleteAsWrittenThrows(spec: Spec, env: Http.Env, input: DeleteInput, answer: Result<Json, Error>)
    requires input.resource in spec.resources && spec.resources[input.resource].delete == Op(DeployerPath, DELETE)
    requires !IsNullish(ResolveOrgId(input.orgId, env))
    requires Http.EnvVar(env, "ALLOW_DESTRUCTIVE") == "true" && input.confirm == Some("YES")
    ensures DeleteResourceAsWritten(spec, env, input, answer) == Handled(Threw(MissingPathParam("deployerId")), [])
  {
    var orgId := ResolveOrgId(input.orgId, env);
    DeployerPathNames();
    DeployerPathInterpolates(DeleteParams(DeployerPath, input.id, orgId, false));
  }

  /** With deployerId filled, the confirmed call sends its DELETE. */
  lemma DeployerDeleteReachesServer(spec: Spec, env: Http.Env, input: DeleteInput, answer: Result<Json, Error>)
    requires input.resource in spec.resources && spec.resources[input.resource].delete == Op(DeployerPath, DELETE)
    requires !IsNullish(ResolveOrgId(input.orgId, env)) && !input.id.Undefined?
    requires Http.EnvVar(env, "ALLOW_DESTRUCTIVE") == "true" && input.confirm == Some("YES") && input.dryRun != Some(true)
    ensures |DeleteResource(spec, env, input, answer).calls| == 1
  {
    var orgId := ResolveOrgId(input.orgId, env);
    DeployerPathNames();
    DeployerPathInterpolates(DeleteParams(DeployerPath, input.id, orgId, true));
  }

  // ---------------------------------------------------------------- call_action

  /** call_action's input; an absent body is Undefined. */
  datatype ActionInput = ActionInput(action: string, body: Json, orgId: Json, endpointId: Json,
                                     dryRun: Option<bool>, confirm: Option<string>)

  /** The path params of call_action: orgId and endpointId, each only when the path names it. */
  function ActionParams(path: string, orgId: Json, endpointId: Json): map<string, Json> {
    SetIfNamed(SetIfNamed(map[], path, "orgId", orgId), path, "endpointId", endpointId)
  }

  /** Which path params call_action fills: the endpointId input as given, never the target of an `id`; no other. */
  lemma ActionParamsFill(path: string, orgId: Json, endpointId: Json)
    ensures var p := ActionParams(path, orgId, endpointId);
      Param(p, "orgId") == (if Names(path, "orgId") then orgId else Undefined) &&
      Param(p, "endpointId") == (if Names(path, "endpointId") then endpointId else Undefined) &&
      forall k :: k != "orgId" && k != "endpointId" ==> Param(p, k) == Undefined
  {
  }

  /**
   * call_action: the gate, the action, orgId and endpointId when the path names them
   * (endpointId is never defaulted), then a dry-run plan or a POST whose body is `body ?? {}`,
   * to the action's path filled with ActionParams.
   */
  function CallAction(spec: Spec, env: Http.Env, input: ActionInput, answer: Result<Json, Error>): (h: Handled)
    requires input.body.Undefined? || input.body.Obj?
    ensures AllowDestructive(env, input.confirm, input.dryRun).Denied? ==>
      h == Handled(Refused(Guarded(AllowDestructive(env, input.confirm, input.dryRun).reason)), [])
    ensures AllowDestructive(env, input.confirm, input.dryRun).Allowed? && ActionNamed(spec, input.action).None? ==>
      h == Handled(Refused(UnknownAction(input.action)), [])
    ensures input.dryRun == Some(true) ==> h.calls == [] && !h.outcome.Returned?
    ensures h.outcome.Planned? ==> Get(h.outcome.plan, "body") == Coalesce(input.body, Null)
    ensures |h.calls| <= 1
    ensures h.calls != [] ==>
      h.calls[0].httpMethod == POST && h.calls[0].body == Some(Stringify(Coalesce(input.body, Obj([])))) &&
      h.outcome == Answer(answer)
    ensures var a := ActionNamed(spec, input.action);
      AllowDestructive(env, input.confirm, input.dryRun).Allowed? && a.Some? ==>
        var template := a.value.path;
        var orgId := ResolveOrgId(input.orgId, env);
        var orgMissing := Names(template, "orgId") && IsNullish(orgId);
        var idMissing := Names(template, "endpointId") && IsNullish(input.endpointId);
        var path := Interpolate(template, ActionParams(template, orgId, input.endpointId));
        (orgMissing ==> h == Handled(Refused(OrgIdMissing(input.action)), [])) &&
        (!orgMissing && idMissing ==> h == Handled(Refused(EndpointIdMissing(input.action)), [])) &&
        (h.calls != [] <==> input.dryRun != Some(true) && !orgMissing && !idMissing && path.Success?) &&
        (h.outcome.Planned? <==> input.dryRun == Some(true) && !orgMissing && !idMissing && path.Success?) &&
        (h.calls != [] ==> h.calls[0].path == path.value) &&
        (h.outcome.Planned? ==> h.outcome.plan == WritePlan(path.value, Coalesce(input.body, Null))) &&
        (!orgMissing && !idMissing && path.Failure? ==> h == Handled(Threw(path.error), []))
  {
    match AllowDestructive(env, input.confirm, input.dryRun)
    case Denied(r) => Handled(Refused(Guarded(r)), [])
    case Allowed =>
      match ActionNamed(spec, input.action)
      case None => Handled(Refused(UnknownAction(input.action)), [])
      case Some(action) =>
        var template := action.path;
        var orgId := ResolveOrgId(input.orgId, env);
        if Names(template, "orgId") && IsNullish(orgId) then Handled(Refused(OrgIdMissing(input.action)), [])
        else if Names(template, "endpointId") && IsNullish(input.endpointId) then
          Handled(Refused(EndpointIdMissing(input.action)), [])
        else
          match Interpolate(template, ActionParams(template, orgId, input.endpointId))
          case Failure(e) => Handled(Threw(e), [])
          case Success(p) =>
            if input.dryRun == Some(true) then
              Handled(Planned(WritePlan(p, Coalesce(input.body, Null))), [])
            else Handled(Answer(answer), [Call(POST, p, Http.PostBody(Coalesce(input.body, Obj([]))))])
  }

  /**
   * An action path whose placeholders are orgId and endpointId is always sent once both
   * are known: the refusals are the only way a confirmed action ends without its POST.
   */
  lemma ActionReachesServer(spec: Spec, env: Http.Env, input: ActionInput, answer: Result<Json, Error>)
    requires input.body.Undefined? || input.body.Obj?
    requires Http.EnvVar(env, "ALLOW_DESTRUCTIVE") == "true" && input.confirm == Some("YES") && input.dryRun != Some(true)
    requires ActionNamed(spec, input.action).Some?
    requires forall k :: k in Placeholders(ActionNamed(spec, input.action).value.path) ==> k in {"orgId", "endpointId"}
    ensures var h := CallAction(spec, env, input, answer);
      h.outcome.Refused? || (|h.calls| == 1 && h.outcome == Answer(answer))
  {
    var template := ActionNamed(spec, input.action).value.path;
    var orgId := ResolveOrgId(input.orgId, env);
    if !(Names(template, "orgId") && IsNullish(orgId)) && !(Names(template, "endpointId") && IsNullish(input.endpointId)) {
      FilledNamesInterpolate(template, ActionParams(template, orgId, input.endpointId), {"orgId", "endpointId"});
    }
  }

  // ---------------------------------------------------------------- list_resources

  /** list_resources' input; an absent orgId is Undefined. */
  datatype ListInput = ListInput(resource: string, filters: Option<seq<(string, Json)>>, page: Option<int>,
                                 perPage: Option<int>, cursor: Option<string>, orgId: Json)

  /** `input.cursor` is truthy. */
  predicate CursorGiven(input: ListInput) {
    input.cursor.Some? && input.cursor.value != ""
  }

  /** `input.page != null || input.cursor`: the caller asked for one page. */
  predicate FirstOnly(input: ListInput) {
    input.page.Some? || CursorGiven(input)
  }

  /** The key the caller's cursor is written to: `cursorParam || "cursor"`. */
  function CursorKey(p: Pagination): string {
    OrDefault(p.cursorParam, "cursor")
  }

  /** The params list_resources pages with: the filters, then page/per_page or the cursor. */
  function ListParams(p: Pagination, input: ListInput): seq<(string, Json)> {
    var filters := input.filters.GetOr([]);
    var withPage := if p.style == PageStyle && input.page.Some? then Put(filters, Paginate.PageKey(p), Num(input.page.value)) else filters;
    var withPer := if p.style == PageStyle && input.perPage.Some? then Put(withPage, Paginate.PerPageKey(p), Num(input.perPage.value)) else withPage;
    if p.style == CursorStyle && CursorGiven(input) then Put(withPer, CursorKey(p), Str(input.cursor.value)) else withPer
  }

  /** The page seeds in the filters are numbers or falsy, unless the caller's page and per_page replace them. */
  predicate PageSeedsNumeric(p: Pagination, input: ListInput) {
    p.style == PageStyle ==>
      (input.page.None? ==> Paginate.NumericOrFalsy(Lookup(input.filters.GetOr([]), Paginate.PageKey(p)))) &&
      (input.perPage.None? ==> Paginate.NumericOrFalsy(Lookup(input.filters.GetOr([]), Paginate.PerPageKey(p))))
  }

  /**
   * page and per_page are set only for the page style and the cursor only for the cursor
   * style; with neither, the filters go out as given.
   */
  lemma ListParamsPlaced(p: Pagination, input: ListInput)
    ensures p.style != PageStyle && !(p.style == CursorStyle && CursorGiven(input)) ==>
      ListParams(p, input) == input.filters.GetOr([])
    ensures p.style == CursorStyle && CursorGiven(input) ==>
      ListParams(p, input) == Put(input.filters.GetOr([]), CursorKey(p), Str(input.cursor.value))
    ensures p.style == PageStyle && input.perPage.Some? ==>
      Lookup(ListParams(p, input), Paginate.PerPageKey(p)) == Num(input.perPage.value)
    ensures p.style == PageStyle && input.page.Some? && Paginate.PageKey(p) != Paginate.PerPageKey(p) ==>
      Lookup(ListParams(p, input), Paginate.PageKey(p)) == Num(input.page.value)
    ensures PageSeedsNumeric(p, input) && p.style == PageStyle ==>
      Paginate.NumericOrFalsy(Lookup(ListParams(p, input), Paginate.PageKey(p))) &&
      Paginate.NumericOrFalsy(Lookup(ListParams(p, input), Paginate.PerPageKey(p)))
  {
    if p.style == PageStyle {
      var filters := input.filters.GetOr([]);
      var pk := Paginate.PageKey(p);
      var ppk := Paginate.PerPageKey(p);
      var withPage := if input.page.Some? then Put(filters, pk, Num(input.page.value)) else filters;
      if input.page.Some? {
        PutLookup(filters, pk, Num(input.page.value), pk);
        PutLookup(filters, pk, Num(input.page.value), ppk);
      }
      if input.perPage.Some? {
        PutLookup(withPage, ppk, Num(input.perPage.value), pk);
        PutLookup(withPage, ppk, Num(input.perPage.value), ppk);
      }
    }
  }

  /** `results.push(...chunk)`: an array spreads its elements and a string its characters; anything else throws. */
  function Spread(chunk: Json): Result<seq<Json>, Error> {
    match chunk
    case Arr(elems) => Success(elems)
    case Str(s) => Success(seq(|s|, i requires 0 <= i < |s| => Str([s[i]])))
    case _ => Failure(NotAnArray)
  }

  /** Every batch spread into `results`, in order; the first batch that cannot be spread throws. */
  function Collect(batches: seq<Json>): Result<seq<Json>, Error> {
    if |batches| == 0 then Success([])
    else
      match Collect(batches[..|batches| - 1])
      case Failure(e) => Failure(e)
      case Success(done) =>
        match Spread(batches[|batches| - 1])
        case Failure(e) => Failure(e)
        case Success(more) => Success(done + more)
  }

  /** The loop of list_resources that spreads each batch into `results`. */
  method CollectBatches(batches: seq<Json>) returns (r: Result<seq<Json>, Error>)
    ensures r == Collect(batches)
  {
    var results: seq<Json> := [];
    for i := 0 to |batches|
      invariant Collect(batches[..i]) == Success(results)
    {
      var s := Spread(batches[i]);
      assert batches[..i + 1][..i] == batches[..i];
      if s.Failure? {
        r := Failure(s.error);
        CollectStopsAtFailure(batches, i + 1);
        return;
      }
      results := results + s.value;
    }
    assert batches[..|batches|] == batches;
    r := Success(results);
  }

  /** Once a prefix of the batches throws, so do all of them, with the same error. */
  lemma {:induction false} CollectStopsAtFailure(batches: seq<Json>, n: nat)
    requires n <= |batches| && Collect(batches[..n]).Failure?
    ensures Collect(batches) == Collect(batches[..n])
    decreases |batches| - n
  {
    if n == |batches| {
      assert batches[..n] == batches;
    } else {
      assert batches[..n + 1][..n] == batches[..n];
      CollectStopsAtFailure(batches, n + 1);
    }
  }

  /** When every batch is an array, `results` holds all their items in order, as paginate's consumers see them. */
  lemma {:induction false} CollectArrays(batches: seq<Json>)
    requires forall k :: 0 <= k < |batches| ==> batches[k].Arr?
    ensures Collect(batches) == Success(Paginate.AllItems(batches))
  {
    if |batches| > 0 {
      CollectArrays(batches[..|batches| - 1]);
    }
  }

  /** Where list_resources stands before paging: refused or thrown, or the path to page from. */
  datatype ListStart = Start(path: string) | Stop(outcome: Outcome)

  function ListStartOf(spec: Spec, env: Http.Env, input: ListInput): ListStart {
    var res := ResourceNamed(spec, input.resource);
    if res.None? || res.value.list.None? then Stop(Refused(NotSupported(input.resource, ListOp)))
    else
      var path := res.value.list.value.path;
      if !Names(path, "orgId") then Start(path)
      else
        var orgId := ResolveOrgId(input.orgId, env);
        if IsNullish(orgId) then Stop(Refused(OrgIdMissing(input.resource)))
        else
          match Interpolate(path, map["orgId" := orgId])
          case Failure(e) => Stop(Threw(e))
          case Success(p) => Start(p)
  }

  /** The run of paginate that list_resources consumes, when it gets that far. */
  function ListRun(spec: Spec, env: Http.Env, input: ListInput, responses: seq<Result<Json, Error>>): Option<Paginate.Run>
    requires PageSeedsNumeric(spec.pagination, input)
  {
    match ListStartOf(spec, env, input)
    case Stop(_) => None
    case Start(path) =>
      ListParamsPlaced(spec.pagination, input);
      Some(Paginate.PaginateRun(spec.pagination, path, ListParams(spec.pagination, input), responses, FirstOnly(input)))
  }

  /** What a run of batches makes of list_resources' result: `{ items }`, or the first error. */
  function ListOutcome(run: Paginate.Run): Outcome {
    match Collect(run.batches)
    case Failure(e) => Threw(e)
    case Success(items) => if run.error.Some? then Threw(run.error.value) else Returned(Obj([("items", Arr(items))]))
  }

  /** list_resources */
  function ListSpec(spec: Spec, env: Http.Env, input: ListInput, responses: seq<Result<Json, Error>>): Outcome
    requires PageSeedsNumeric(spec.pagination, input)
  {
    match ListStartOf(spec, env, input)
    case Stop(o) => o
    case Start(_) => ListOutcome(ListRun(spec, env, input, responses).value)
  }

  /** list_resources: check the resource and orgId, page, and gather every batch. */
  method ListResources(spec: Spec, env: Http.Env, input: ListInput, responses: seq<Result<Json, Error>>) returns (out: Outcome)
    requires PageSeedsNumeric(spec.pagination, input)
    ensures out == ListSpec(spec, env, input, responses)
  {
    var start := ListStartOf(spec, env, input);
    if start.Stop? {
      return start.outcome;
    }
    var params := ListParams(spec.pagination, input);
    ListParamsPlaced(spec.pagination, input);
    var run := Paginate.Paginate(spec.pagination, start.path, params, responses, FirstOnly(input));
    var items := CollectBatches(run.batches);
    if items.Failure? {
      return Threw(items.error);
    }
    if run.error.Some? {
      return Threw(run.error.value);
    }
    out := Returned(Obj([("items", Arr(items.value))]));
  }

  /** A resource without a list operation is refused before any request. */
  lemma ListNotListable(spec: Spec, env: Http.Env, input: ListInput, responses: seq<Result<Json, Error>>)
    requires PageSeedsNumeric(spec.pagination, input)
    requires ResourceNamed(spec, input.resource).None? || ResourceNamed(spec, input.resource).value.list.None?
    ensures ListSpec(spec, env, input, responses) == Refused(NotSupported(input.resource, ListOp))
    ensures ListRun(spec, env, input, responses).None?
  {
  }

  /** Whatever the style, a run asked for its first page only makes one request and yields at most one batch. */
  lemma FirstPageOnly(p: Pagination, basePath: string, init: seq<(string, Json)>, responses: seq<Result<Json, Error>>)
    requires p.style == PageStyle ==> Paginate.NumericOrFalsy(Lookup(init, Paginate.PageKey(p))) &&
                                      Paginate.NumericOrFalsy(Lookup(init, Paginate.PerPageKey(p)))
    ensures |Paginate.PaginateRun(p, basePath, init, responses, true).requests| == 1
    ensures |Paginate.PaginateRun(p, basePath, init, responses, true).batches| <= 1
  {
  }

  /** With a page or a cursor given, list_resources returns the items of the first page alone. */
  lemma ListFirstPageOnly(spec: Spec, env: Http.Env, input: ListInput, responses: seq<Result<Json, Error>>)
    requires PageSeedsNumeric(spec.pagination, input) && FirstOnly(input)
    requires ListRun(spec, env, input, responses).Some?
    ensures |ListRun(spec, env, input, responses).value.requests| == 1
    ensures |ListRun(spec, env, input, responses).value.batches| <= 1
  {
    ListParamsPlaced(spec.pagination, input);
    FirstPageOnly(spec.pagination, ListStartOf(spec, env, input).path, ListParams(spec.pagination, input), responses);
  }

  // ---------------------------------------------------------------- remove_entities

  /** remove_entities' input; an absent orgId is Undefined. */
  datatype RemoveInput = RemoveInput(resource: string, ids: Option<seq<Json>>, names: Option<seq<string>>,
                                     emails: Option<seq<string>>, dryRun: Option<bool>, confirm: Option<string>, orgId: Json)

  /** Why a target's entry holds an error. */
  datatype EntryFailure = NoDeleteDescriptor(resource: string) | OrgIdRequiredFor(resource: string) | Raised(error: Error)

  datatype EntryOutcome = PlannedDelete(resource: string) | Deleted(data: Json) | Failed(why: EntryFailure)

  /** One entry of `results`: the target and what became of it. */
  datatype Entry = Entry(target: Json, outcome: EntryOutcome)

  datatype RemoveOutcome =
    | RemoveRefused(refusal: Refusal)
    | RemoveThrew(error: Error)
    | Removed(executed: nat, results: seq<Entry>)

  datatype Removal = Removal(outcome: RemoveOutcome, calls: seq<Call>)

  /** The targets, or the error resolution threw, and the listing request resolution made. */
  datatype Targeting = Targeting(targets: Result<seq<Json>, Error>, calls: seq<Call>)

  /** The ids of the resolved entities. */
  function Ids(es: seq<Resolve.Entity>): (ids: seq<Json>)
    ensures |ids| == |es|
    ensures forall k :: 0 <= k < |es| ==> ids[k] == es[k].id
  {
    seq(|es|, k requires 0 <= k < |es| => es[k].id)
  }

  /** The ids given; when there are none, those resolved from names or e-mails (with the raw orgId). */
  function TargetsOf(spec: Spec, input: RemoveInput, listing: Result<Json, Error>): Targeting {
    var ids := input.ids.GetOr([]);
    if |ids| == 0 && (Resolve.Given(input.names) || Resolve.Given(input.emails)) then
      var r := Resolve.ResolveToIds(spec, Resolve.ResolveQuery(input.resource, input.orgId, input.names, input.emails, None), listing);
      var calls := if r.fetched.Some? then [Call(GET, r.fetched.value, None)] else [];
      match r.result
      case Failure(e) => Targeting(Failure(e), calls)
      case Success(es) => Targeting(Success(Ids(es)), calls)
    else Targeting(Success(ids), [])
  }

  /** The resource whose delete operation removes entities of the given kind. */
  function RemovalResource(resource: string): (r: Option<string>)
    ensures r.Some? <==> resource in ["endpoints", "endpoint", "devices", "endpoint_groups"]
    ensures r.Some? ==> r.value == if resource == "endpoint_groups" then "endpoint_groups" else "endpoints"
  {
    if resource in ["endpoints", "endpoint", "devices"] then Some("endpoints")
    else if resource == "endpoint_groups" then Some("endpoint_groups")
    else None
  }

  /** What one target needs: a DELETE to a path, an entry recorded without a request, or an error that escapes. */
  datatype DeleteStep = Request(path: string) | Record(why: EntryFailure) | Escape(error: Error)

  /** The delete descriptor, the orgId check and the path params of one target. */
  function DeleteStepFor(spec: Spec, env: Http.Env, orgId: Json, resource: string, id: Json): DeleteStep {
    var res := ResourceNamed(spec, resource);
    if res.None? || res.value.delete.None? then Record(NoDeleteDescriptor(resource))
    else
      var path := res.value.delete.value.path;
      var org := ResolveOrgId(orgId, env);
      if Names(path, "orgId") && IsNullish(org) then Record(OrgIdRequiredFor(resource))
      else
        match Interpolate(path, DeleteParams(path, id, org, false))
        case Failure(e) => Escape(e)
        case Success(p) => Request(p)
  }

  /** Entries, DELETEs sent, and the error that escaped the loop, if any. */
  datatype Sweep = Sweep(results: seq<Entry>, calls: seq<Call>, escaped: Option<Error>)

  function Push(e: Entry, calls: seq<Call>, rest: Sweep): Sweep {
    Sweep([e] + rest.results, calls + rest.calls, rest.escaped)
  }

  /** What one target adds: its entry, the DELETE it sent and the replies it used; or the error that escapes. */
  datatype TargetStep = Step(entry: Entry, calls: seq<Call>, used: nat) | Escaped(error: Error)

  /**
   * One pass of the loop for target t, j DELETE replies already used. With `caught`, an
   * interpolation error is recorded in the target's entry; without it, it escapes the loop.
   */
  function StepFor(spec: Spec, env: Http.Env, input: RemoveInput, resource: string, t: Json,
                   answers: seq<Result<Json, Error>>, j: nat, caught: bool): TargetStep
  {
    if input.dryRun == Some(true) then Step(Entry(t, PlannedDelete(resource)), [], 0)
    else
      match DeleteStepFor(spec, env, input.orgId, resource, t)
      case Record(why) => Step(Entry(t, Failed(why)), [], 0)
      case Escape(e) => if caught then Step(Entry(t, Failed(Raised(e))), [], 0) else Escaped(e)
      case Request(path) =>
        var a := Paginate.Fetch(answers, j);
        var o := if a.Success? then Deleted(DeletedOr(a.value)) else Failed(Raised(a.error));
        Step(Entry(t, o), [Call(DELETE, path, None)], 1)
  }

  /** The loop over targets i.. with j DELETE replies used. */
  function SweepFrom(spec: Spec, env: Http.Env, input: RemoveInput, resource: string, targets: seq<Json>,
                     answers: seq<Result<Json, Error>>, i: nat, j: nat, caught: bool): Sweep
    requires i <= |targets|
    decreases |targets| - i
  {
    if i == |targets| then Sweep([], [], None)
    else
      match StepFor(spec, env, input, resource, targets[i], answers, j, caught)
      case Escaped(e) => Sweep([], [], Some(e))
      case Step(e, calls, used) => Push(e, calls, SweepFrom(spec, env, input, resource, targets, answers, i + 1, j + used, caught))
  }

  /** remove_entities, with the interpolation inside the `try` when `caught` and outside it as written. */
  function RemoveSpec(spec: Spec, env: Http.Env, input: RemoveInput, listing: Result<Json, Error>,
                      answers: seq<Result<Json, Error>>, caught: bool): Removal
  {
    match AllowDestructive(env, input.confirm, input.dryRun)
    case Denied(r) => Removal(RemoveRefused(Guarded(r)), [])
    case Allowed =>
      var found := TargetsOf(spec, input, listing);
      match found.targets
      case Failure(e) => Removal(RemoveThrew(e), found.calls)
      case Success(targets) =>
        if |targets| == 0 then Removal(RemoveRefused(NoTargets), found.calls)
        else
          match RemovalResource(input.resource)
          case None => Removal(RemoveRefused(NoRemovalStrategy(input.resource)), found.calls)
          case Some(resource) =>
            var s := SweepFrom(spec, env, input, resource, targets, answers, 0, 0, caught);
            if s.escaped.Some? then Removal(RemoveThrew(s.escaped.value), found.calls + s.calls)
            else Removal(Removed(|s.results|, s.results), found.calls + s.calls)
  }

  /** remove_entities as written: a target whose path cannot be built ends the whole tool. */
  function RemoveEntitiesAsWritten(spec: Spec, env: Http.Env, input: RemoveInput, listing: Result<Json, Error>,
                                   answers: seq<Result<Json, Error>>): (r: Removal)
    ensures r.outcome.Removed? ==> r == RemoveSpec(spec, env, input, listing, answers, true)
  {
    AsWrittenAgrees(spec, env, input, listing, answers);
    RemoveSpec(spec, env, input, listing, answers, false)
  }

  /** Entries, DELETEs sent, then the rest of the loop. */
  function Then(results: seq<Entry>, calls: seq<Call>, rest: Sweep): Sweep {
    Sweep(results + rest.results, calls + rest.calls, rest.escaped)
  }

  /** remove_entities, with every target's errors recorded in its entry. */
  method RemoveEntities(spec: Spec, env: Http.Env, input: RemoveInput, listing: Result<Json, Error>,
                        answers: seq<Result<Json, Error>>) returns (r: Removal)
    ensures r == RemoveSpec(spec, env, input, listing, answers, true)
  {
    var guard := AllowDestructive(env, input.confirm, input.dryRun);
    if guard.Denied? {
      return Removal(RemoveRefused(Guarded(guard.reason)), []);
    }
    var found := TargetsOf(spec, input, listing);
    if found.targets.Failure? {
      return Removal(RemoveThrew(found.targets.error), found.calls);
    }
    var targets := found.targets.value;
    if |targets| == 0 {
      return Removal(RemoveRefused(NoTargets), found.calls);
    }
    var resource := RemovalResource(input.resource);
    if resource.None? {
      return Removal(RemoveRefused(NoRemovalStrategy(input.resource)), found.calls);
    }
    var results, sent := RemoveAll(spec, env, input, resource.value, targets, answers);
    r := Removal(Removed(|results|, results), found.calls + sent);
  }

  /** The loop of remove_entities over its targets: the entries it pushes and the DELETEs it sends. */
  method RemoveAll(spec: Spec, env: Http.Env, input: RemoveInput, resource: string, targets: seq<Json>,
                   answers: seq<Result<Json, Error>>) returns (results: seq<Entry>, sent: seq<Call>)
    ensures SweepFrom(spec, env, input, resource, targets, answers, 0, 0, true) == Sweep(results, sent, None)
  {
    results := [];
    sent := [];
    var j := 0;
    ghost var whole := SweepFrom(spec, env, input, resource, targets, answers, 0, 0, true);
    for i := 0 to |targets|
      invariant whole == Then(results, sent, SweepFrom(spec, env, input, resource, targets, answers, i, j, true))
    {
      results, sent, j := RemoveNext(spec, env, input, resource, targets, answers, i, j, results, sent, whole);
    }
    SweepEnd(spec, env, input, resource, targets, answers, j, results, sent, whole);
  }

  /** One pass of the loop: target i's entry and DELETE join those of the targets before it. */
  method RemoveNext(spec: Spec, env: Http.Env, input: RemoveInput, resource: string, targets: seq<Json>,
                    answers: seq<Result<Json, Error>>, i: nat, j: nat, results: seq<Entry>, sent: seq<Call>,
                    ghost whole: Sweep)
    returns (results': seq<Entry>, sent': seq<Call>, j': nat)
    requires i < |targets|
    requires whole == Then(results, sent, SweepFrom(spec, env, input, resource, targets, answers, i, j, true))
    ensures whole == Then(results', sent', SweepFrom(spec, env, input, resource, targets, answers, i + 1, j', true))
  {
    var entry, calls, used := RemoveTarget(spec, env, input, resource, targets[i], answers, j);
    SweepAdvance(spec, env, input, resource, targets, answers, i, j, entry, calls, used, results, sent, whole);
    results', sent', j' := results + [entry], sent + calls, j + used;
  }

  /** The loop's invariant survives a pass that does not escape. */
  lemma SweepAdvance(spec: Spec, env: Http.Env, input: RemoveInput, resource: string, targets: seq<Json>,
                     answers: seq<Result<Json, Error>>, i: nat, j: nat, entry: Entry, calls: seq<Call>, used: nat,
                     results: seq<Entry>, sent: seq<Call>, whole: Sweep)
    requires i < |targets|
    requires StepFor(spec, env, input, resource, targets[i], answers, j, true) == Step(entry, calls, used)
    requires whole == Then(results, sent, SweepFrom(spec, env, input, resource, targets, answers, i, j, true))
    ensures whole == Then(results + [entry], sent + calls, SweepFrom(spec, env, input, resource, targets, answers, i + 1, j + used, true))
  {
    SweepStep(spec, env, input, resource, targets, answers, i, j, entry, calls, used);
    ThenPush(results, sent, entry, calls, SweepFrom(spec, env, input, resource, targets, answers, i + 1, j + used, true));
  }

  /** Past the last target the loop has nothing more to add. */
  lemma SweepEnd(spec: Spec, env: Http.Env, input: RemoveInput, resource: string, targets: seq<Json>,
                 answers: seq<Result<Json, Error>>, j: nat, results: seq<Entry>, sent: seq<Call>, whole: Sweep)
    requires whole == Then(results, sent, SweepFrom(spec, env, input, resource, targets, answers, |targets|, j, true))
    ensures whole == Sweep(results, sent, None)
  {
    assert results + [] == results && sent + [] == sent;
  }

  /** One pass of the loop that does not escape puts its entry and DELETE in front of the rest. */
  lemma SweepStep(spec: Spec, env: Http.Env, input: RemoveInput, resource: string, targets: seq<Json>,
                  answers: seq<Result<Json, Error>>, i: nat, j: nat, entry: Entry, calls: seq<Call>, used: nat)
    requires i < |targets|
    requires StepFor(spec, env, input, resource, targets[i], answers, j, true) == Step(entry, calls, used)
    ensures SweepFrom(spec, env, input, resource, targets, answers, i, j, true)
         == Push(entry, calls, SweepFrom(spec, env, input, resource, targets, answers, i + 1, j + used, true))
  {
  }

  lemma ThenPush(results: seq<Entry>, sent: seq<Call>, entry: Entry, calls: seq<Call>, rest: Sweep)
    ensures Then(results, sent, Push(entry, calls, rest)) == Then(results + [entry], sent + calls, rest)
  {
    assert results + ([entry] + rest.results) == (results + [entry]) + rest.results;
    assert sent + (calls + rest.calls) == (sent + calls) + rest.calls;
  }

  /** The body of remove_entities' loop for one target, with the DELETE's path built inside the `try`. */
  method RemoveTarget(spec: Spec, env: Http.Env, input: RemoveInput, resource: string, t: Json,
                      answers: seq<Result<Json, Error>>, j: nat) returns (entry: Entry, calls: seq<Call>, used: nat)
    ensures StepFor(spec, env, input, resource, t, answers, j, true) == Step(entry, calls, used)
  {
    if input.dryRun == Some(true) {
      return Entry(t, PlannedDelete(resource)), [], 0;
    }
    var desc := ResourceNamed(spec, resource);
    if desc.None? || desc.value.delete.None? {
      return Entry(t, Failed(NoDeleteDescriptor(resource))), [], 0;
    }
    var path := desc.value.delete.value.path;
    var needsOrg := Names(path, "orgId");
    var org := ResolveOrgId(input.orgId, env);
    if needsOrg && IsNullish(org) {
      return Entry(t, Failed(OrgIdRequiredFor(resource))), [], 0;
    }
    var delPath := Interpolate(path, DeleteParams(path, t, org, false));
    if delPath.Failure? {
      return Entry(t, Failed(Raised(delPath.error))), [], 0;
    }
    var data := Paginate.Fetch(answers, j);
    if data.Success? {
      entry := Entry(t, Deleted(DeletedOr(data.value)));
    } else {
      entry := Entry(t, Failed(Raised(data.error)));
    }
    calls := [Call(DELETE, delPath.value, None)];
    used := 1;
  }

  // ----- properties of remove_entities -----

  /** The targets of a list of entries, in order. */
  function EntryTargets(results: seq<Entry>): (ts: seq<Json>)
    ensures |ts| == |results|
  {
    seq(|results|, k requires 0 <= k < |results| => results[k].target)
  }

  /** With errors caught, the loop never ends early: one entry per target, in target order. */
  lemma {:induction false} SweepOnePerTarget(spec: Spec, env: Http.Env, input: RemoveInput, resource: string, targets: seq<Json>,
                                             answers: seq<Result<Json, Error>>, i: nat, j: nat)
    requires i <= |targets|
    ensures var s := SweepFrom(spec, env, input, resource, targets, answers, i, j, true);
      s.escaped.None? && EntryTargets(s.results) == targets[i..]
    decreases |targets| - i
  {
    if i < |targets| {
      var t := targets[i];
      var s := SweepFrom(spec, env, input, resource, targets, answers, i, j, true);
      var j' := j + StepFor(spec, env, input, resource, t, answers, j, true).used;
      SweepOnePerTarget(spec, env, input, resource, targets, answers, i + 1, j');
      var rest := SweepFrom(spec, env, input, resource, targets, answers, i + 1, j', true);
      assert s.results == [s.results[0]] + rest.results;
      assert s.results[0].target == t;
      assert EntryTargets(s.results) == [t] + EntryTargets(rest.results);
      assert targets[i..] == [t] + targets[i + 1..];
    } else {
      assert targets[i..] == [];
    }
  }

  /**
   * Once remove_entities reaches its loop, every target gets exactly one entry, in order,
   * whatever fails, and `executed` counts the entries.
   */
  lemma OneEntryPerTarget(spec: Spec, env: Http.Env, input: RemoveInput, listing: Result<Json, Error>,
                          answers: seq<Result<Json, Error>>)
    requires AllowDestructive(env, input.confirm, input.dryRun).Allowed?
    requires TargetsOf(spec, input, listing).targets.Success?
    requires |TargetsOf(spec, input, listing).targets.value| > 0
    requires RemovalResource(input.resource).Some?
    ensures var r := RemoveSpec(spec, env, input, listing, answers, true);
      r.outcome.Removed? && r.outcome.executed == |r.outcome.results| &&
      EntryTargets(r.outcome.results) == TargetsOf(spec, input, listing).targets.value
  {
    var targets := TargetsOf(spec, input, listing).targets.value;
    SweepOnePerTarget(spec, env, input, RemovalResource(input.resource).value, targets, answers, 0, 0);
    assert targets[0..] == targets;
  }

  /** Explicit ids are the targets, and then nothing is resolved or fetched. */
  lemma IdsTakePrecedence(spec: Spec, input: RemoveInput, listing: Result<Json, Error>)
    requires input.ids.Some? && |input.ids.value| > 0
    ensures TargetsOf(spec, input, listing) == Targeting(Success(input.ids.value), [])
  {
  }

  /** A dry run plans one delete per target and sends no DELETE. */
  lemma {:induction false} DryRunSweep(spec: Spec, env: Http.Env, input: RemoveInput, resource: string, targets: seq<Json>,
                                       answers: seq<Result<Json, Error>>, i: nat, j: nat, caught: bool)
    requires i <= |targets| && input.dryRun == Some(true)
    ensures var s := SweepFrom(spec, env, input, resource, targets, answers, i, j, caught);
      s.calls == [] && s.escaped.None? && |s.results| == |targets| - i &&
      forall k :: 0 <= k < |s.results| ==> s.results[k].outcome == PlannedDelete(resource)
    decreases |targets| - i
  {
    if i < |targets| {
      DryRunSweep(spec, env, input, resource, targets, answers, i + 1, j, caught);
    }
  }

  /** A dry run of remove_entities makes no request beyond the listing that resolves names. */
  lemma DryRunDeletesNothing(spec: Spec, env: Http.Env, input: RemoveInput, listing: Result<Json, Error>,
                             answers: seq<Result<Json, Error>>)
    requires input.dryRun == Some(true)
    ensures var r := RemoveSpec(spec, env, input, listing, answers, true);
      r.calls == TargetsOf(spec, input, listing).calls &&
      (r.outcome.Removed? ==> forall k :: 0 <= k < |r.outcome.results| ==> r.outcome.results[k].outcome.PlannedDelete?)
  {
    var found := TargetsOf(spec, input, listing);
    if found.targets.Success? && |found.targets.value| > 0 && RemovalResource(input.resource).Some? {
      DryRunSweep(spec, env, input, RemovalResource(input.resource).value, found.targets.value, answers, 0, 0, true);
      assert found.calls + [] == found.calls;
    }
  }

  /** Without an escaping error both loops are the same loop. */
  lemma {:induction false} SweepAgrees(spec: Spec, env: Http.Env, input: RemoveInput, resource: string, targets: seq<Json>,
                                       answers: seq<Result<Json, Error>>, i: nat, j: nat)
    requires i <= |targets|
    ensures SweepFrom(spec, env, input, resource, targets, answers, i, j, false).escaped.None? ==>
      SweepFrom(spec, env, input, resource, targets, answers, i, j, false) == SweepFrom(spec, env, input, resource, targets, answers, i, j, true)
    decreases |targets| - i
  {
    if i < |targets| {
      var step := StepFor(spec, env, input, resource, targets[i], answers, j, true);
      SweepAgrees(spec, env, input, resource, targets, answers, i + 1, j + step.used);
    }
  }

  /** When remove_entities as written completes, it reports what the corrected loop reports. */
  lemma AsWrittenAgrees(spec: Spec, env: Http.Env, input: RemoveInput, listing: Result<Json, Error>,
                        answers: seq<Result<Json, Error>>)
    ensures RemoveSpec(spec, env, input, listing, answers, false).outcome.Removed? ==>
      RemoveSpec(spec, env, input, listing, answers, false) == RemoveSpec(spec, env, input, listing, answers, true)
  {
    var found := TargetsOf(spec, input, listing);
    if found.targets.Success? && |found.targets.value| > 0 && RemovalResource(input.resource).Some? {
      SweepAgrees(spec, env, input, RemovalResource(input.resource).value, found.targets.value, answers, 0, 0);
    }
  }

  /** The managed endpoints' item path of the API description. */
  const EndpointPath: string := "/endpoints/managed/" + Slot("orgId") + "/" + Slot("endpointId")

  /** EndpointPath names orgId and endpointId, and throws for an endpointId without a value. */
  lemma EndpointPathMissingId(p: map<string, Json>)
    requires !Param(p, "orgId").Undefined? && Param(p, "endpointId").Undefined?
    ensures Interpolate(EndpointPath, p) == Failure(MissingPathParam("endpointId"))
  {
    assert IsWord("orgId") && IsWord("endpointId");
    TwoSlotInterpolate("/endpoints/managed/", "orgId", "/", "endpointId", p);
  }

  lemma EndpointPathNames()
    ensures Names(EndpointPath, "orgId") && Names(EndpointPath, "endpointId")
  {
    TwoSlotNames("/endpoints/managed/", "orgId", "/", "endpointId");
  }

  /** An item resolved by name that has no id, endpointId, groupId or uuid has an undefined id. */
  lemma NamedItemWithoutId()
    ensures Resolve.ToEntity(Obj([("name", Str("x"))])).id == Undefined
  {
  }

  /**
   * As written, a target without an id ends remove_entities with "Missing path param":
   * no result is reported, not even for targets already deleted before it.
   */
  lemma MissingIdEscapes(spec: Spec, env: Http.Env, input: RemoveInput, targets: seq<Json>,
                         answers: seq<Result<Json, Error>>, i: nat, j: nat)
    requires "endpoints" in spec.resources && spec.resources["endpoints"].delete == Op(EndpointPath, DELETE)
    requires input.dryRun != Some(true) && !IsNullish(ResolveOrgId(input.orgId, env))
    requires i < |targets| && targets[i] == Undefined
    ensures SweepFrom(spec, env, input, "endpoints", targets, answers, i, j, false) == Sweep([], [], Some(MissingPathParam("endpointId")))
    ensures SweepFrom(spec, env, input, "endpoints", targets, answers, i, j, true).results[0]
         == Entry(Undefined, Failed(Raised(MissingPathParam("endpointId"))))
  {
    var org := ResolveOrgId(input.orgId, env);
    EndpointPathNames();
    EndpointPathMissingId(DeleteParams(EndpointPath, Undefined, org, false));
  }
}
