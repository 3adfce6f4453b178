/**
 * resolveToIds of src/lib/resolve.ts: turn names, e-mail addresses or labels into the ids
 * of the entities of one resource. Two guards run before any request; then one page of
 * the resource's list is fetched (its outcome, as getWithRetry returned it, is the
 * parameter `data`) and filtered item by item.
 */
module Resolve {
  import opened Wrappers
  import opened Text
  import opened Js
  import opened Errors
  import opened Endpoints
  import Query
  import Paginate

  /** The query; an absent `orgId` is Undefined, an absent list is None. */
  datatype ResolveQuery = ResolveQuery(
    resource: string,
    orgId: Json,
    names: Option<seq<string>>,
    emails: Option<seq<string>>,
    labels: Option<seq<string>>)

  /** A resolved entity: its id, display name, e-mail and the item it came from. */
  datatype Entity = Entity(id: Json, name: Json, email: Json, raw: Json)

  /** What a resolution did: the one path it fetched (None when it threw before fetching) and its outcome. */
  datatype Resolution = Resolution(fetched: Option<string>, result: Result<seq<Entity>, Error>)

  /** `(it.name || it.displayName || it.hostname || it.id || "").toString().toLowerCase()` */
  function NameText(it: Json): string {
    Lower(ToStr(Or(Get(it, "name"), Or(Get(it, "displayName"), Or(Get(it, "hostname"), Or(Get(it, "id"), Str("")))))))
  }

  /** `(it.email || it.userEmail || "").toString().toLowerCase()` */
  function EmailText(it: Json): string {
    Lower(ToStr(Or(Get(it, "email"), Or(Get(it, "userEmail"), Str("")))))
  }

  /** `(it.label || it.title || "").toString().toLowerCase()` */
  function LabelText(it: Json): string {
    Lower(ToStr(Or(Get(it, "label"), Or(Get(it, "title"), Str("")))))
  }

  /** `wanted.some((w) => text.includes(w.toLowerCase()))` */
  predicate SomeIncluded(text: string, wanted: seq<string>) {
    exists w :: w in wanted && Contains(text, Lower(w))
  }

  /** `wanted.some((w) => text === w.toLowerCase())` */
  predicate SomeEqual(text: string, wanted: seq<string>) {
    exists w :: w in wanted && text == Lower(w)
  }

  /** `q.names?.length`: the filter class was given and is non-empty. */
  predicate Given(o: Option<seq<string>>) {
    o.Some? && |o.value| > 0
  }

  /** The filter callback: the item matches some filter class that was given. */
  predicate Keep(q: ResolveQuery, it: Json) {
    (Given(q.names) && SomeIncluded(NameText(it), q.names.value))
    || (Given(q.emails) && SomeEqual(EmailText(it), q.emails.value))
    || (Given(q.labels) && SomeIncluded(LabelText(it), q.labels.value))
  }

  /**
   * `items.filter(...)`: the callback reads `it.name` first, so a null or undefined item
   * throws; otherwise the items kept are exactly the matching ones, in listing order.
   */
  function Filter(q: ResolveQuery, items: seq<Json>): (r: Result<seq<Json>, Error>)
    ensures r.Failure? <==> exists i :: 0 <= i < |items| && IsNullish(items[i])
    ensures r.Failure? ==> r.error == NullProperty
    ensures r.Success? ==> |r.value| <= |items|
    ensures r.Success? ==> forall x :: x in r.value <==> x in items && Keep(q, x)
    decreases |items|
  {
    if |items| == 0 then Success([])
    else if IsNullish(items[0]) then Failure(NullProperty)
    else
      match Filter(q, items[1..])
      case Failure(e) => Failure(e)
      case Success(rest) => if Keep(q, items[0]) then Success([items[0]] + rest) else Success(rest)
  }

  /**
   * Filtering a listing in two parts is filtering each part and concatenating: so the kept
   * items keep their listing order and every kept occurrence appears once, and the whole
   * throws exactly when a part does.
   */
  lemma {:induction false} FilterAppend(q: ResolveQuery, a: seq<Json>, b: seq<Json>)
    ensures Filter(q, a + b).Success? <==> Filter(q, a).Success? && Filter(q, b).Success?
    ensures Filter(q, a + b).Success? ==> Filter(q, a + b).value == Filter(q, a).value + Filter(q, b).value
    decreases |a|
  {
    if |a| == 0 {
      assert a + b == b;
    } else {
      assert (a + b)[0] == a[0];
      assert (a + b)[1..] == a[1..] + b;
      FilterAppend(q, a[1..], b);
      if !IsNullish(a[0]) && Filter(q, a + b).Success? && Keep(q, a[0]) {
        assert [a[0]] + (Filter(q, a[1..]).value + Filter(q, b).value) == ([a[0]] + Filter(q, a[1..]).value) + Filter(q, b).value;
      }
    }
  }

  /** One item is kept exactly when it matches; a null or undefined one throws. */
  lemma FilterOne(q: ResolveQuery, x: Json)
    ensures IsNullish(x) ==> Filter(q, [x]) == Failure(NullProperty)
    ensures !IsNullish(x) ==> Filter(q, [x]) == Success(if Keep(q, x) then [x] else [])
  {
    assert [x][1..] == [];
    assert Filter(q, [x][1..]) == Success([]);
    assert [x] + [] == [x];
  }

  /** The entity reported for a kept item. */
  function ToEntity(m: Json): (e: Entity)
    ensures e.raw == m
    ensures Truthy(Get(m, "name")) ==> e.name == Get(m, "name")
    ensures !Truthy(Get(m, "name")) && Truthy(Get(m, "displayName")) ==> e.name == Get(m, "displayName")
    ensures !Truthy(Get(m, "name")) && !Truthy(Get(m, "displayName")) ==> e.name == Get(m, "hostname")
    ensures Truthy(Get(m, "email")) ==> e.email == Get(m, "email")
    ensures !Truthy(Get(m, "email")) ==> e.email == Get(m, "userEmail")
    ensures !IsNullish(Get(m, "id")) ==> e.id == Get(m, "id")
    ensures IsNullish(Get(m, "id")) && !IsNullish(Get(m, "endpointId")) ==> e.id == Get(m, "endpointId")
    ensures IsNullish(Get(m, "id")) && IsNullish(Get(m, "endpointId")) && !IsNullish(Get(m, "groupId"))
      ==> e.id == Get(m, "groupId")
    ensures IsNullish(Get(m, "id")) && IsNullish(Get(m, "endpointId")) && IsNullish(Get(m, "groupId"))
      ==> e.id == Get(m, "uuid")
  {
    Entity(
      Coalesce(Get(m, "id"), Coalesce(Get(m, "endpointId"), Coalesce(Get(m, "groupId"), Get(m, "uuid")))),
      Or(Get(m, "name"), Or(Get(m, "displayName"), Get(m, "hostname"))),
      Or(Get(m, "email"), Get(m, "userEmail")),
      m)
  }

  /** `matches.map(...)` */
  function ToEntities(ms: seq<Json>): (es: seq<Entity>)
    ensures |es| == |ms|
    ensures forall i :: 0 <= i < |ms| ==> es[i] == ToEntity(ms[i])
  {
    seq(|ms|, i requires 0 <= i < |ms| => ToEntity(ms[i]))
  }

  /** The list path with `{orgId}` filled in when it names it; None when the guards throw. */
  function ListPath(spec: Spec, q: ResolveQuery): Result<string, Error> {
    var desc := ResourceNamed(spec, q.resource);
    if desc.None? || desc.value.list.None? then Failure(NotListable(q.resource))
    else
      var path := desc.value.list.value.path;
      var needsOrg := Contains(path, "{orgId}");
      if needsOrg && IsNullish(q.orgId) then Failure(OrgRequired(q.resource))
      else if needsOrg then Interpolate(path, map["orgId" := q.orgId])
      else Success(path)
  }

  /** The items of a page, filtered and projected. */
  function Project(q: ResolveQuery, data: Json): Result<seq<Entity>, Error> {
    var items := Paginate.ExtractItems(data);
    if !items.Arr? then Failure(NotAnArray)
    else
      match Filter(q, items.elems)
      case Failure(e) => Failure(e)
      case Success(kept) => Success(ToEntities(kept))
  }

  /** resolveToIds */
  function ResolveToIds(spec: Spec, q: ResolveQuery, data: Result<Json, Error>): (r: Resolution)
    ensures r.fetched.None? <==> ListPath(spec, q).Failure?
    ensures r.fetched.None? ==> r.result.Failure? && r.result.error == ListPath(spec, q).error
    ensures r.fetched.Some? ==> r.fetched.value == ListPath(spec, q).value
    ensures r.fetched.Some? && data.Failure? ==> r.result.Failure? && r.result.error == data.error
  {
    match ListPath(spec, q)
    case Failure(e) => Resolution(None, Failure(e))
    case Success(path) =>
      var url := path + Query.QueryString(Some([]));
      Resolution(Some(url), if data.Failure? then Failure(data.error) else Project(q, data.value))
  }

  /** A resource without a list operation throws before anything is fetched. */
  lemma NotListableBeforeFetch(spec: Spec, q: ResolveQuery, data: Result<Json, Error>)
    requires q.resource !in spec.resources || spec.resources[q.resource].list.None?
    ensures ResolveToIds(spec, q, data) == Resolution(None, Failure(NotListable(q.resource)))
  {
  }

  /** A list path naming `{orgId}` with a null or undefined orgId throws before anything is fetched. */
  lemma OrgRequiredBeforeFetch(spec: Spec, q: ResolveQuery, data: Result<Json, Error>)
    requires q.resource in spec.resources && spec.resources[q.resource].list.Some?
    requires Contains(spec.resources[q.resource].list.value.path, "{orgId}")
    requires IsNullish(q.orgId)
    ensures ResolveToIds(spec, q, data) == Resolution(None, Failure(OrgRequired(q.resource)))
  {
  }

  /** A list path without `{orgId}` is fetched as it is, with no query and no page parameters. */
  lemma OneFetchOfListPath(spec: Spec, q: ResolveQuery, data: Result<Json, Error>)
    requires q.resource in spec.resources && spec.resources[q.resource].list.Some?
    requires !Contains(spec.resources[q.resource].list.value.path, "{orgId}")
    ensures ResolveToIds(spec, q, data).fetched == Some(spec.resources[q.resource].list.value.path)
  {
  }

  /** With no filter class given nothing is kept. */
  lemma NoFiltersNothingResolved(spec: Spec, q: ResolveQuery, data: Result<Json, Error>)
    requires !Given(q.names) && !Given(q.emails) && !Given(q.labels)
    ensures var r := ResolveToIds(spec, q, data);
      r.result.Success? ==> r.result.value == []
  {
    if data.Success? && Paginate.ExtractItems(data.value).Arr? {
      NothingKept(q, Paginate.ExtractItems(data.value).elems);
    }
  }

  lemma {:induction false} NothingKept(q: ResolveQuery, items: seq<Json>)
    requires !Given(q.names) && !Given(q.emails) && !Given(q.labels)
    ensures Filter(q, items).Success? ==> Filter(q, items).value == []
    decreases |items|
  {
    if |items| > 0 {
      NothingKept(q, items[1..]);
    }
  }

  /**
   * Each entity resolved comes from a listed item that matches, and each listed item that
   * matches is resolved.
   */
  lemma ResolvedAreMatches(spec: Spec, q: ResolveQuery, data: Json)
    ensures var r := ResolveToIds(spec, q, Success(data));
      r.result.Success? ==>
        (forall e :: e in r.result.value ==> e.raw in Paginate.ExtractItems(data).elems && Keep(q, e.raw)) &&
        (forall x :: x in Paginate.ExtractItems(data).elems && Keep(q, x) ==> ToEntity(x) in r.result.value)
  {
    var r := ResolveToIds(spec, q, Success(data));
    if r.result.Success? {
      var kept := Filter(q, Paginate.ExtractItems(data).elems).value;
      assert r.result.value == ToEntities(kept);
      forall e | e in r.result.value
        ensures e.raw in kept
      {
        var i :| 0 <= i < |r.result.value| && r.result.value[i] == e;
        assert e == ToEntity(kept[i]);
      }
      forall x | x in kept
        ensures ToEntity(x) in r.result.value
      {
        var i :| 0 <= i < |kept| && kept[i] == x;
        assert r.result.value[i] == ToEntity(x);
      }
    }
  }

  /** E-mail matching is whole-string equality after lower-casing, not a substring match. */
  lemma EmailMatchIsExact(q: ResolveQuery, it: Json)
    requires !Given(q.names) && !Given(q.labels)
    ensures Keep(q, it) <==> Given(q.emails) && exists w :: w in q.emails.value && EmailText(it) == Lower(w)
  {
  }

  // ----- the listing of the test suite: Alpha and Beta, names ["alp"] -----

  const Alpha: Json := Obj([("id", Str("1")), ("name", Str("Alpha"))])
  const Beta: Json := Obj([("id", Str("2")), ("name", Str("Beta"))])

  lemma AlphaMatches(q: ResolveQuery)
    requires q.names == Some(["alp"])
    ensures Keep(q, Alpha)
  {
    assert NameText(Alpha) == Lower("Alpha");
    assert Lower("Alpha") == "alpha";
    assert Lower("alp") == "alp";
    assert IsPrefix("alp", "alpha");
    assert "alp" in q.names.value;
  }

  lemma BetaDoesNotMatch(q: ResolveQuery)
    requires q.names == Some(["alp"]) && q.emails.None? && q.labels.None?
    ensures !Keep(q, Beta)
  {
    assert NameText(Beta) == Lower("Beta");
    assert Lower("Beta") == "beta";
    assert Lower("alp") == "alp";
    ContainsCharFree("beta", "alp", 'l');
  }

  lemma FilterExample(q: ResolveQuery)
    requires q == ResolveQuery("devices_test", Str("org"), Some(["alp"]), None, None)
    ensures Filter(q, [Alpha, Beta]) == Success([Alpha])
  {
    AlphaMatches(q);
    BetaDoesNotMatch(q);
    assert [Beta][1..] == [];
    assert Filter(q, [Beta]) == Success([]);
    assert [Alpha, Beta][1..] == [Beta];
    assert [Alpha] + [] == [Alpha];
  }

  lemma DevicesPathInterpolates(lit: string, p: map<string, Json>)
    requires '{' !in lit
    requires Param(p, "orgId") == Str("org")
    ensures Interpolate(lit + "{orgId}", p).Success?
  {
    assert "{" + "orgId" + "}" + "" == "{orgId}";
    InterpolatePlaceholderPrefix("orgId", "", p);
    InterpolateLiteralPrefix(lit, "{orgId}", p);
  }

  lemma ListPathExample(spec: Spec, q: ResolveQuery)
    requires "devices_test" in spec.resources && spec.resources["devices_test"] == Resource(list := Op("/devices/" + "{orgId}", GET))
    requires q == ResolveQuery("devices_test", Str("org"), Some(["alp"]), None, None)
    ensures ListPath(spec, q).Success?
  {
    ContainsSuffix("/devices/", "{orgId}");
    DevicesPathInterpolates("/devices/", map["orgId" := Str("org")]);
  }

  /** `{items: [Alpha, Beta]}` resolved with names ["alp"] and orgId "org" gives the ids ["1"]. */
  lemma AlphaBetaExample(spec: Spec, q: ResolveQuery)
    requires "devices_test" in spec.resources && spec.resources["devices_test"] == Resource(list := Op("/devices/" + "{orgId}", GET))
    requires q == ResolveQuery("devices_test", Str("org"), Some(["alp"]), None, None)
    ensures var r := ResolveToIds(spec, q, Success(Obj([("items", Arr([Alpha, Beta]))])));
      r.result.Success? && |r.result.value| == 1 && r.result.value[0].id == Str("1")
  {
    ListPathExample(spec, q);
    FilterExample(q);
    var data := Obj([("items", Arr([Alpha, Beta]))]);
    assert Paginate.ExtractItems(data) == Arr([Alpha, Beta]);
  }
}
