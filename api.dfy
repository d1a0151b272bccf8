/**
 * The request engine of the Backlog client and the per-endpoint operations
 * (plugins/backlog-skill/scripts/backlog.ts): configuration, endpoint
 * strings, the search and form parameter builders, the authenticated URL,
 * the error messages, and how one reply completes one request.
 */
module Api {
  import opened Wrappers
  import opened Numbers
  import opened Form

  // ---------------------------------------------------------------------------
  // Configuration

  datatype Config = Config(domain: string, apiKey: string)

  /** `if (s)` on an optional string: absent and "" are falsy. */
  predicate Present(s: Option<string>) {
    s.Some? && s.value != ""
  }

  /** `if (n)` on an optional number: absent, 0 and NaN are falsy. */
  predicate PresentNum(n: Option<Num>) {
    n.Some? && Truthy(n.value)
  }

  const DomainMissing := "BACKLOG_DOMAIN environment variable is required"
  const ApiKeyMissing := "BACKLOG_API_KEY environment variable is required"

  /** `getConfig`: both environment values must be non-empty; the domain is checked first. */
  function GetConfig(domain: Option<string>, apiKey: Option<string>): (r: Result<Config, string>)
    ensures r.Success? <==> Present(domain) && Present(apiKey)
    ensures r.Success? ==> r.value == Config(domain.value, apiKey.value)
    ensures !Present(domain) ==> r == Failure(DomainMissing)
    ensures Present(domain) && !Present(apiKey) ==> r == Failure(ApiKeyMissing)
  {
    if !Present(domain) then Failure(DomainMissing)
    else if !Present(apiKey) then Failure(ApiKeyMissing)
    else Success(Config(domain.value, apiKey.value))
  }

  // ---------------------------------------------------------------------------
  // Endpoints

  /** A path below `/api/v2/` with the query pairs it already carries. */
  datatype Endpoint = Endpoint(path: string, query: seq<Param>)

  /** The endpoint string the client builds: the path, then `?` and the query when there is one. */
  function Render(enc: string -> string, e: Endpoint): string {
    if e.query == [] then e.path else e.path + "?" + Serialize(enc, e.query)
  }

  function BoolText(b: bool): string {
    if b then "true" else "false"
  }

  /** `getProjects`: `?archived=` is added exactly when an archived value is given. */
  function ProjectsEndpoint(archived: Option<bool>): (e: Endpoint)
    ensures e.path == "projects"
    ensures archived.None? <==> e.query == []
    ensures archived.Some? ==> e.query == [Param("archived", BoolText(archived.value))]
  {
    Endpoint("projects", if archived.Some? then [Param("archived", BoolText(archived.value))] else [])
  }

  /** `getProjects` grows its endpoint string with `+=`. */
  method GetProjectsEndpoint(archived: Option<bool>) returns (endpoint: string)
    ensures archived.None? ==> endpoint == "projects"
    ensures archived.Some? ==> endpoint == "projects" + "?archived=" + BoolText(archived.value)
  {
    endpoint := "projects";
    if archived.Some? {
      endpoint := endpoint + "?archived=" + BoolText(archived.value);
    }
  }

  /** `getNotifications`: the count is always sent. */
  function NotificationsEndpoint(count: Num): (e: Endpoint)
    ensures e.path == "notifications" && e.query == [Param("count", NumText(count))]
  {
    Endpoint("notifications", [Param("count", NumText(count))])
  }

  lemma NumTextUnreserved(n: Num)
    ensures Unreserved(NumText(n))
  {
    if n.Int? && n.value < 0 {
      assert NumText(n) == "-" + NatText(-n.value);
      assert forall i :: 0 < i < |NumText(n)| ==> NumText(n)[i] == NatText(-n.value)[i - 1];
    }
  }

  /** An endpoint with one pair of unreserved text renders to `path?name=value`. */
  lemma RenderSingle(enc: string -> string, path: string, name: string, value: string)
    requires FixesUnreserved(enc) && Unreserved(name) && Unreserved(value)
    ensures Render(enc, Endpoint(path, [Param(name, value)])) == path + "?" + name + "=" + value
  {
    SinglePairText(enc, name, value);
  }

  /** The projects endpoint renders to `projects`, or to `projects?archived=` and the flag's text. */
  lemma ProjectsEndpointText(enc: string -> string, archived: Option<bool>)
    requires FixesUnreserved(enc)
    ensures archived.None? ==> Render(enc, ProjectsEndpoint(archived)) == "projects"
    ensures archived.Some? ==>
      Render(enc, ProjectsEndpoint(archived)) == "projects" + "?" + "archived" + "=" + BoolText(archived.value)
  {
    if archived.Some? {
      assert Unreserved("archived");
      assert Unreserved(BoolText(archived.value));
      RenderSingle(enc, "projects", "archived", BoolText(archived.value));
    }
  }

  /** The notifications endpoint renders to `notifications?count=` and the count's text. */
  lemma NotificationsEndpointText(enc: string -> string, count: Num)
    requires FixesUnreserved(enc)
    ensures Render(enc, NotificationsEndpoint(count)) == "notifications" + "?" + "count" + "=" + NumText(count)
  {
    assert Unreserved("count");
    NumTextUnreserved(count);
    RenderSingle(enc, "notifications", "count", NumText(count));
  }

  // ---------------------------------------------------------------------------
  // Issue search (`getIssues`)

  /** `GetIssuesOptions`: every field optional; `order` is not checked against asc/desc. */
  datatype IssueOptions = IssueOptions(
    projectId: Option<seq<Num>>,
    issueTypeId: Option<seq<Num>>,
    statusId: Option<seq<Num>>,
    priorityId: Option<seq<Num>>,
    assigneeId: Option<seq<Num>>,
    keyword: Option<string>,
    count: Option<Num>,
    offset: Option<Num>,
    sort: Option<string>,
    order: Option<string>)

  const NoIssueOptions := IssueOptions(None, None, None, None, None, None, None, None, None, None)

  /** One `name` pair per id, in list order. */
  function Each(name: string, ids: seq<Num>): seq<Param> {
    if ids == [] then [] else Each(name, ids[..|ids| - 1]) + [Param(name, NumText(ids[|ids| - 1]))]
  }

  /** Pair `i` is `name` with the text of id `i`. */
  lemma {:induction false} EachSpec(name: string, ids: seq<Num>)
    ensures |Each(name, ids)| == |ids|
    ensures forall i :: 0 <= i < |ids| ==> Each(name, ids)[i] == Param(name, NumText(ids[i]))
  {
    if ids != [] {
      EachSpec(name, ids[..|ids| - 1]);
    }
  }

  /** A list filter: nothing when absent, one pair per element otherwise. */
  function Listed(name: string, ids: Option<seq<Num>>): seq<Param> {
    if ids.Some? then Each(name, ids.value) else []
  }

  /** A string option: one pair when truthy, nothing otherwise. */
  function TextParam(name: string, v: Option<string>): seq<Param> {
    if Present(v) then [Param(name, v.value)] else []
  }

  /** A number option: one pair when truthy, nothing otherwise. */
  function NumParam(name: string, v: Option<Num>): seq<Param> {
    if PresentNum(v) then [Param(name, NumText(v.value))] else []
  }

  const IssueParamNames: seq<string> :=
    ["projectId[]", "issueTypeId[]", "statusId[]", "priorityId[]", "assigneeId[]",
     "keyword", "count", "offset", "sort", "order"]

  /** The groups of the search query, in the order `getIssues` adds them. */
  function IssueGroups(o: IssueOptions): seq<seq<Param>> {
    [Listed("projectId[]", o.projectId), Listed("issueTypeId[]", o.issueTypeId),
     Listed("statusId[]", o.statusId), Listed("priorityId[]", o.priorityId),
     Listed("assigneeId[]", o.assigneeId),
     TextParam("keyword", o.keyword), NumParam("count", o.count), NumParam("offset", o.offset),
     TextParam("sort", o.sort), TextParam("order", o.order)]
  }

  /** The query pairs of an issue search. */
  function IssueParams(o: IssueOptions): seq<Param> {
    Flatten(IssueGroups(o))
  }

  lemma ListedUniform(name: string, ids: Option<seq<Num>>)
    ensures Uniform(Listed(name, ids), name)
  {
    if ids.Some? {
      EachSpec(name, ids.value);
    }
  }

  lemma IssueParamNamesDistinct()
    ensures Distinct(IssueParamNames)
  {
  }

  lemma IssueGroupsGrouped(o: IssueOptions)
    ensures Grouped(IssueGroups(o), IssueParamNames) && Distinct(IssueParamNames)
  {
    IssueParamNamesDistinct();
    var gs := IssueGroups(o);
    ListedUniform("projectId[]", o.projectId);
    ListedUniform("issueTypeId[]", o.issueTypeId);
    ListedUniform("statusId[]", o.statusId);
    ListedUniform("priorityId[]", o.priorityId);
    ListedUniform("assigneeId[]", o.assigneeId);
    TextUniform("keyword", o.keyword);
    NumUniform("count", o.count);
    NumUniform("offset", o.offset);
    TextUniform("sort", o.sort);
    TextUniform("order", o.order);
    assert |gs| == |IssueParamNames| == 10;
  }

  lemma TextUniform(name: string, v: Option<string>)
    ensures Uniform(TextParam(name, v), name)
  {
  }

  lemma NumUniform(name: string, v: Option<Num>)
    ensures Uniform(NumParam(name, v), name)
  {
  }

  // The builders as the source writes them: one `URLSearchParams` call per step.

  /** `if (ids) ids.forEach(id => params.append(name, …))`. */
  function AppendList(ps: seq<Param>, name: string, ids: Option<seq<Num>>): seq<Param> {
    if ids.Some? then ps + Each(name, ids.value) else ps
  }

  /** `if (v) params.set(name, v)` on a string option. */
  function SetText(ps: seq<Param>, name: string, v: Option<string>): seq<Param> {
    if Present(v) then SetPair(ps, name, v.value) else ps
  }

  /** `if (v) params.set(name, v.toString())` on a number option. */
  function SetNum(ps: seq<Param>, name: string, v: Option<Num>): seq<Param> {
    if PresentNum(v) then SetPair(ps, name, NumText(v.value)) else ps
  }

  lemma ListStep(gs: seq<seq<Param>>, names: seq<string>, k: nat, ids: Option<seq<Num>>)
    requires Grouped(gs, names) && k < |gs| && gs[k] == Listed(names[k], ids)
    ensures AppendList(Prefix(gs, k), names[k], ids) == Prefix(gs, k + 1)
  {
    if ids.None? {
      assert Prefix(gs, k) + [] == Prefix(gs, k);
    }
  }

  lemma TextStep(gs: seq<seq<Param>>, names: seq<string>, k: nat, v: Option<string>)
    requires Grouped(gs, names) && Distinct(names) && k < |gs| && gs[k] == TextParam(names[k], v)
    ensures SetText(Prefix(gs, k), names[k], v) == Prefix(gs, k + 1)
  {
    if Present(v) {
      SetFreshStep(gs, names, k, v.value);
    } else {
      assert Prefix(gs, k) + [] == Prefix(gs, k);
    }
  }

  lemma NumStep(gs: seq<seq<Param>>, names: seq<string>, k: nat, v: Option<Num>)
    requires Grouped(gs, names) && Distinct(names) && k < |gs| && gs[k] == NumParam(names[k], v)
    ensures SetNum(Prefix(gs, k), names[k], v) == Prefix(gs, k + 1)
  {
    if PresentNum(v) {
      SetFreshStep(gs, names, k, NumText(v.value));
    } else {
      assert Prefix(gs, k) + [] == Prefix(gs, k);
    }
  }

  /** No list filter has an element and no scalar option is truthy. */
  predicate NoSearch(o: IssueOptions) {
    (o.projectId.None? || o.projectId.value == []) &&
    (o.issueTypeId.None? || o.issueTypeId.value == []) &&
    (o.statusId.None? || o.statusId.value == []) &&
    (o.priorityId.None? || o.priorityId.value == []) &&
    (o.assigneeId.None? || o.assigneeId.value == []) &&
    !Present(o.keyword) && !PresentNum(o.count) && !PresentNum(o.offset) &&
    !Present(o.sort) && !Present(o.order)
  }

  /** Step `k` of `getIssues` applied to the pairs so far. */
  function IssueStep(o: IssueOptions, k: nat, ps: seq<Param>): seq<Param>
    requires k < 10
  {
    match k
    case 0 => AppendList(ps, "projectId[]", o.projectId)
    case 1 => AppendList(ps, "issueTypeId[]", o.issueTypeId)
    case 2 => AppendList(ps, "statusId[]", o.statusId)
    case 3 => AppendList(ps, "priorityId[]", o.priorityId)
    case 4 => AppendList(ps, "assigneeId[]", o.assigneeId)
    case 5 => SetText(ps, "keyword", o.keyword)
    case 6 => SetNum(ps, "count", o.count)
    case 7 => SetNum(ps, "offset", o.offset)
    case 8 => SetText(ps, "sort", o.sort)
    case _ => SetText(ps, "order", o.order)
  }

  /** The pairs after the first `k` steps of `getIssues`. */
  function IssueBuilt(o: IssueOptions, k: nat): seq<Param>
    requires k <= 10
  {
    if k == 0 then [] else IssueStep(o, k - 1, IssueBuilt(o, k - 1))
  }

  /** Because every name is new when it is set, `set` behaves as `append`: the steps build the grouped query. */
  lemma {:induction false} IssueBuiltGroups(o: IssueOptions, k: nat)
    requires k <= 10
    ensures IssueBuilt(o, k) == Prefix(IssueGroups(o), k)
  {
    if k > 0 {
      IssueBuiltGroups(o, k - 1);
      IssueStepGroup(o, k - 1);
    }
  }

  lemma IssueStepGroup(o: IssueOptions, k: nat)
    requires k < 10
    ensures IssueStep(o, k, Prefix(IssueGroups(o), k)) == Prefix(IssueGroups(o), k + 1)
  {
    var gs, names := IssueGroups(o), IssueParamNames;
    IssueGroupsGrouped(o);
    match k
    case 0 => ListStep(gs, names, k, o.projectId);
    case 1 => ListStep(gs, names, k, o.issueTypeId);
    case 2 => ListStep(gs, names, k, o.statusId);
    case 3 => ListStep(gs, names, k, o.priorityId);
    case 4 => ListStep(gs, names, k, o.assigneeId);
    case 5 => TextStep(gs, names, k, o.keyword);
    case 6 => NumStep(gs, names, k, o.count);
    case 7 => NumStep(gs, names, k, o.offset);
    case 8 => TextStep(gs, names, k, o.sort);
    case _ => TextStep(gs, names, k, o.order);
  }

  /** `getIssues` fills a fresh `URLSearchParams`: `append` per list element, `set` per truthy scalar. */
  method IssueSearchParams(o: IssueOptions) returns (query: seq<Param>)
    ensures query == IssueParams(o)
  {
    var params := new SearchParams();
    AppendListed(params, "projectId[]", o.projectId);
    assert params.list == IssueBuilt(o, 1);
    AppendListed(params, "issueTypeId[]", o.issueTypeId);
    assert params.list == IssueBuilt(o, 2);
    AppendListed(params, "statusId[]", o.statusId);
    assert params.list == IssueBuilt(o, 3);
    AppendListed(params, "priorityId[]", o.priorityId);
    assert params.list == IssueBuilt(o, 4);
    AppendListed(params, "assigneeId[]", o.assigneeId);
    assert params.list == IssueBuilt(o, 5);
    SetPresentText(params, "keyword", o.keyword);
    assert params.list == IssueBuilt(o, 6);
    SetPresentNum(params, "count", o.count);
    assert params.list == IssueBuilt(o, 7);
    SetPresentNum(params, "offset", o.offset);
    assert params.list == IssueBuilt(o, 8);
    SetPresentText(params, "sort", o.sort);
    assert params.list == IssueBuilt(o, 9);
    SetPresentText(params, "order", o.order);
    assert params.list == IssueBuilt(o, 10);
    IssueBuiltGroups(o, 10);
    query := params.list;
  }

  /** `if (ids) ids.forEach(id => params.append(name, id.toString()))`. */
  method AppendListed(params: SearchParams, name: string, ids: Option<seq<Num>>)
    modifies params
    ensures params.list == AppendList(old(params.list), name, ids)
  {
    if ids.Some? {
      AppendEach(params, name, ids.value);
    }
  }

  /** `if (v) params.set(name, v)`. */
  method SetPresentText(params: SearchParams, name: string, v: Option<string>)
    modifies params
    ensures params.list == SetText(old(params.list), name, v)
  {
    if Present(v) {
      params.Set(name, v.value);
    }
  }

  /** `if (v) params.set(name, v.toString())`. */
  method SetPresentNum(params: SearchParams, name: string, v: Option<Num>)
    modifies params
    ensures params.list == SetNum(old(params.list), name, v)
  {
    if PresentNum(v) {
      params.Set(name, NumText(v.value));
    }
  }

  /** `ids.forEach(id => params.append(name, id.toString()))`. */
  method AppendEach(params: SearchParams, name: string, ids: seq<Num>)
    modifies params
    ensures params.list == old(params.list) + Each(name, ids)
  {
    for i := 0 to |ids|
      invariant params.list == old(params.list) + Each(name, ids[..i])
    {
      assert ids[..i + 1][..i] == ids[..i];
      params.Append(name, NumText(ids[i]));
    }
    assert ids[..|ids|] == ids;
  }

  /** Each filter contributes exactly its own pairs, and falsy scalars contribute none. */
  lemma IssueParamsByName(o: IssueOptions)
    ensures Only(IssueParams(o), "projectId[]") == Listed("projectId[]", o.projectId)
    ensures Only(IssueParams(o), "issueTypeId[]") == Listed("issueTypeId[]", o.issueTypeId)
    ensures Only(IssueParams(o), "statusId[]") == Listed("statusId[]", o.statusId)
    ensures Only(IssueParams(o), "priorityId[]") == Listed("priorityId[]", o.priorityId)
    ensures Only(IssueParams(o), "assigneeId[]") == Listed("assigneeId[]", o.assigneeId)
    ensures Only(IssueParams(o), "keyword") == TextParam("keyword", o.keyword)
    ensures Only(IssueParams(o), "count") == NumParam("count", o.count)
    ensures Only(IssueParams(o), "offset") == NumParam("offset", o.offset)
    ensures Only(IssueParams(o), "sort") == TextParam("sort", o.sort)
    ensures Only(IssueParams(o), "order") == TextParam("order", o.order)
  {
    var gs := IssueGroups(o);
    IssueGroupsGrouped(o);
    FlattenOnly(gs, IssueParamNames, 0);
    FlattenOnly(gs, IssueParamNames, 1);
    FlattenOnly(gs, IssueParamNames, 2);
    FlattenOnly(gs, IssueParamNames, 3);
    FlattenOnly(gs, IssueParamNames, 4);
    FlattenOnly(gs, IssueParamNames, 5);
    FlattenOnly(gs, IssueParamNames, 6);
    FlattenOnly(gs, IssueParamNames, 7);
    FlattenOnly(gs, IssueParamNames, 8);
    FlattenOnly(gs, IssueParamNames, 9);
  }

  /**
   * Only the ten option names are sent, and their groups appear in the fixed order projectId[],
   * issueTypeId[], statusId[], priorityId[], assigneeId[], keyword, count, offset, sort, order.
   */
  lemma IssueParamsOrdered(o: IssueOptions)
    ensures forall i :: 0 <= i < |IssueParams(o)| ==> IssueParams(o)[i].name in IssueParamNames
    ensures forall i, j, a, b ::
      (0 <= i < j < |IssueParams(o)| && 0 <= a < |IssueParamNames| && 0 <= b < |IssueParamNames| &&
       IssueParams(o)[i].name == IssueParamNames[a] && IssueParams(o)[j].name == IssueParamNames[b]) ==> a <= b
  {
    IssueGroupsGrouped(o);
    FlattenNames(IssueGroups(o), IssueParamNames);
    FlattenOrdered(IssueGroups(o), IssueParamNames);
  }

  /** A scalar option that is sent never carries an empty, zero or NaN value. */
  lemma IssueParamsNoFalsyValues(o: IssueOptions)
    ensures forall i :: 0 <= i < |IssueParams(o)| && IssueParams(o)[i].name in {"keyword", "sort", "order"} ==>
      IssueParams(o)[i].value != ""
    ensures forall i :: 0 <= i < |IssueParams(o)| && IssueParams(o)[i].name in {"count", "offset"} ==>
      IssueParams(o)[i].value != "0" && IssueParams(o)[i].value != "NaN"
  {
    var r := IssueParams(o);
    IssueParamsByName(o);
    forall i | 0 <= i < |r| && r[i].name in {"keyword", "sort", "order", "count", "offset"}
      ensures r[i].name in {"keyword", "sort", "order"} ==> r[i].value != ""
      ensures r[i].name in {"count", "offset"} ==> r[i].value != "0" && r[i].value != "NaN"
    {
      OnlyContains(r, r[i].name, i);
      if r[i].name == "count" { TruthyNumText(o.count.value); }
      if r[i].name == "offset" { TruthyNumText(o.offset.value); }
    }
  }

  /** With no search option the endpoint is the bare `issues`; otherwise `issues?` and the serialised pairs. */
  function IssuesEndpoint(o: IssueOptions): (e: Endpoint)
    ensures e.path == "issues" && e.query == IssueParams(o)
    ensures e.query == [] <==> NoSearch(o)
  {
    IssueParamsEmpty(o);
    Endpoint("issues", IssueParams(o))
  }

  lemma IssueParamsEmpty(o: IssueOptions)
    ensures IssueParams(o) == [] <==> NoSearch(o)
  {
    var gs := IssueGroups(o);
    PrefixEmpty(gs, |gs|);
    if NoSearch(o) {
      forall k | 0 <= k < |gs| ensures gs[k] == [] {
        assert k == 0 || k == 1 || k == 2 || k == 3 || k == 4 || k == 5 || k == 6 || k == 7 || k == 8 || k == 9;
      }
    } else {
      assert gs[0] != [] || gs[1] != [] || gs[2] != [] || gs[3] != [] || gs[4] != [] ||
             gs[5] != [] || gs[6] != [] || gs[7] != [] || gs[8] != [] || gs[9] != [];
    }
  }

  /** No search option is named `apiKey`, so the key `callApi` sets is always a new, last pair. */
  lemma IssueParamsNoKey(o: IssueOptions)
    ensures !Named(IssueParams(o), "apiKey")
  {
    IssueGroupsGrouped(o);
    PrefixNames(IssueGroups(o), IssueParamNames, 10);
    assert "apiKey" !in IssueParamNames[..10];
  }

  lemma IssuesEndpointText(enc: string -> string, o: IssueOptions)
    ensures NoSearch(o) ==> Render(enc, IssuesEndpoint(o)) == "issues"
    ensures !NoSearch(o) ==> Render(enc, IssuesEndpoint(o)) == "issues?" + Serialize(enc, IssueParams(o))
  {
  }

  lemma {:induction false} OnlyContains(ps: seq<Param>, n: string, i: nat)
    requires i < |ps| && ps[i].name == n
    ensures ps[i] in Only(ps, n)
  {
    if i > 0 {
      OnlyContains(ps[1..], n, i - 1);
    }
  }

  // ---------------------------------------------------------------------------
  // Form bodies (`createIssue`, `updateIssue`, `addComment`)

  /** `CreateIssueParams` as the parsed payload: four required fields, four optional. */
  datatype CreateIssueParams = CreateIssueParams(
    projectId: Num,
    summary: string,
    issueTypeId: Num,
    priorityId: Num,
    description: Option<string>,
    assigneeId: Option<Num>,
    dueDate: Option<string>,
    startDate: Option<string>)

  const CreateFieldNames: seq<string> :=
    ["projectId", "summary", "issueTypeId", "priorityId", "description", "assigneeId", "dueDate", "startDate"]

  function CreateGroups(p: CreateIssueParams): seq<seq<Param>> {
    [[Param("projectId", NumText(p.projectId))], [Param("summary", p.summary)],
     [Param("issueTypeId", NumText(p.issueTypeId))], [Param("priorityId", NumText(p.priorityId))],
     TextParam("description", p.description), NumParam("assigneeId", p.assigneeId),
     TextParam("dueDate", p.dueDate), TextParam("startDate", p.startDate)]
  }

  /** The form body of `createIssue`. */
  function CreateIssueForm(p: CreateIssueParams): seq<Param> {
    Flatten(CreateGroups(p))
  }

  lemma CreateGroupsGrouped(p: CreateIssueParams)
    ensures Grouped(CreateGroups(p), CreateFieldNames) && Distinct(CreateFieldNames)
  {
    TextUniform("description", p.description);
    NumUniform("assigneeId", p.assigneeId);
    TextUniform("dueDate", p.dueDate);
    TextUniform("startDate", p.startDate);
    assert |CreateGroups(p)| == |CreateFieldNames| == 8;
  }

  /** Step `k` of `createIssue` applied to the pairs so far. */
  function CreateStep(p: CreateIssueParams, k: nat, ps: seq<Param>): seq<Param>
    requires k < 8
  {
    match k
    case 0 => SetPair(ps, "projectId", NumText(p.projectId))
    case 1 => SetPair(ps, "summary", p.summary)
    case 2 => SetPair(ps, "issueTypeId", NumText(p.issueTypeId))
    case 3 => SetPair(ps, "priorityId", NumText(p.priorityId))
    case 4 => SetText(ps, "description", p.description)
    case 5 => SetNum(ps, "assigneeId", p.assigneeId)
    case 6 => SetText(ps, "dueDate", p.dueDate)
    case _ => SetText(ps, "startDate", p.startDate)
  }

  function CreateBuilt(p: CreateIssueParams, k: nat): seq<Param>
    requires k <= 8
  {
    if k == 0 then [] else CreateStep(p, k - 1, CreateBuilt(p, k - 1))
  }

  lemma {:induction false} CreateBuiltGroups(p: CreateIssueParams, k: nat)
    requires k <= 8
    ensures CreateBuilt(p, k) == Prefix(CreateGroups(p), k)
  {
    if k > 0 {
      CreateBuiltGroups(p, k - 1);
      CreateStepGroup(p, k - 1);
    }
  }

  lemma CreateStepGroup(p: CreateIssueParams, k: nat)
    requires k < 8
    ensures CreateStep(p, k, Prefix(CreateGroups(p), k)) == Prefix(CreateGroups(p), k + 1)
  {
    var gs, names := CreateGroups(p), CreateFieldNames;
    CreateGroupsGrouped(p);
    match k
    case 0 => SetFreshStep(gs, names, k, NumText(p.projectId));
    case 1 => SetFreshStep(gs, names, k, p.summary);
    case 2 => SetFreshStep(gs, names, k, NumText(p.issueTypeId));
    case 3 => SetFreshStep(gs, names, k, NumText(p.priorityId));
    case 4 => TextStep(gs, names, k, p.description);
    case 5 => NumStep(gs, names, k, p.assigneeId);
    case 6 => TextStep(gs, names, k, p.dueDate);
    case _ => TextStep(gs, names, k, p.startDate);
  }

  /** `createIssue` fills a fresh `URLSearchParams` with `set`, the optionals only when truthy. */
  method FillCreateIssueForm(p: CreateIssueParams) returns (form: seq<Param>)
    ensures form == CreateIssueForm(p)
  {
    var formData := new SearchParams();
    formData.Set("projectId", NumText(p.projectId));
    assert formData.list == CreateBuilt(p, 1);
    formData.Set("summary", p.summary);
    assert formData.list == CreateBuilt(p, 2);
    formData.Set("issueTypeId", NumText(p.issueTypeId));
    assert formData.list == CreateBuilt(p, 3);
    formData.Set("priorityId", NumText(p.priorityId));
    assert formData.list == CreateBuilt(p, 4);
    SetPresentText(formData, "description", p.description);
    assert formData.list == CreateBuilt(p, 5);
    SetPresentNum(formData, "assigneeId", p.assigneeId);
    assert formData.list == CreateBuilt(p, 6);
    SetPresentText(formData, "dueDate", p.dueDate);
    assert formData.list == CreateBuilt(p, 7);
    SetPresentText(formData, "startDate", p.startDate);
    assert formData.list == CreateBuilt(p, 8);
    CreateBuiltGroups(p, 8);
    form := formData.list;
  }

  /**
   * The create form is the four required fields in order, then each truthy optional in the order
   * description, assigneeId, dueDate, startDate, and nothing else.
   */
  lemma CreateIssueFormPairs(p: CreateIssueParams)
    ensures CreateIssueForm(p) ==
      [Param("projectId", NumText(p.projectId)), Param("summary", p.summary),
       Param("issueTypeId", NumText(p.issueTypeId)), Param("priorityId", NumText(p.priorityId))] +
      TextParam("description", p.description) + NumParam("assigneeId", p.assigneeId) +
      TextParam("dueDate", p.dueDate) + TextParam("startDate", p.startDate)
  {
    FlattenEight(CreateGroups(p));
  }

  /** No pair of the create form carries a name other than the eight fields. */
  lemma CreateIssueFormNames(p: CreateIssueParams)
    ensures forall i :: 0 <= i < |CreateIssueForm(p)| ==> CreateIssueForm(p)[i].name in CreateFieldNames
  {
    CreateGroupsGrouped(p);
    FlattenNames(CreateGroups(p), CreateFieldNames);
  }

  /** The create form starts with the four required fields in order; each optional is there exactly when truthy. */
  lemma CreateIssueFormShape(p: CreateIssueParams)
    ensures |CreateIssueForm(p)| >= 4
    ensures CreateIssueForm(p)[..4] ==
      [Param("projectId", NumText(p.projectId)), Param("summary", p.summary),
       Param("issueTypeId", NumText(p.issueTypeId)), Param("priorityId", NumText(p.priorityId))]
    ensures Only(CreateIssueForm(p), "description") == TextParam("description", p.description)
    ensures Only(CreateIssueForm(p), "assigneeId") == NumParam("assigneeId", p.assigneeId)
    ensures Only(CreateIssueForm(p), "dueDate") == TextParam("dueDate", p.dueDate)
    ensures Only(CreateIssueForm(p), "startDate") == TextParam("startDate", p.startDate)
  {
    var gs := CreateGroups(p);
    CreateGroupsGrouped(p);
    FlattenOnly(gs, CreateFieldNames, 4);
    FlattenOnly(gs, CreateFieldNames, 5);
    FlattenOnly(gs, CreateFieldNames, 6);
    FlattenOnly(gs, CreateFieldNames, 7);
    PrefixGrows(gs, 4, 8);
    assert Prefix(gs, 1) == gs[0];
    assert Prefix(gs, 2) == gs[0] + gs[1];
    assert Prefix(gs, 3) == gs[0] + gs[1] + gs[2];
    assert Prefix(gs, 4) == gs[0] + gs[1] + gs[2] + gs[3];
  }

  /** `UpdateIssueParams` as the parsed payload: every field optional. */
  datatype UpdateIssueParams = UpdateIssueParams(
    summary: Option<string>,
    description: Option<string>,
    statusId: Option<Num>,
    priorityId: Option<Num>,
    assigneeId: Option<Num>,
    dueDate: Option<string>,
    comment: Option<string>)

  const UpdateFieldNames: seq<string> :=
    ["summary", "description", "statusId", "priorityId", "assigneeId", "dueDate", "comment"]

  function UpdateGroups(p: UpdateIssueParams): seq<seq<Param>> {
    [TextParam("summary", p.summary), TextParam("description", p.description),
     NumParam("statusId", p.statusId), NumParam("priorityId", p.priorityId),
     NumParam("assigneeId", p.assigneeId), TextParam("dueDate", p.dueDate),
     TextParam("comment", p.comment)]
  }

  /** The form body of `updateIssue`. */
  function UpdateIssueForm(p: UpdateIssueParams): seq<Param> {
    Flatten(UpdateGroups(p))
  }

  lemma UpdateGroupsGrouped(p: UpdateIssueParams)
    ensures Grouped(UpdateGroups(p), UpdateFieldNames) && Distinct(UpdateFieldNames)
  {
    TextUniform("summary", p.summary);
    TextUniform("description", p.description);
    NumUniform("statusId", p.statusId);
    NumUniform("priorityId", p.priorityId);
    NumUniform("assigneeId", p.assigneeId);
    TextUniform("dueDate", p.dueDate);
    TextUniform("comment", p.comment);
    assert |UpdateGroups(p)| == |UpdateFieldNames| == 7;
  }

  /** Step `k` of `updateIssue` applied to the pairs so far. */
  function UpdateStep(p: UpdateIssueParams, k: nat, ps: seq<Param>): seq<Param>
    requires k < 7
  {
    match k
    case 0 => SetText(ps, "summary", p.summary)
    case 1 => SetText(ps, "description", p.description)
    case 2 => SetNum(ps, "statusId", p.statusId)
    case 3 => SetNum(ps, "priorityId", p.priorityId)
    case 4 => SetNum(ps, "assigneeId", p.assigneeId)
    case 5 => SetText(ps, "dueDate", p.dueDate)
    case _ => SetText(ps, "comment", p.comment)
  }

  function UpdateBuilt(p: UpdateIssueParams, k: nat): seq<Param>
    requires k <= 7
  {
    if k == 0 then [] else UpdateStep(p, k - 1, UpdateBuilt(p, k - 1))
  }

  lemma {:induction false} UpdateBuiltGroups(p: UpdateIssueParams, k: nat)
    requires k <= 7
    ensures UpdateBuilt(p, k) == Prefix(UpdateGroups(p), k)
  {
    if k > 0 {
      UpdateBuiltGroups(p, k - 1);
      UpdateStepGroup(p, k - 1);
    }
  }

  lemma UpdateStepGroup(p: UpdateIssueParams, k: nat)
    requires k < 7
    ensures UpdateStep(p, k, Prefix(UpdateGroups(p), k)) == Prefix(UpdateGroups(p), k + 1)
  {
    var gs, names := UpdateGroups(p), UpdateFieldNames;
    UpdateGroupsGrouped(p);
    match k
    case 0 => TextStep(gs, names, k, p.summary);
    case 1 => TextStep(gs, names, k, p.description);
    case 2 => NumStep(gs, names, k, p.statusId);
    case 3 => NumStep(gs, names, k, p.priorityId);
    case 4 => NumStep(gs, names, k, p.assigneeId);
    case 5 => TextStep(gs, names, k, p.dueDate);
    case _ => TextStep(gs, names, k, p.comment);
  }

  /** `updateIssue` fills a fresh `URLSearchParams` with `set`, each field only when truthy. */
  method FillUpdateIssueForm(p: UpdateIssueParams) returns (form: seq<Param>)
    ensures form == UpdateIssueForm(p)
  {
    var formData := new SearchParams();
    SetPresentText(formData, "summary", p.summary);
    assert formData.list == UpdateBuilt(p, 1);
    SetPresentText(formData, "description", p.description);
    assert formData.list == UpdateBuilt(p, 2);
    SetPresentNum(formData, "statusId", p.statusId);
    assert formData.list == UpdateBuilt(p, 3);
    SetPresentNum(formData, "priorityId", p.priorityId);
    assert formData.list == UpdateBuilt(p, 4);
    SetPresentNum(formData, "assigneeId", p.assigneeId);
    assert formData.list == UpdateBuilt(p, 5);
    SetPresentText(formData, "dueDate", p.dueDate);
    assert formData.list == UpdateBuilt(p, 6);
    SetPresentText(formData, "comment", p.comment);
    assert formData.list == UpdateBuilt(p, 7);
    UpdateBuiltGroups(p, 7);
    form := formData.list;
  }

  /** Nothing truthy in an update payload. */
  predicate NoUpdate(p: UpdateIssueParams) {
    !Present(p.summary) && !Present(p.description) && !PresentNum(p.statusId) &&
    !PresentNum(p.priorityId) && !PresentNum(p.assigneeId) && !Present(p.dueDate) && !Present(p.comment)
  }

  /** The update form is each truthy field in the order of `updateIssue`, and nothing else. */
  lemma UpdateIssueFormPairs(p: UpdateIssueParams)
    ensures UpdateIssueForm(p) ==
      TextParam("summary", p.summary) + TextParam("description", p.description) +
      NumParam("statusId", p.statusId) + NumParam("priorityId", p.priorityId) +
      NumParam("assigneeId", p.assigneeId) + TextParam("dueDate", p.dueDate) +
      TextParam("comment", p.comment)
  {
    FlattenSeven(UpdateGroups(p));
  }

  /** The update form holds exactly the truthy fields, so an empty payload gives an empty body. */
  lemma UpdateIssueFormShape(p: UpdateIssueParams)
    ensures forall i :: 0 <= i < |UpdateIssueForm(p)| ==> UpdateIssueForm(p)[i].name in UpdateFieldNames
    ensures UpdateIssueForm(p) == [] <==> NoUpdate(p)
    ensures Only(UpdateIssueForm(p), "summary") == TextParam("summary", p.summary)
    ensures Only(UpdateIssueForm(p), "description") == TextParam("description", p.description)
    ensures Only(UpdateIssueForm(p), "statusId") == NumParam("statusId", p.statusId)
    ensures Only(UpdateIssueForm(p), "priorityId") == NumParam("priorityId", p.priorityId)
    ensures Only(UpdateIssueForm(p), "assigneeId") == NumParam("assigneeId", p.assigneeId)
    ensures Only(UpdateIssueForm(p), "dueDate") == TextParam("dueDate", p.dueDate)
    ensures Only(UpdateIssueForm(p), "comment") == TextParam("comment", p.comment)
  {
    var gs := UpdateGroups(p);
    UpdateGroupsGrouped(p);
    FlattenNames(gs, UpdateFieldNames);
    PrefixEmpty(gs, |gs|);
    if NoUpdate(p) {
      forall k | 0 <= k < |gs| ensures gs[k] == [] {
        assert k == 0 || k == 1 || k == 2 || k == 3 || k == 4 || k == 5 || k == 6;
      }
    } else {
      assert gs[0] != [] || gs[1] != [] || gs[2] != [] || gs[3] != [] || gs[4] != [] ||
             gs[5] != [] || gs[6] != [];
    }
    FlattenOnly(gs, UpdateFieldNames, 0);
    FlattenOnly(gs, UpdateFieldNames, 1);
    FlattenOnly(gs, UpdateFieldNames, 2);
    FlattenOnly(gs, UpdateFieldNames, 3);
    FlattenOnly(gs, UpdateFieldNames, 4);
    FlattenOnly(gs, UpdateFieldNames, 5);
    FlattenOnly(gs, UpdateFieldNames, 6);
  }

  /** `addComment`: a fresh `URLSearchParams` with the one `content` pair, whatever the content. */
  method FillCommentForm(content: string) returns (form: seq<Param>)
    ensures form == [Param("content", content)]
  {
    var formData := new SearchParams();
    formData.Set("content", content);
    form := formData.list;
  }

  // ---------------------------------------------------------------------------
  // The request itself (`callApi` and the three form posts)

  datatype Verb = Get | Post | Patch

  /** Which code path sends the request: `callApi`, or one of the form posts. */
  datatype Sender = CallApi | FormPost

  const JsonType := "application/json"
  const FormType := "application/x-www-form-urlencoded"

  function ContentType(sender: Sender): string {
    match sender
    case CallApi => JsonType
    case FormPost => FormType
  }

  /** A parsed `https` URL: host, path and the query pairs of its `searchParams`. */
  datatype Url = Url(host: string, path: string, query: seq<Param>)

  /**
   * `new URL(`https://${domain}/api/v2/${endpoint}`)` followed by
   * `url.searchParams.set("apiKey", apiKey)`.
   */
  function RequestUrl(cfg: Config, e: Endpoint): (u: Url)
    ensures u.host == cfg.domain && u.path == "/api/v2/" + e.path
    ensures Count(u.query, "apiKey") == 1 && Param("apiKey", cfg.apiKey) in u.query
    ensures Without(u.query, "apiKey") == Without(e.query, "apiKey")
    ensures !Named(e.query, "apiKey") ==> u.query == e.query + [Param("apiKey", cfg.apiKey)]
  {
    SetPairSpec(e.query, "apiKey", cfg.apiKey);
    Url(cfg.domain, "/api/v2/" + e.path, SetPair(e.query, "apiKey", cfg.apiKey))
  }

  /** `url.toString()`: the query is never empty once the key is set. */
  function UrlText(enc: string -> string, u: Url): string {
    "https://" + u.host + u.path + "?" + Serialize(enc, u.query)
  }

  /** The text of a URL whose query ends with one more pair. */
  lemma AppendedUrlText(enc: string -> string, host: string, path: string, q: seq<Param>, p: Param)
    ensures q == [] ==>
      UrlText(enc, Url(host, "/api/v2/" + path, q + [p])) == "https://" + host + "/api/v2/" + path + "?" + PairText(enc, p)
    ensures q != [] ==>
      UrlText(enc, Url(host, "/api/v2/" + path, q + [p])) ==
      "https://" + host + "/api/v2/" + path + "?" + Serialize(enc, q) + "&" + PairText(enc, p)
  {
    var start := "https://" + host;
    assert start + ("/api/v2/" + path) == start + "/api/v2/" + path;
    SerializeAppended(enc, q, p);
    if q == [] {
      assert [] + [p] == [p];
    }
  }

  /** The key goes after whatever query the endpoint already carries. */
  lemma RequestUrlText(enc: string -> string, cfg: Config, e: Endpoint)
    requires !Named(e.query, "apiKey")
    ensures e.query == [] ==>
      UrlText(enc, RequestUrl(cfg, e)) == "https://" + cfg.domain + "/api/v2/" + e.path + "?" + PairText(enc, Param("apiKey", cfg.apiKey))
    ensures e.query != [] ==>
      UrlText(enc, RequestUrl(cfg, e)) == "https://" + cfg.domain + "/api/v2/" + e.path + "?" + Serialize(enc, e.query) +
                                          "&" + PairText(enc, Param("apiKey", cfg.apiKey))
  {
    var key := Param("apiKey", cfg.apiKey);
    assert RequestUrl(cfg, e) == Url(cfg.domain, "/api/v2/" + e.path, e.query + [key]);
    AppendedUrlText(enc, cfg.domain, e.path, e.query, key);
  }

  /** One planned HTTP request; `form` is the urlencoded body of a form post. */
  datatype Request = Request(verb: Verb, url: Url, sender: Sender, form: Option<seq<Param>>)

  /** Every getter goes through `callApi` with the default method and no body. */
  function ApiGet(cfg: Config, e: Endpoint): (r: Request)
    ensures r.verb == Get && r.sender == CallApi && r.form.None?
    ensures r.url == RequestUrl(cfg, e)
  {
    Request(Get, RequestUrl(cfg, e), CallApi, None)
  }

  /** The issue search goes to `/api/v2/issues` with the search pairs, then the key. */
  lemma IssuesRequestUrl(cfg: Config, o: IssueOptions)
    ensures ApiGet(cfg, IssuesEndpoint(o)).url ==
      Url(cfg.domain, "/api/v2/" + "issues", IssueParams(o) + [Param("apiKey", cfg.apiKey)])
  {
    IssueParamsNoKey(o);
  }

  /** The notifications list goes to `/api/v2/notifications` with the count, then the key. */
  lemma NotificationsRequestUrl(cfg: Config, count: Num)
    ensures ApiGet(cfg, NotificationsEndpoint(count)).url ==
      Url(cfg.domain, "/api/v2/" + "notifications", [Param("count", NumText(count)), Param("apiKey", cfg.apiKey)])
  {
    assert !Named(NotificationsEndpoint(count).query, "apiKey");
  }

  /** `createIssue`: POST to `issues` with the create form. */
  function CreateIssueRequest(cfg: Config, p: CreateIssueParams): (r: Request)
    ensures r.verb == Post && r.sender == FormPost && r.form == Some(CreateIssueForm(p))
    ensures r.url == Url(cfg.domain, "/api/v2/issues", [Param("apiKey", cfg.apiKey)])
  {
    Request(Post, RequestUrl(cfg, Endpoint("issues", [])), FormPost, Some(CreateIssueForm(p)))
  }

  /** `updateIssue`: PATCH to `issues/{id}` with the update form, which may be empty. */
  function UpdateIssueRequest(cfg: Config, issue: string, p: UpdateIssueParams): (r: Request)
    ensures r.verb == Patch && r.sender == FormPost && r.form == Some(UpdateIssueForm(p))
    ensures r.url == Url(cfg.domain, "/api/v2/issues/" + issue, [Param("apiKey", cfg.apiKey)])
  {
    Request(Patch, RequestUrl(cfg, Endpoint("issues/" + issue, [])), FormPost, Some(UpdateIssueForm(p)))
  }

  /** `addComment`: POST to `issues/{id}/comments` with the single `content` pair. */
  function AddCommentRequest(cfg: Config, issue: string, content: string): (r: Request)
    ensures r.verb == Post && r.sender == FormPost && r.form == Some([Param("content", content)])
    ensures r.url == Url(cfg.domain, "/api/v2/issues/" + issue + "/comments", [Param("apiKey", cfg.apiKey)])
  {
    Request(Post, RequestUrl(cfg, Endpoint("issues/" + issue + "/comments", [])), FormPost,
            Some([Param("content", content)]))
  }

  // ---------------------------------------------------------------------------
  // Error messages

  /** The `statusMessages` table of `callApi`; `""` for every other status. */
  function Hint(status: nat): (h: string)
    ensures h != "" <==> status in {400, 401, 403, 404, 429, 500}
  {
    if status == 400 then "Bad Request - Check your parameters"
    else if status == 401 then "Unauthorized - Check your API key"
    else if status == 403 then "Forbidden - You don't have permission"
    else if status == 404 then "Not Found - Resource doesn't exist or you don't have access"
    else if status == 429 then "Rate Limited - Too many requests, please wait"
    else if status == 500 then "Internal Server Error - Backlog server issue"
    else ""
  }

  /** `API Error ${status}${hint ? ` (${hint})` : ""}: ${errorText}`. */
  function ErrorText(status: nat, hint: string, text: string): string {
    "API Error " + NatText(status) + (if hint != "" then " (" + hint + ")" else "") + ": " + text
  }

  /** The message `callApi` throws for a non-2xx reply. */
  function ApiErrorMessage(status: nat, text: string): string {
    ErrorText(status, Hint(status), text)
  }

  /** The message the form posts throw for a non-2xx reply: never a hint. */
  function FormErrorMessage(status: nat, text: string): string {
    "API Error " + NatText(status) + ": " + text
  }

  /** The message ends with the body text, whatever the hint. */
  lemma ErrorTextEndsWithBody(status: nat, hint: string, text: string)
    ensures |text| <= |ErrorText(status, hint, text)|
    ensures ErrorText(status, hint, text)[|ErrorText(status, hint, text)| - |text|..] == text
  {
    var head := "API Error " + NatText(status) + (if hint != "" then " (" + hint + ")" else "") + ": ";
    assert ErrorText(status, hint, text) == head + text;
  }

  /** The two shapes of the `callApi` message, and the body text always last. */
  lemma ApiErrorMessageShape(status: nat, text: string)
    ensures status in {400, 401, 403, 404, 429, 500} ==>
      ApiErrorMessage(status, text) == "API Error " + NatText(status) + " (" + Hint(status) + ")" + ": " + text
    ensures status !in {400, 401, 403, 404, 429, 500} ==>
      ApiErrorMessage(status, text) == "API Error " + NatText(status) + ": " + text
    ensures |text| <= |ApiErrorMessage(status, text)|
    ensures ApiErrorMessage(status, text)[|ApiErrorMessage(status, text)| - |text|..] == text
  {
    var h := Hint(status);
    var n := "API Error " + NatText(status);
    if h != "" {
      assert ErrorText(status, h, text) == n + (" (" + h + ")") + ": " + text;
      assert n + (" (" + h + ")") == n + " (" + h + ")";
    }
    ErrorTextEndsWithBody(status, h, text);
  }

  /** The form-post message equals the `callApi` one exactly when the table has no hint for the status. */
  lemma FormErrorMessageAgrees(status: nat, text: string)
    ensures FormErrorMessage(status, text) == ApiErrorMessage(status, text) <==> Hint(status) == ""
    ensures |text| <= |FormErrorMessage(status, text)|
    ensures FormErrorMessage(status, text)[|FormErrorMessage(status, text)| - |text|..] == text
  {
    ErrorTextEndsWithBody(status, "", text);
    ErrorTextDiffers(status, Hint(status), text);
  }

  lemma ErrorTextDiffers(status: nat, hint: string, text: string)
    ensures hint != "" ==> ErrorText(status, hint, text) != ErrorText(status, "", text)
  {
    if hint != "" {
      var head := "API Error " + NatText(status);
      assert ErrorText(status, hint, text) == head + (" (" + hint + ")" + ": " + text);
      assert ErrorText(status, "", text) == head + (": " + text);
      assert ErrorText(status, hint, text)[|head|] == ' ';
    }
  }

  /** The status and the body can be read back from an error message whose hint is known from the status. */
  lemma ErrorTextInjective(s1: nat, h1: string, t1: string, s2: nat, h2: string, t2: string)
    requires ErrorText(s1, h1, t1) == ErrorText(s2, h2, t2)
    ensures s1 == s2 && (h1 == h2 ==> t1 == t2)
  {
    var head := "API Error ";
    var p1 := (if h1 != "" then " (" + h1 + ")" else "") + ": ";
    var p2 := (if h2 != "" then " (" + h2 + ")" else "") + ": ";
    assert ErrorText(s1, h1, t1) == head + (NatText(s1) + (p1 + t1));
    assert ErrorText(s2, h2, t2) == head + (NatText(s2) + (p2 + t2));
    SamePrefixRest(head, NatText(s1) + (p1 + t1), NatText(s2) + (p2 + t2));
    assert (p1 + t1)[0] == p1[0] && (p2 + t2)[0] == p2[0];
    NatTextPrefixUnique(s1, p1 + t1, s2, p2 + t2);
    if h1 == h2 {
      SamePrefixRest(p1, t1, t2);
    }
  }

  lemma SamePrefixRest(p: string, x: string, y: string)
    requires p + x == p + y
    ensures x == y
  {
    assert x == (p + x)[|p|..];
    assert y == (p + y)[|p|..];
  }

  /** Different statuses or bodies never give the same `callApi` message. */
  lemma ApiErrorMessageInjective(s1: nat, t1: string, s2: nat, t2: string)
    requires ApiErrorMessage(s1, t1) == ApiErrorMessage(s2, t2)
    ensures s1 == s2 && t1 == t2
  {
    ErrorTextInjective(s1, Hint(s1), t1, s2, Hint(s2), t2);
  }

  /** The message of a transport failure in `callApi`. */
  function NetworkErrorMessage(domain: string): string {
    "Network error: Unable to connect to " + domain + ". Check your internet connection and domain."
  }

  const NetworkPrefix := "Network error: Unable to connect to "

  /** The network message names the domain it could not reach, right after its fixed opening. */
  lemma NetworkErrorNamesDomain(domain: string)
    ensures var m := NetworkErrorMessage(domain);
      |m| > |NetworkPrefix| + |domain| && m[..|NetworkPrefix|] == NetworkPrefix &&
      m[|NetworkPrefix|..|NetworkPrefix| + |domain|] == domain
  {
  }

  /** Different domains give different network messages. */
  lemma NetworkErrorMessageInjective(d1: string, d2: string)
    requires NetworkErrorMessage(d1) == NetworkErrorMessage(d2)
    ensures d1 == d2
  {
    NetworkErrorNamesDomain(d1);
    NetworkErrorNamesDomain(d2);
  }

  /** A network failure is never reported like an HTTP error status. */
  lemma NetworkErrorNotApiError(domain: string, status: nat, text: string)
    ensures NetworkErrorMessage(domain) != ApiErrorMessage(status, text)
    ensures NetworkErrorMessage(domain) != FormErrorMessage(status, text)
  {
    assert NetworkErrorMessage(domain)[0] == 'N';
    assert ApiErrorMessage(status, text)[0] == 'A';
    assert FormErrorMessage(status, text)[0] == 'A';
  }

  // ---------------------------------------------------------------------------
  // Completing a request

  /**
   * What `fetch` gave: a reply with its status, its text, and what
   * `response.json()` makes of it (the result, or the message of the
   * `SyntaxError` it throws); or a rejected promise, recording whether the
   * error was a `TypeError`.
   */
  datatype Reply =
    | Answered(status: nat, text: string, json: Result<string, string>)
    | Unreachable(typeError: bool, message: string)

  /** How the request's promise settles: the JSON result, or an error with its class and message. */
  datatype Settled = Fulfilled(result: string) | Thrown(syntaxError: bool, message: string)

  predicate Ok(status: nat) {
    200 <= status <= 299
  }

  /** `callApi` or a form post, given what `fetch` produced. */
  function Complete(req: Request, reply: Reply): (s: Settled)
    ensures reply.Answered? && Ok(reply.status) && reply.json.Success? ==> s == Fulfilled(reply.json.value)
    ensures reply.Answered? && Ok(reply.status) && reply.json.Failure? ==> s == Thrown(true, reply.json.error)
    ensures reply.Answered? && !Ok(reply.status) && req.sender == CallApi ==>
      s == Thrown(false, ApiErrorMessage(reply.status, reply.text))
    ensures reply.Answered? && !Ok(reply.status) && req.sender == FormPost ==>
      s == Thrown(false, FormErrorMessage(reply.status, reply.text))
    ensures reply.Unreachable? && reply.typeError && req.sender == CallApi ==>
      s == Thrown(false, NetworkErrorMessage(req.url.host))
    ensures reply.Unreachable? && !(reply.typeError && req.sender == CallApi) ==> s == Thrown(false, reply.message)
  {
    match reply
    case Unreachable(typeError, message) =>
      if typeError && req.sender == CallApi then Thrown(false, NetworkErrorMessage(req.url.host))
      else Thrown(false, message)
    case Answered(status, text, json) =>
      if !Ok(status) then
        Thrown(false, if req.sender == CallApi then ApiErrorMessage(status, text) else FormErrorMessage(status, text))
      else match json
        case Success(v) => Fulfilled(v)
        case Failure(m) => Thrown(true, m)
  }
}
