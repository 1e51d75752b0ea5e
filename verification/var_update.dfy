/** `tfc_workspace_var_update`: a PATCH of one variable of a workspace. The
    variable is given by id, or by key, in which case the workspace's variable
    list is read first and the key resolved to the id of the first variable
    that has it. */
module TfcWorkspaceVarUpdate {
  import opened Optional
  import opened Text
  import opened Json
  import opened Client
  import opened Routes
  import opened Resolve
  import opened Ansible

  /** The module's parameters as the caller gave them. */
  datatype Params = Params(
    apiUrl: Option<string>,
    apiToken: string,
    variableId: Option<string>,
    variableKey: Option<string>,
    workspaceId: string,
    validateCerts: bool,
    connectionTimeout: int,
    data: Option<Dict>,
    payload: Option<Dict>,
    attributes: Option<Dict>)

  /** The argument-spec constraints: one payload form, and exactly one of
      `variable_key` and `variable_id`. */
  predicate Accepted(p: Params) {
    && PayloadParamsAccepted(p.payload, p.data, p.attributes)
    && !(p.variableKey.Some? && p.variableId.Some?)
    && (p.variableKey.Some? || p.variableId.Some?)
  }

  function NotFoundMessage(key: string): string {
    "Variable with key " + key + " not found."
  }

  function Body(p: Params): Json {
    ResolvePayload(p.payload, p.data, p.attributes)
  }

  /** The request that reads the workspace's variable list. */
  function ListRequest(p: Params): Request {
    Request(GET, BaseUrl(p.apiUrl) + Path(WorkspaceVars(p.workspaceId)), None, None,
            BearerHeaders(p.apiToken), p.validateCerts, p.connectionTimeout)
  }

  /** The PATCH of the variable whose id renders as `id`. */
  function PatchRequest(p: Params, id: string): Request {
    Request(PATCH, BaseUrl(p.apiUrl) + Path(WorkspaceVar(p.workspaceId, id)), None, Some(Body(p)),
            BearerHeaders(p.apiToken), p.validateCerts, p.connectionTimeout)
  }

  /** What reading the variable list produced. */
  function Listed(p: Params, t: Transport): Result<Json> {
    Classify(ListRequest(p).url, t(ListRequest(p)))
  }

  /** `client.patch` of the variable whose id renders as `id`. */
  function PatchVar(p: Params, c: Client, t: Transport, id: string): (run: Run<Json>)
    requires NewClient(Some(p.apiToken), p.apiUrl) == Ok(c)
    ensures run.trace == [PatchRequest(p, id)]
    ensures run.result == Classify(PatchRequest(p, id).url, t(PatchRequest(p, id)))
  {
    var path := Path(WorkspaceVar(p.workspaceId, id));
    ModuleClient(p.apiToken, p.apiUrl, path);
    Patch(c, t, path, Some(Body(p)), p.validateCerts, p.connectionTimeout)
  }

  /** The `variable_key` branch: read the list, resolve the key, and patch only
      when it resolved. */
  function UpdateByKey(p: Params, c: Client, t: Transport, key: string): (run: Run<Json>)
    requires NewClient(Some(p.apiToken), p.apiUrl) == Ok(c)
    ensures 1 <= |run.trace| <= 2 && run.trace[0] == ListRequest(p)
    ensures |run.trace| == 2 <==> Listed(p, t).Ok? && LookupVariableId(Listed(p, t).value, key).Found?
    ensures |run.trace| == 2 ==>
      && run.trace[1] == PatchRequest(p, PyStr(LookupVariableId(Listed(p, t).value, key).id))
      && run.result == Classify(run.trace[1].url, t(run.trace[1]))
    ensures Listed(p, t).Err? ==> run.result == Listed(p, t)
    ensures Listed(p, t).Ok? && LookupVariableId(Listed(p, t).value, key).NoMatch? ==>
      run.result == Err(TfcError(NotFound, NotFoundMessage(key)))
    ensures Listed(p, t).Ok? && LookupVariableId(Listed(p, t).value, key).Raised? ==>
      run.result == Err(Uncaught(LookupVariableId(Listed(p, t).value, key).exception))
  {
    ModuleClient(p.apiToken, p.apiUrl, Path(WorkspaceVars(p.workspaceId)));
    var listing := Read(c, t, Path(WorkspaceVars(p.workspaceId)), None, p.validateCerts, p.connectionTimeout);
    match listing.result
    case Err(f) => Run(listing.trace, Err(f))
    case Ok(vars) =>
      match LookupVariableId(vars, key)
      case NoMatch => Run(listing.trace, Err(TfcError(NotFound, NotFoundMessage(key))))
      case Raised(e) => Run(listing.trace, Err(Uncaught(e)))
      case Found(id) =>
        var patch := PatchVar(p, c, t, PyStr(id));
        Run(listing.trace + patch.trace, patch.result)
  }

  /** `update_var(module.params)`. */
  function UpdateVar(p: Params, t: Transport): (run: Run<Json>)
    ensures |run.trace| <= 2
    ensures run.trace == [] <==> !ClientScheme(p.apiUrl.GetOr(DefaultUrl))
    ensures run.trace == [] ==>
      run.result == Err(TfcError(ConfigError, SchemeMessage(p.apiUrl.GetOr(DefaultUrl))))
    // by id: one PATCH, the id formatted into the path
    ensures p.variableKey.None? && run.trace != [] ==>
      && run.trace == [PatchRequest(p, FormatParam(p.variableId))]
      && run.result == Classify(run.trace[0].url, t(run.trace[0]))
    // by key: the list is read first, and the PATCH is sent exactly when the
    // listing succeeded and the key was found
    ensures p.variableKey.Some? && run.trace != [] ==>
      var key := p.variableKey.value;
      && run.trace[0] == ListRequest(p)
      && (|run.trace| == 2 <==> Listed(p, t).Ok? && LookupVariableId(Listed(p, t).value, key).Found?)
      && (|run.trace| == 2 ==>
            && run.trace[1] == PatchRequest(p, PyStr(LookupVariableId(Listed(p, t).value, key).id))
            && run.result == Classify(run.trace[1].url, t(run.trace[1])))
      && (Listed(p, t).Err? ==> run.result == Listed(p, t))
      && (Listed(p, t).Ok? && LookupVariableId(Listed(p, t).value, key).NoMatch? ==>
            run.result == Err(TfcError(NotFound, NotFoundMessage(key))))
      && (Listed(p, t).Ok? && LookupVariableId(Listed(p, t).value, key).Raised? ==>
            run.result == Err(Uncaught(LookupVariableId(Listed(p, t).value, key).exception)))
  {
    match NewClient(Some(p.apiToken), p.apiUrl)
    case Err(f) => Run([], Err(f))
    case Ok(c) =>
      if p.variableKey.Some? then UpdateByKey(p, c, t, p.variableKey.value)
      else PatchVar(p, c, t, FormatParam(p.variableId))
  }

  /** The module run; `checkMode` is whether Ansible runs the module in check
      mode, which the module declares it supports. */
  function Main(p: Params, checkMode: bool, t: Transport): (m: ModuleRun)
    ensures m.outcome.Rejected? <==> !Accepted(p)
    ensures |m.trace| <= 2
    ensures |m.trace| == 2 ==> m.trace[0].verb == GET && m.trace[1].verb == PATCH
    ensures m.outcome.Failed? && p.variableKey.Some? && |m.trace| == 1 ==>
      m.outcome.msg == NotFoundMessage(p.variableKey.value) || Contains(m.outcome.msg, m.trace[0].url)
  {
    ConcludeChecked(Accepted(p), checkMode, true, "tfc_workspace_var_update", UpdateVar(p, t))
  }

  /** Check mode changes nothing: the module declares support for it but
      sends the PATCH all the same. */
  lemma CheckModeIgnored(p: Params, t: Transport)
    ensures Main(p, true, t) == Main(p, false, t)
  {
  }

  /** Giving the key is the same as giving the id it resolves to: once the
      list has been read, the module sends the PATCH and reports the outcome
      it would have for that id. */
  lemma KeyResolvesToId(p: Params, t: Transport)
    requires Accepted(p) && p.variableKey.Some? && ClientScheme(p.apiUrl.GetOr(DefaultUrl))
    ensures Listed(p, t).Ok? && LookupVariableId(Listed(p, t).value, p.variableKey.value).Found? ==>
      var id := PyStr(LookupVariableId(Listed(p, t).value, p.variableKey.value).id);
      var byId := p.(variableKey := None, variableId := Some(id));
      && Accepted(byId)
      && Main(p, false, t).trace == [ListRequest(p)] + Main(byId, false, t).trace
      && Main(p, false, t).outcome == Main(byId, false, t).outcome
  {
    if Listed(p, t).Ok? && LookupVariableId(Listed(p, t).value, p.variableKey.value).Found? {
      var id := PyStr(LookupVariableId(Listed(p, t).value, p.variableKey.value).id);
      var byId := p.(variableKey := None, variableId := Some(id));
      assert PatchRequest(byId, FormatParam(byId.variableId)) == PatchRequest(p, id);
      RunByKey(p, t, id);
      var direct := UpdateVar(byId, t);
      assert direct.trace == [PatchRequest(p, id)];
    }
  }

  // ---------------------------------------------------------------------------
  // The end-to-end example.

  const ScenarioList: Json :=
    Object1("data", JArray([JObject(map["id" := JString("var-9"), "attributes" := Object1("key", JString("var1"))])]))

  const ScenarioData: Dict := map["attributes" := Object1("value", JString("v2"))]

  const ScenarioParams: Params :=
    Params(None, "tok", None, Some("var1"), "ws-1", true, 10, Some(ScenarioData), None, None)

  /** A server that lists `ScenarioList` and echoes every PATCH body. */
  function ScenarioTransport(req: Request): Outcome {
    if req.verb == GET then Response(200, "", Valid(ScenarioList))
    else Response(200, "", Valid(req.body.GetOr(JNull)))
  }

  lemma ScenarioLookup()
    ensures LookupVariableId(ScenarioList, "var1") == Found(JString("var-9"))
  {
    var items := ScenarioList.fields["data"].items;
    assert RecordKey(items[0]) == Val(JString("var1"));
    assert IsFirstMatch(items, "var1", 0);
  }

  lemma ScenarioListUrl()
    ensures ListRequest(ScenarioParams).url == DefaultApiUrl + "/workspaces/ws-1/vars"
  {
    DefaultBase(None);
    assert Path(WorkspaceVars("ws-1")) == "/workspaces/ws-1/vars";
  }

  lemma ScenarioPatchUrl()
    ensures PatchRequest(ScenarioParams, "var-9").url == DefaultApiUrl + "/workspaces/ws-1/vars/var-9"
  {
    DefaultBase(None);
    assert Path(WorkspaceVar("ws-1", "var-9")) == "/workspaces/ws-1/vars/var-9";
  }

  const ScenarioBody: Json := Object1("data", JObject(ScenarioData))

  lemma ScenarioListed()
    ensures Listed(ScenarioParams, ScenarioTransport) == Ok(ScenarioList)
  {
  }

  lemma ScenarioPatched()
    ensures Body(ScenarioParams) == ScenarioBody
    ensures Classify(PatchRequest(ScenarioParams, "var-9").url, ScenarioTransport(PatchRequest(ScenarioParams, "var-9")))
         == Ok(ScenarioBody)
  {
  }

  /** By key, once the list is read and the key found: the list GET, then the
      PATCH of the found id, whose response is the result. */
  lemma RunByKey(p: Params, t: Transport, id: string)
    requires ClientScheme(p.apiUrl.GetOr(DefaultUrl)) && p.variableKey.Some?
    requires Listed(p, t).Ok? && LookupVariableId(Listed(p, t).value, p.variableKey.value).Found?
    requires PyStr(LookupVariableId(Listed(p, t).value, p.variableKey.value).id) == id
    ensures UpdateVar(p, t)
         == Run([ListRequest(p), PatchRequest(p, id)], Classify(PatchRequest(p, id).url, t(PatchRequest(p, id))))
  {
    var c := NewClient(Some(p.apiToken), p.apiUrl).value;
    var run := UpdateByKey(p, c, t, p.variableKey.value);
    assert run.trace[1] == PatchRequest(p, id);
    assert run.trace == [ListRequest(p), PatchRequest(p, id)];
  }

  lemma ScenarioRun()
    ensures UpdateVar(ScenarioParams, ScenarioTransport)
         == Run([ListRequest(ScenarioParams), PatchRequest(ScenarioParams, "var-9")], Ok(ScenarioBody))
  {
    DefaultUrlAccepted();
    ScenarioListed();
    ScenarioLookup();
    ScenarioPatched();
    assert PyStr(JString("var-9")) == "var-9";
    RunByKey(ScenarioParams, ScenarioTransport, "var-9");
  }

  /** Updating `var1` of `ws-1` with `data`: the list is read, the key resolves
      to `var-9`, and that variable is patched with `{"data": data}`; the
      module reports the echoed body. */
  lemma Scenario()
    ensures var m := Main(ScenarioParams, false, ScenarioTransport);
      && |m.trace| == 2
      && m.trace[0].verb == GET && m.trace[0].url == DefaultApiUrl + "/workspaces/ws-1/vars"
      && m.trace[1].verb == PATCH
      && m.trace[1].url == DefaultApiUrl + "/workspaces/ws-1/vars/var-9"
      && m.trace[1].body == Some(ScenarioBody)
      && m.outcome == Exited(map["data" := JObject(ScenarioData)])
  {
    ScenarioRun();
    ScenarioListUrl();
    ScenarioPatchUrl();
    assert Accepted(ScenarioParams);
  }
}
