/** `hcp_workspace_update`: one PATCH of a workspace, addressed by id or by
    organization and name, with the body built from `payload`, `data` or
    `attributes`. */
module HcpWorkspaceUpdate {
  import opened Optional
  import opened Text
  import opened Json
  import opened Client
  import opened Routes
  import opened Resolve
  import opened Ansible

  /** The module's parameters as the caller gave them; `validate_certs` and
      `connection_timeout` already hold their defaults. */
  datatype Params = Params(
    apiUrl: Option<string>,
    apiToken: string,
    workspaceId: Option<string>,
    workspaceName: Option<string>,
    organization: Option<string>,
    validateCerts: bool,
    connectionTimeout: int,
    data: Option<Dict>,
    payload: Option<Dict>,
    attributes: Option<Dict>)

  /** The argument-spec constraints. */
  predicate Accepted(p: Params) {
    && PayloadParamsAccepted(p.payload, p.data, p.attributes)
    && WorkspaceParamsAccepted(p.workspaceId, p.workspaceName, p.organization)
  }

  /** `patch_workspace(module.params)`: a refused URL sends nothing; otherwise
      exactly one PATCH of the workspace path with the resolved body. */
  function PatchWorkspace(p: Params, t: Transport): (run: Run<Json>)
    ensures run.trace == [] <==> !ClientScheme(p.apiUrl.GetOr(DefaultUrl))
    ensures run.trace == [] ==> run.result.Err? && run.result.failure == TfcError(
      ConfigError, SchemeMessage(p.apiUrl.GetOr(DefaultUrl)))
    ensures run.trace != [] ==> run.trace == [Request(
      PATCH, BaseUrl(p.apiUrl) + WorkspacePath(p.workspaceId, p.workspaceName, p.organization),
      None, Some(ResolvePayload(p.payload, p.data, p.attributes)),
      BearerHeaders(p.apiToken), p.validateCerts, p.connectionTimeout)]
    ensures run.trace != [] ==> run.result == Classify(run.trace[0].url, t(run.trace[0]))
  {
    var path := WorkspacePath(p.workspaceId, p.workspaceName, p.organization);
    var body := ResolvePayload(p.payload, p.data, p.attributes);
    ModuleClient(p.apiToken, p.apiUrl, path);
    match NewClient(Some(p.apiToken), p.apiUrl)
    case Err(f) => Run([], Err(f))
    case Ok(c) => Patch(c, t, path, Some(body), p.validateCerts, p.connectionTimeout)
  }

  /** The module run; `checkMode` is whether Ansible runs the module in check
      mode, which the module declares it does not support. */
  function Main(p: Params, checkMode: bool, t: Transport): (m: ModuleRun)
    ensures m.outcome.Rejected? <==> !Accepted(p)
    ensures |m.trace| <= 1
    ensures m.trace != [] ==> m.trace[0].verb == PATCH && m.trace[0].params.None?
    ensures m.outcome.Exited? && !checkMode ==> |m.trace| == 1
  {
    ConcludeChecked(Accepted(p), checkMode, false, "hcp_workspace_update", PatchWorkspace(p, t))
  }

  /** In check mode accepted arguments send nothing and the module reports
      itself skipped, where the same arguments outside check mode send the
      PATCH. */
  lemma CheckModeSkips(p: Params, t: Transport)
    requires Accepted(p) && ClientScheme(p.apiUrl.GetOr(DefaultUrl))
    ensures Main(p, true, t).trace == [] && |Main(p, false, t).trace| == 1
    ensures Main(p, true, t).outcome.Exited? && "skipped" in Main(p, true, t).outcome.facts
      && Main(p, true, t).outcome.facts["skipped"] == JBool(true)
  {
  }

  /** For accepted arguments, the request the module sends is the PATCH of the
      route of the workspace reference, with the envelope of the payload form. */
  lemma AcceptedUpdate(p: Params, t: Transport)
    requires Accepted(p)
    requires ClientScheme(p.apiUrl.GetOr(DefaultUrl))
    ensures var ref := ToWorkspaceRef(p.workspaceId, p.workspaceName, p.organization);
      var input := ToPayloadInput(p.payload, p.data, p.attributes);
      && ref.Some? && input.Some?
      && Main(p, false, t).trace == [Request(PATCH, BaseUrl(p.apiUrl) + Path(WorkspaceRoute(ref.value)),
                                      None, Some(Envelope(input.value)),
                                      BearerHeaders(p.apiToken), p.validateCerts, p.connectionTimeout)]
  {
  }

  /** A successful update reports the decoded response as the module's facts;
      any request error is the module's failure message, naming the URL. */
  lemma UpdateOutcome(p: Params, t: Transport)
    requires Accepted(p)
    ensures var m := Main(p, false, t);
      && (m.outcome.Exited? ==>
            t(m.trace[0]).Response? && t(m.trace[0]).body == Valid(JObject(m.outcome.facts)))
      && (m.outcome.Failed? && m.trace != [] ==> Contains(m.outcome.msg, m.trace[0].url))
      && (m.outcome.Crashed? ==>
            m.trace != [] && t(m.trace[0]).Response? && t(m.trace[0]).body.Valid?
            && !t(m.trace[0]).body.json.JObject?)
  {
  }
}
