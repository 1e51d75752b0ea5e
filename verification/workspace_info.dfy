/** `tfc_workspace_info`: one GET of a workspace, addressed by id or by
    organization and name. */
module TfcWorkspaceInfo {
  import opened Optional
  import opened Json
  import opened Client
  import opened Routes
  import opened Resolve
  import opened Ansible
  import HcpWorkspaceUpdate

  /** The module's parameters as the caller gave them. */
  datatype Params = Params(
    workspaceId: Option<string>,
    workspaceName: Option<string>,
    organization: Option<string>,
    apiUrl: Option<string>,
    apiToken: string,
    validateCerts: bool,
    connectionTimeout: int)

  /** The argument-spec constraints on the workspace address. */
  predicate Accepted(p: Params) {
    WorkspaceParamsAccepted(p.workspaceId, p.workspaceName, p.organization)
  }

  /** `get_workspace(module.params)`: a refused URL sends nothing; otherwise
      one GET of the workspace path, without query parameters. */
  function GetWorkspace(p: Params, t: Transport): (run: Run<Json>)
    ensures run.trace == [] <==> !ClientScheme(p.apiUrl.GetOr(DefaultUrl))
    ensures run.trace == [] ==>
      run.result == Err(TfcError(ConfigError, SchemeMessage(p.apiUrl.GetOr(DefaultUrl))))
    ensures run.trace != [] ==>
      && run.trace == [Request(GET, BaseUrl(p.apiUrl) + WorkspacePath(p.workspaceId, p.workspaceName, p.organization),
                               None, None, BearerHeaders(p.apiToken), p.validateCerts, p.connectionTimeout)]
      && run.result == Classify(run.trace[0].url, t(run.trace[0]))
  {
    var path := WorkspacePath(p.workspaceId, p.workspaceName, p.organization);
    ModuleClient(p.apiToken, p.apiUrl, path);
    match NewClient(Some(p.apiToken), p.apiUrl)
    case Err(f) => Run([], Err(f))
    case Ok(c) => Read(c, t, path, None, p.validateCerts, p.connectionTimeout)
  }

  function Main(p: Params, t: Transport): (m: ModuleRun)
    ensures m.outcome.Rejected? <==> !Accepted(p)
    ensures |m.trace| <= 1
    ensures m.trace != [] ==> m.trace[0].verb == GET && m.trace[0].body.None?
  {
    Conclude(Accepted(p), GetWorkspace(p, t))
  }

  /** For accepted arguments, the module reads the route of the workspace
      reference. */
  lemma AcceptedRead(p: Params, t: Transport)
    requires Accepted(p) && ClientScheme(p.apiUrl.GetOr(DefaultUrl))
    ensures var ref := ToWorkspaceRef(p.workspaceId, p.workspaceName, p.organization);
      && ref.Some?
      && Main(p, t).trace == [Request(GET, BaseUrl(p.apiUrl) + Path(WorkspaceRoute(ref.value)), None, None,
                                      BearerHeaders(p.apiToken), p.validateCerts, p.connectionTimeout)]
  {
  }

  /** Reading and updating a workspace with the same address and connection
      settings address the same URL. */
  lemma InfoAndUpdateAgree(p: Params, u: HcpWorkspaceUpdate.Params, t: Transport)
    requires Accepted(p) && HcpWorkspaceUpdate.Accepted(u)
    requires u.workspaceId == p.workspaceId && u.workspaceName == p.workspaceName
    requires u.organization == p.organization && u.apiUrl == p.apiUrl && u.apiToken == p.apiToken
    ensures |Main(p, t).trace| == |HcpWorkspaceUpdate.Main(u, false, t).trace|
    ensures Main(p, t).trace != [] ==>
      && Main(p, t).trace[0].url == HcpWorkspaceUpdate.Main(u, false, t).trace[0].url
      && Main(p, t).trace[0].headers == HcpWorkspaceUpdate.Main(u, false, t).trace[0].headers
  {
  }
}
