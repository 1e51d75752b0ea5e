/** `tfc_workspace_vars_info`: one GET of a workspace's variable list. */
module TfcWorkspaceVarsInfo {
  import opened Optional
  import opened Text
  import opened Json
  import opened Client
  import opened Routes
  import opened Ansible
  import TfcWorkspaceVarUpdate

  /** The module's parameters as the caller gave them. */
  datatype Params = Params(
    apiUrl: Option<string>,
    apiToken: string,
    workspaceId: string,
    validateCerts: bool,
    connectionTimeout: int)

  /** `get_workspace_vars(module.params)`: a refused URL sends nothing;
      otherwise one GET of `/workspaces/<id>/vars`. */
  function GetWorkspaceVars(p: Params, t: Transport): (run: Run<Json>)
    ensures run.trace == [] <==> !ClientScheme(p.apiUrl.GetOr(DefaultUrl))
    ensures run.trace == [] ==>
      run.result == Err(TfcError(ConfigError, SchemeMessage(p.apiUrl.GetOr(DefaultUrl))))
    ensures run.trace != [] ==>
      && run.trace == [Request(GET, BaseUrl(p.apiUrl) + Path(WorkspaceVars(p.workspaceId)), None, None,
                               BearerHeaders(p.apiToken), p.validateCerts, p.connectionTimeout)]
      && run.result == Classify(run.trace[0].url, t(run.trace[0]))
  {
    var path := Path(WorkspaceVars(p.workspaceId));
    ModuleClient(p.apiToken, p.apiUrl, path);
    match NewClient(Some(p.apiToken), p.apiUrl)
    case Err(f) => Run([], Err(f))
    case Ok(c) => Read(c, t, path, None, p.validateCerts, p.connectionTimeout)
  }

  /** The argument spec has no constraint beyond the required parameters. */
  function Main(p: Params, t: Transport): (m: ModuleRun)
    ensures !m.outcome.Rejected?
    ensures |m.trace| <= 1
    ensures m.trace != [] ==> m.trace[0].verb == GET && m.trace[0].body.None?
    ensures m.outcome.Failed? ==> m.trace == [] || Contains(m.outcome.msg, m.trace[0].url)
  {
    Conclude(true, GetWorkspaceVars(p, t))
  }

  /** The listing this module reports is the one the variable-update module
      reads to resolve a key: the same request, and its facts are the decoded
      list the key is looked up in. */
  lemma SameListing(p: Params, u: TfcWorkspaceVarUpdate.Params, t: Transport)
    requires u.apiUrl == p.apiUrl && u.apiToken == p.apiToken && u.workspaceId == p.workspaceId
    requires u.validateCerts == p.validateCerts && u.connectionTimeout == p.connectionTimeout
    requires ClientScheme(p.apiUrl.GetOr(DefaultUrl))
    ensures Main(p, t).trace == [TfcWorkspaceVarUpdate.ListRequest(u)]
    ensures Main(p, t).outcome.Exited? ==>
      TfcWorkspaceVarUpdate.Listed(u, t) == Ok(JObject(Main(p, t).outcome.facts))
  {
  }
}
