/** `hcp_workspaces_info`: one GET of a page of an organization's workspaces
    through the client, or of a direct (pagination) link. */
module HcpWorkspacesInfo {
  import opened Optional
  import opened Json
  import opened Client
  import opened Routes
  import opened ListQuery
  import opened Ansible

  /** The module's parameters: `api_url` holds its default; the page and search
      options are those the caller gave. */
  datatype Params = Params(
    directLink: Option<string>,
    organization: string,
    apiUrl: string,
    apiToken: string,
    pageNumber: Option<int>,
    pageSize: Option<int>,
    validateCerts: bool,
    searchName: Option<string>,
    searchWildcardName: Option<string>,
    connectionTimeout: int)

  predicate Accepted(p: Params) {
    ListParamsAccepted(p.directLink, p.pageNumber, p.pageSize, p.searchName, p.searchWildcardName)
  }

  function Target(p: Params): ListTarget {
    TargetOf(p.directLink, p.organization, p.pageNumber, p.pageSize, p.searchName, p.searchWildcardName)
  }

  /** The URL a direct link is fetched from: as it is when it starts with a
      lower-case `http:`/`https:`, else appended to the base URL. */
  function LinkUrl(p: Params, link: string): string {
    if AbsolutePath(link) then link else BaseUrl(Some(p.apiUrl)) + link
  }

  /** `get_workspaces(module.params)`: a refused URL sends nothing; a direct
      link is read without parameters; otherwise the organization's workspace
      list is read with the page query. */
  function GetWorkspaces(p: Params, t: Transport): (run: Run<Json>)
    ensures run.trace == [] <==> !ClientScheme(p.apiUrl)
    ensures run.trace == [] ==> run.result == Err(TfcError(ConfigError, SchemeMessage(p.apiUrl)))
    ensures run.trace != [] && p.directLink.Some? ==>
      run.trace == [Request(GET, LinkUrl(p, p.directLink.value), None, None,
                            BearerHeaders(p.apiToken), p.validateCerts, p.connectionTimeout)]
    ensures run.trace != [] && p.directLink.None? ==>
      run.trace == [Request(GET, BaseUrl(Some(p.apiUrl)) + Path(OrganizationWorkspaces(p.organization)),
                            Some(QueryParams(Target(p).query)), None,
                            BearerHeaders(p.apiToken), p.validateCerts, p.connectionTimeout)]
    ensures run.trace != [] ==> run.result == Classify(run.trace[0].url, t(run.trace[0]))
  {
    match NewClient(Some(p.apiToken), Some(p.apiUrl))
    case Err(f) => Run([], Err(f))
    case Ok(c) =>
      match Target(p)
      case DirectLink(link) =>
        Read(c, t, link, None, p.validateCerts, p.connectionTimeout)
      case Page(org, q) =>
        var path := Path(OrganizationWorkspaces(org));
        ModuleClient(p.apiToken, Some(p.apiUrl), path);
        Read(c, t, path, Some(QueryParams(q)), p.validateCerts, p.connectionTimeout)
  }

  function Main(p: Params, t: Transport): (m: ModuleRun)
    ensures m.outcome.Rejected? <==> !Accepted(p)
    ensures |m.trace| <= 1
    ensures m.trace != [] ==> m.trace[0].verb == GET && m.trace[0].body.None?
    ensures m.trace != [] ==> (m.trace[0].params.None? <==> p.directLink.Some?)
  {
    Conclude(Accepted(p), GetWorkspaces(p, t))
  }

  /** For accepted arguments without a direct link, the query parameters sent
      read back as exactly the page and the filter the caller asked for, with
      the defaults for what was not given. */
  lemma PageQuerySent(p: Params, t: Transport)
    requires Accepted(p) && p.directLink.None? && ClientScheme(p.apiUrl)
    ensures var m := Main(p, t);
      && |m.trace| == 1 && m.trace[0].params.Some?
      && ParseQueryParams(m.trace[0].params.value) == Some(PageQuery(
           p.pageNumber.GetOr(DefaultPageNumber), p.pageSize.GetOr(DefaultPageSize),
           if p.searchName.Some? then SearchName(p.searchName.value)
           else if p.searchWildcardName.Some? then SearchWildcard(p.searchWildcardName.value)
           else NoSearch))
  {
    QueryParamsRoundTrip(Target(p).query);
  }

  /** A pagination link the API returns (absolute, with a lower-case scheme)
      is fetched exactly as given, without query parameters. */
  lemma DirectLinkVerbatim(p: Params, t: Transport)
    requires Accepted(p) && p.directLink.Some? && AbsolutePath(p.directLink.value) && ClientScheme(p.apiUrl)
    ensures var m := Main(p, t);
      |m.trace| == 1 && m.trace[0].url == p.directLink.value && m.trace[0].params.None?
  {
  }

  /** With only the organization given, the module asks for page 1 of size 20. */
  lemma DefaultPage(p: Params, t: Transport)
    requires p.directLink.None? && p.pageNumber.None? && p.pageSize.None?
    requires p.searchName.None? && p.searchWildcardName.None? && ClientScheme(p.apiUrl)
    ensures Main(p, t).trace[0].params
         == Some([("page[number]", PInt(1)), ("page[size]", PInt(20))])
  {
  }
}
