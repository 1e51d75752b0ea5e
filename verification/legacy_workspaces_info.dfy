/** `tfc_workspaces_info`, the older list module: it does not use the client.
    It builds the whole URL itself, query string included, checks its scheme
    more loosely than the client does, opens it with Ansible's `open_url` and
    parses the body as JSON. */
module TfcWorkspacesInfo {
  import opened Optional
  import opened Text
  import opened Json
  import opened Client
  import opened ListQuery
  import opened UrlEncode
  import opened Ansible
  import Routes
  import HcpWorkspacesInfo

  /** The module's parameters: `api_url`, `api_version` and `http_agent` hold
      their defaults; the page and search options are those the caller gave. */
  datatype Params = Params(
    directLink: Option<string>,
    organization: string,
    apiUrl: string,
    apiToken: string,
    apiVersion: string,
    pageNumber: Option<int>,
    pageSize: Option<int>,
    validateCerts: bool,
    searchName: Option<string>,
    searchWildcardName: Option<string>,
    connectionTimeout: int,
    httpAgent: string)

  predicate Accepted(p: Params) {
    ListParamsAccepted(p.directLink, p.pageNumber, p.pageSize, p.searchName, p.searchWildcardName)
  }

  function Target(p: Params): ListTarget {
    TargetOf(p.directLink, p.organization, p.pageNumber, p.pageSize, p.searchName, p.searchWildcardName)
  }

  // ---------------------------------------------------------------------------
  // The URL.

  /** `str(v)` of each value, as `urlencode` does before quoting. */
  function StringPairs(ps: seq<(string, ParamValue)>): (r: seq<(string, string)>)
    ensures |r| == |ps|
    ensures forall i :: 0 <= i < |ps| ==> r[i].0 == ps[i].0
    ensures forall i :: 0 <= i < |ps| && ps[i].1.PStr? ==> r[i].1 == ps[i].1.s
    ensures forall i :: 0 <= i < |ps| && ps[i].1.PInt? ==>
      |r[i].1| >= 1 && (IsDigits(r[i].1) || (r[i].1[0] == '-' && IsDigits(r[i].1[1..])))
      && ParseInt(r[i].1) == ps[i].1.i
  {
    var r := seq(|ps|, i requires 0 <= i < |ps| =>
      (ps[i].0, match ps[i].1 case PInt(n) => IntToString(n) case PStr(s) => s));
    forall i | 0 <= i < |ps| && ps[i].1.PInt? ensures ParseInt(r[i].1) == ps[i].1.i {
      IntToStringRoundTrip(ps[i].1.i);
    }
    r
  }

  /** Everything of the list URL before its query string. */
  function ListPrefix(p: Params): string {
    p.apiUrl + "/api/" + p.apiVersion + "/organizations/" + p.organization + "/workspaces?"
  }

  /** The URL `get_workspaces` opens: the direct link as it is, or the list
      URL with the form-encoded page query. */
  function WorkspacesUrl(p: Params): (url: string)
    ensures p.directLink.Some? ==> url == p.directLink.value
    ensures p.directLink.None? ==>
      && HasPrefix(url, ListPrefix(p))
      && DecodeQuery(url[|ListPrefix(p)|..]) == Some(Utf8Pairs(StringPairs(QueryParams(Target(p).query))))
  {
    match Target(p)
    case DirectLink(link) => link
    case Page(_, q) =>
      var query := FormEncode(StringPairs(QueryParams(q)));
      FormEncodeRoundTrip(StringPairs(QueryParams(q)));
      assert (ListPrefix(p) + query)[|ListPrefix(p)|..] == query;
      ListPrefix(p) + query
  }

  /** The module's own scheme test: a case-insensitive prefix `http` (the
      `https` alternative adds nothing), with no colon required. */
  predicate LooseScheme(url: string) {
    HasPrefix(Lower(url), "http") || HasPrefix(Lower(url), "https")
  }

  /** Every URL the client accepts passes the module's test, but not the other
      way round: `httpx://a` passes it. */
  lemma LooseSchemeIsWeaker(url: string)
    ensures ClientScheme(url) ==> LooseScheme(url)
    ensures LooseScheme("httpx://a") && !ClientScheme("httpx://a")
  {
    if ClientScheme(url) {
      assert Lower(url)[..4] == Lower(url)[..5][..4];
    }
    var x := "httpx://a";
    assert Lower(x) == x;
    assert Lower(x)[..4] == "http";
    assert Lower(x)[..5][4] == 'x';
    assert Lower(x)[..6][4] == 'x';
  }

  // ---------------------------------------------------------------------------
  // Opening the URL.

  /** The call to `open_url`. */
  datatype Sent = Sent(url: string, headers: map<string, string>, validateCerts: bool,
                       httpAgent: string, timeout: int)

  /** What opening and parsing produced: the body as JSON decoding saw it, or
      an exception from `open_url`, which may itself be a `ValueError` (as for
      a URL of an unknown type). */
  datatype Loaded = Loaded(body: Decoded) | Raised(valueError: bool, detail: string)

  type Opener = Sent -> Loaded

  datatype LegacyRun = LegacyRun(trace: seq<Sent>, result: Result<Json>)

  /** The `except` clauses: a `ValueError` (invalid JSON, among others) and
      every other exception, each naming the URL. */
  function Load(url: string, l: Loaded): (r: Result<Json>)
    ensures r.Ok? <==> l.Loaded? && l.body.Valid?
    ensures r.Ok? ==> r.value == l.body.json
    ensures r.Err? ==> r.failure.TfcError? && Contains(r.failure.message, url)
    ensures r.Err? && r.failure.kind == DecodeError <==> (l.Loaded? && l.body.Invalid?) || (l.Raised? && l.valueError)
    ensures r.Err? && r.failure.kind == ResponseError <==> l.Raised? && !l.valueError
    ensures r.Err? ==> r.failure.kind in {DecodeError, ResponseError}
    ensures r.Err? && r.failure.kind == DecodeError ==>
      HasPrefix(r.failure.message, "API returned invalid JSON when trying to get " + url)
    ensures r.Err? && r.failure.kind == ResponseError ==>
      HasPrefix(r.failure.message, "Response error from " + url)
  {
    match l
    case Loaded(Valid(j)) => Ok(j)
    case Loaded(Invalid(reason)) =>
      Err(TfcError(DecodeError, ErrorMessage("API returned invalid JSON when trying to get ", url, reason)))
    case Raised(valueError, detail) =>
      if valueError then
        Err(TfcError(DecodeError, ErrorMessage("API returned invalid JSON when trying to get ", url, detail)))
      else
        Err(TfcError(ResponseError, ErrorMessage("Response error from ", url, detail)))
  }

  /** On a response the client would not reject for its status, the legacy
      error mapping and the client's agree: the same body is the result, and an
      undecodable body is a decode error in both. */
  lemma LoadAgreesWithClassify(url: string, status: nat, text: string, b: Decoded)
    requires !ErrorStatus(status)
    ensures Load(url, Loaded(b)).Ok? <==> Classify(url, Response(status, text, b)).Ok?
    ensures Load(url, Loaded(b)).Ok? ==> Load(url, Loaded(b)) == Classify(url, Response(status, text, b))
    ensures Load(url, Loaded(b)).Err? ==>
      && Load(url, Loaded(b)).failure.kind == DecodeError
      && Classify(url, Response(status, text, b)).failure.kind == DecodeError
  {
  }

  /** `get_workspaces(module.params)`: a URL failing the loose test is refused
      with nothing opened; otherwise the URL is opened once with only the
      bearer header. */
  function GetWorkspaces(p: Params, o: Opener): (run: LegacyRun)
    ensures run.trace == [] <==> !LooseScheme(WorkspacesUrl(p))
    ensures run.trace == [] ==> run.result == Err(TfcError(ConfigError, SchemeMessage(WorkspacesUrl(p))))
    ensures run.trace != [] ==>
      && run.trace == [Sent(WorkspacesUrl(p), map["Authorization" := "Bearer " + p.apiToken],
                            p.validateCerts, p.httpAgent, p.connectionTimeout)]
      && run.result == Load(WorkspacesUrl(p), o(run.trace[0]))
  {
    var url := WorkspacesUrl(p);
    if !LooseScheme(url) then LegacyRun([], Err(TfcError(ConfigError, SchemeMessage(url))))
    else
      var sent := Sent(url, map["Authorization" := "Bearer " + p.apiToken],
                       p.validateCerts, p.httpAgent, p.connectionTimeout);
      LegacyRun([sent], Load(url, o(sent)))
  }

  datatype LegacyModuleRun = LegacyModuleRun(trace: seq<Sent>, outcome: ModuleOutcome)

  function Main(p: Params, o: Opener): (m: LegacyModuleRun)
    ensures m.outcome.Rejected? <==> !Accepted(p)
    ensures |m.trace| <= 1
    ensures m.outcome.Failed? ==> m.trace == [] || Contains(m.outcome.msg, m.trace[0].url)
  {
    var run := GetWorkspaces(p, o);
    if Accepted(p) then LegacyModuleRun(run.trace, Finish(run.result))
    else LegacyModuleRun([], Rejected)
  }

  /** The query string carries the same pairs, in the same order, as the query
      parameters the client-based list module sends for the same options. */
  lemma SameQueryAsClientModule(p: Params, h: HcpWorkspacesInfo.Params, t: Transport)
    requires p.directLink.None? && h.directLink.None?
    requires h.organization == p.organization && h.pageNumber == p.pageNumber && h.pageSize == p.pageSize
    requires h.searchName == p.searchName && h.searchWildcardName == p.searchWildcardName
    requires HcpWorkspacesInfo.Accepted(h) && ClientScheme(h.apiUrl)
    ensures var sent := HcpWorkspacesInfo.Main(h, t).trace[0];
      && sent.params.Some?
      && DecodeQuery(WorkspacesUrl(p)[|ListPrefix(p)|..]) == Some(Utf8Pairs(StringPairs(sent.params.value)))
  {
    assert Target(p).query == HcpWorkspacesInfo.Target(h).query;
    assert HcpWorkspacesInfo.Main(h, t).trace[0].params == Some(QueryParams(Target(p).query));
  }

  /** With the default base URL and version, the list URL goes to the same
      host and path as the client-based module's request. */
  lemma SamePathAsClientModule(p: Params)
    requires p.apiUrl == DefaultUrl && p.apiVersion == ApiVersion
    ensures ListPrefix(p) == BaseUrl(None) + Routes.Path(Routes.OrganizationWorkspaces(p.organization)) + "?"
  {
  }

  // ---------------------------------------------------------------------------
  // The URL for the default options.

  const DefaultPairs: seq<(string, string)> := [("page[number]", "1"), ("page[size]", "20")]

  /** With no page options the pairs encoded are page 1 and size 20. */
  lemma DefaultStringPairs()
    ensures StringPairs(QueryParams(PageQuery(DefaultPageNumber, DefaultPageSize, NoSearch))) == DefaultPairs
  {
    assert IntToString(1) == "1";
    assert NatToString(20) == NatToString(2) + [DigitChar(0)];
    assert IntToString(20) == "20";
  }

  /** With no page or search option, the module opens its organization's
      workspace list with the query of page 1 of size 20. */
  lemma DefaultListUrl(p: Params)
    requires p.directLink.None? && p.pageNumber.None? && p.pageSize.None?
    requires p.searchName.None? && p.searchWildcardName.None?
    ensures WorkspacesUrl(p) == ListPrefix(p) + FormEncode(DefaultPairs)
  {
    DefaultStringPairs();
  }
}
