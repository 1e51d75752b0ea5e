/** `hcp_var_update`: one PATCH of a variable addressed by its id alone, with
    the body built from `payload`, `data` or `attributes`. */
module HcpVarUpdate {
  import opened Optional
  import opened Json
  import opened Client
  import opened Routes
  import opened Resolve
  import opened Ansible

  /** The module's parameters as the caller gave them. */
  datatype Params = Params(
    apiUrl: Option<string>,
    apiToken: string,
    variableId: string,
    validateCerts: bool,
    connectionTimeout: int,
    data: Option<Dict>,
    payload: Option<Dict>,
    attributes: Option<Dict>)

  /** The argument-spec constraints: exactly one payload form. */
  predicate Accepted(p: Params) {
    PayloadParamsAccepted(p.payload, p.data, p.attributes)
  }

  /** `update_var(module.params)`: a refused URL sends nothing; otherwise one
      PATCH of `/vars/<id>`. */
  function UpdateVar(p: Params, t: Transport): (run: Run<Json>)
    ensures run.trace == [] <==> !ClientScheme(p.apiUrl.GetOr(DefaultUrl))
    ensures run.trace == [] ==>
      run.result == Err(TfcError(ConfigError, SchemeMessage(p.apiUrl.GetOr(DefaultUrl))))
    ensures run.trace != [] ==>
      && run.trace == [Request(PATCH, BaseUrl(p.apiUrl) + Path(GlobalVar(p.variableId)), None,
                               Some(ResolvePayload(p.payload, p.data, p.attributes)),
                               BearerHeaders(p.apiToken), p.validateCerts, p.connectionTimeout)]
      && run.result == Classify(run.trace[0].url, t(run.trace[0]))
  {
    var body := ResolvePayload(p.payload, p.data, p.attributes);
    var path := Path(GlobalVar(p.variableId));
    ModuleClient(p.apiToken, p.apiUrl, path);
    match NewClient(Some(p.apiToken), p.apiUrl)
    case Err(f) => Run([], Err(f))
    case Ok(c) => Patch(c, t, path, Some(body), p.validateCerts, p.connectionTimeout)
  }

  /** The module run; `checkMode` is whether Ansible runs the module in check
      mode, which the module declares it supports. */
  function Main(p: Params, checkMode: bool, t: Transport): (m: ModuleRun)
    ensures m.outcome.Rejected? <==> !Accepted(p)
    ensures |m.trace| <= 1
    ensures m.trace != [] ==> m.trace[0].verb == PATCH && m.trace[0].body.Some?
  {
    ConcludeChecked(Accepted(p), checkMode, true, "hcp_var_update", UpdateVar(p, t))
  }

  /** For accepted arguments, the module patches the variable the id names
      (when it contains no `/`) with the envelope of the payload form. */
  lemma AcceptedUpdate(p: Params, t: Transport)
    requires Accepted(p) && ClientScheme(p.apiUrl.GetOr(DefaultUrl))
    ensures var input := ToPayloadInput(p.payload, p.data, p.attributes);
      var m := Main(p, false, t);
      && input.Some? && |m.trace| == 1
      && m.trace[0].body == Some(Envelope(input.value))
      && m.trace[0].url == BaseUrl(p.apiUrl) + Path(GlobalVar(p.variableId))
      && ('/' !in p.variableId ==> Parse(Path(GlobalVar(p.variableId))) == Some(GlobalVar(p.variableId)))
  {
    if '/' !in p.variableId {
      ParsePath(GlobalVar(p.variableId));
    }
  }

  /** Check mode changes nothing: the PATCH is sent all the same. */
  lemma CheckModeIgnored(p: Params, t: Transport)
    ensures Main(p, true, t) == Main(p, false, t)
  {
  }
}
