# HCP Terraform Ansible modules, modelled in Dafny

This project models the request logic of the `pytoccaz.terraform_cloud` Ansible
collection. The collection is a set of thin modules over the HCP Terraform
(Terraform Cloud) REST API.

- **The client.** `TfcClient` in `plugins/module_utils/tfc.py` checks the base
  URL and composes request URLs. It adds the `Content-Type` and bearer
  `Authorization` headers. It sorts request failures into three `TfcError`
  message families.
- **Modules built on the client:**
  - `hcp_workspace_update` and `tfc_workspace_info` address a workspace either
    by id or by organization and name.
  - `tfc_workspace_var_update` resolves a variable key to an id with a GET of
    the variable list, then sends a PATCH.
  - `hcp_var_update` patches `/vars/{id}`.
  - `tfc_workspace_vars_info` reads a workspace's variable list.
  - `hcp_workspaces_info` reads a page of an organization's workspaces, or a
    direct pagination link.
- **The legacy module.** `tfc_workspaces_info` does not use the client. It
  builds the whole list URL with `urlencode`, checks its scheme more loosely
  and maps the `open_url` exceptions to its own messages.

The model is functional. The HTTP library is a total function `Transport`
from a `Request` (verb, URL, query parameters, JSON body, headers,
`verify`, timeout) to an `Outcome`:
- a response with a status code, an error text and the body as JSON decoding
  sees it; or
- a connection error.

Each operation returns a `Run`: the requests it sent, in order, and its
`Result`. A result is a JSON value, a `TfcError` of a given kind with its
message, or an exception the modules do not catch (`KeyError`, `TypeError`).

Each module's `main` is modelled in two parts. The `mutually_exclusive`,
`required_together` and `required_one_of` declarations become an `Accepted`
predicate over the parameters as the caller gave them. The caller's
parameters also map onto sum types (`WorkspaceRef`, `PayloadInput`,
`ListTarget`), and lemmas show the two agree. `Ansible.Conclude` turns a run
into the module's outcome:
- refused arguments send nothing;
- a `TfcError` becomes `fail_json(msg=...)`;
- a JSON object becomes the keyword arguments of `exit_json`;
- anything else crashes.

Modules (one per file):

| file | module | models |
|---|---|---|
| option.dfy | `Optional` | `Option` |
| text.dfy | `Text` | prefixes, ASCII `lower()`, `str(int)`, split/join |
| json.dfy | `Json` | JSON values, `str.format` of a value |
| urlencode.dfy | `UrlEncode` | UTF-8, `quote_plus`, `urlencode` and its inverse |
| client.dfy | `Client` | `TfcClient`, `TfcTokenAuth`, requests, error classification |
| routes.dfy | `Routes` | the path templates of the modules and their inverse |
| resolve.dfy | `Resolve` | workspace address, body resolution, variable lookup by key |
| listquery.dfy | `ListQuery` | the page/search query of both list modules |
| ansible.dfy | `Ansible` | what `main` makes of a result |
| workspace_update.dfy | `HcpWorkspaceUpdate` | `hcp_workspace_update` |
| var_update.dfy | `TfcWorkspaceVarUpdate` | `tfc_workspace_var_update` |
| var_patch.dfy | `HcpVarUpdate` | `hcp_var_update` |
| workspace_info.dfy | `TfcWorkspaceInfo` | `tfc_workspace_info` |
| vars_info.dfy | `TfcWorkspaceVarsInfo` | `tfc_workspace_vars_info` |
| workspaces_info.dfy | `HcpWorkspacesInfo` | `hcp_workspaces_info` |
| legacy_workspaces_info.dfy | `TfcWorkspacesInfo` | `tfc_workspaces_info` |

Behaviours of the code that the model keeps as written:
- **Case sensitivity.** The constructor's scheme test ignores case. The
  absolute-path test in `do_request` does not. A client built from
  `HTTPS://host` therefore prefixes its own base URL to a link that starts
  with `HTTPS:`.
- **Error messages.** Every request-error message says `POST`, whatever the
  verb.
- **The legacy scheme test.** It accepts any URL whose lower-cased form starts
  with `http`, so `httpx://a` passes. The test also applies to direct links.
- **Check mode.** `tfc_workspace_var_update` and `hcp_var_update` declare
  check-mode support but send their PATCH in check mode too.
  `hcp_workspace_update` declares none. In check mode, `AnsibleModule` reports
  it skipped once its arguments pass validation, before any request.
- **Variable lookup.** `list(filter(...))[0]` runs the key test on every
  record. A record without `attributes`/`key` therefore raises `KeyError` or
  `TypeError` even after a match, and that exception is not a `TfcError`.

Two further facts about the code:
- **Scheme prefix.** Any base URL whose lower-cased form starts with `http:`
  or `https:` is accepted, with or without the `//` that follows.
- **Escaping exceptions.** A malformed variable record escapes the modules as
  `KeyError`/`TypeError`. A response that is not a JSON object makes
  `exit_json(**result)` raise `TypeError`.

## Model

| member | source | states |
|---|---|---|
| Client.NewClient | plugins/module_utils/tfc.py:46-59 | Construction succeeds exactly when the URL (default `https://app.terraform.io`) passes the scheme test. On success the base is the URL plus `/api/v2`, the token is kept and the only header is the JSON:API content type. A refusal is a configuration `TfcError` naming the URL. |
| Client.ClientSchemeIgnoresCase | plugins/module_utils/tfc.py:53 | Lower-casing and then testing `http:`/`https:` is the same as testing, character by character, `http:` or `https:` in any mix of cases. |
| Client.DefaultBase | plugins/module_utils/tfc.py:19-21 | With no URL the client is built and talks to `https://app.terraform.io/api/v2`. |
| Client.SchemeAcceptsUpperCase | plugins/module_utils/tfc.py:53-55 | `HTTPS://x` and `Http://x` are accepted. |
| Client.SchemeRefusesOthers | plugins/module_utils/tfc.py:53-55 | `ftp://x` is refused, and so is `https//x`, which lacks the colon. |
| Client.RequestUrl | plugins/module_utils/tfc.py:63-68 | A path starting with a lower-case `http:`/`https:` is the URL verbatim. Any other path is appended to the base, which the URL starts with and is followed by exactly the path. |
| Client.RequestUrlIdempotent | plugins/module_utils/tfc.py:63-66 | When the base is absolute, handing a composed URL back as a path yields it unchanged. |
| Client.PathTestIsCaseSensitive | plugins/module_utils/tfc.py:53-66 | For an accepted URL starting with `H`, passing the client's own base URL as a path doubles it: the path test does not ignore case. |
| Client.Sign | plugins/module_utils/tfc.py:36-41 | With a token, `Authorization` is `Bearer <token>`. Without one, the headers are unchanged. No other header is added, removed or changed. |
| Client.SignedClientHeaders | plugins/module_utils/tfc.py:59 | Every request a client sends carries the JSON:API content type. It has `Authorization` exactly when there is a token, and no other header. |
| Client.ModuleClient | plugins/module_utils/tfc.py:46-66 | For a module's token and optional URL, the client exists exactly when the URL passes the scheme test. A `/`-path then goes to the base URL plus the path, with the content type and the bearer header. |
| Client.Classify | plugins/module_utils/tfc.py:72-87 | The result is the decoded body exactly when the transport answered with a non-4xx/5xx status and valid JSON. Otherwise there is one of three `TfcError` kinds: status error exactly for 4xx/5xx, transport error exactly for a connection failure, decode error exactly for an invalid body under a good status. Every message names the URL. |
| Client.StatusBeforeBody | plugins/module_utils/tfc.py:72-78 | Under an error status the body is irrelevant: the failure is a status error whatever the body. |
| Client.ClassifyMessages | plugins/module_utils/tfc.py:76-87 | The three families start with `Status code error from request POST <url>`, `Error trying request POST <url>` and `API returned invalid JSON when trying to POST <url>`, whatever the verb. |
| Client.DoRequest | plugins/module_utils/tfc.py:61-87 | Exactly one request is sent, with the composed URL, the given params, body, `verify` and timeout, and the signed headers. Its outcome is classified. |
| Client.Read | plugins/module_utils/tfc.py:95-96 | One GET that carries the params and never a body. |
| Client.Patch | plugins/module_utils/tfc.py:89-90 | One PATCH that carries the body and never params. |
| Client.Create | plugins/module_utils/tfc.py:92-93 | One POST that carries the body and never params. |
| Routes.Path | plugins/modules/tfc_workspace_var_update.py:86-87 | Every filled-in path template starts with `/`, so the client appends it to the base URL. |
| Routes.PathIsJoinedSegments | plugins/modules/hcp_workspace_update.py:111-112 | Each template is its segments joined by `/`. |
| Routes.ParsePath | plugins/modules/tfc_workspace_var_update.py:86-87 | A path reads back as the route it was built from, as long as no identifier contains `/`. |
| Routes.PathInjective | plugins/modules/tfc_workspace_var_update.py:86-87 | Distinct routes with slash-free identifiers have distinct paths. |
| Routes.SlashInIdentifier | plugins/modules/hcp_workspace_update.py:111 | The templates do not escape their identifiers: workspace id `a/vars` addresses the variable list of workspace `a`. |
| Resolve.WorkspacePath | plugins/modules/hcp_workspace_update.py:127-131 | The path starts with `/`. For slash-free identifiers, it reads back as the workspace-by-id route when there is an id, and otherwise as the by-name route of the organization and name. |
| Resolve.IdIgnoresName | plugins/modules/tfc_workspace_info.py:93-94 | With an id, the name and organization given do not change the path. |
| Resolve.ToWorkspaceRef | plugins/modules/hcp_workspace_update.py:169-173 | The parameter combinations the argument spec accepts are exactly those that map to a `WorkspaceRef`. For them the module's path is the path of that reference. An id gives `ById`. |
| Resolve.ResolvePayload | plugins/modules/hcp_workspace_update.py:133-138 | The body is always an object. A payload is sent unchanged. Otherwise the body has the single key `data`, holding the data or else `{"attributes": attributes}`, with `null` when attributes are absent. |
| Resolve.ToPayloadInput | plugins/modules/hcp_workspace_update.py:169-173 | The accepted combinations of payload/data/attributes are exactly the three `PayloadInput` forms. For them the resolved body is that form's envelope. |
| Resolve.FormsAbbreviate | plugins/modules/tfc_workspace_var_update.py:102-107 | `data: d` sends what `payload: {data: d}` sends. `attributes: a` sends what `data: {attributes: a}` sends. |
| Resolve.PayloadPrecedence | plugins/modules/hcp_var_update.py:95-100 | A payload hides data and attributes. Data hides attributes. |
| Resolve.Subscript | plugins/modules/tfc_workspace_var_update.py:117-118 | `j[key]` is a value exactly for a dict holding the key. It raises `KeyError` exactly for a dict without it, and `TypeError` otherwise. |
| Resolve.Records | plugins/modules/tfc_workspace_var_update.py:117-118 | `filter` accepts exactly lists and the empty string or dict. A list yields its items, the empty string or dict yields none, and every other value raises `TypeError`. |
| Resolve.FilterByKey | plugins/modules/tfc_workspace_var_update.py:117-118 | The filter succeeds exactly when every record has `attributes.key`. Otherwise it raises the exception of the first record without one. On success it keeps exactly the records whose key matches, in their order, as an independent back-to-front reference filter (`Matching`) does. It is empty exactly when none matches, and otherwise starts with the first match. |
| Resolve.LookupVariableId | plugins/modules/tfc_workspace_var_update.py:116-120 | The variable list resolves the key to the `id` of the first record whose key matches. It reports no match exactly when no record matches. A malformed list or id lookup raises an exception that is not a `TfcError`. A malformed record raises the exception of the first malformed record, even after a match. When every record is well formed and the first match has no `id`, it raises `KeyError`. |
| Resolve.MalformedRecordRaises | plugins/modules/tfc_workspace_var_update.py:117-118 | A malformed record anywhere in the list, even after a match, makes the lookup raise. |
| Resolve.LookupExample | plugins/modules/tfc_workspace_var_update.py:116-120 | In a list with keys `a` and `b`, `b` resolves to the id of its record (`var-2`) and `z` is not found. |
| ListQuery.SearchOf | plugins/modules/hcp_workspaces_info.py:108-111 | `search_name` wins over `search_wildcard_name`. There is no filter exactly when neither is given. |
| ListQuery.QueryParams | plugins/modules/hcp_workspaces_info.py:106-111 | `page[number]` comes first and `page[size]` second. Exactly two pairs are sent without a filter, and three with one. |
| ListQuery.QueryParamsRoundTrip | plugins/modules/hcp_workspaces_info.py:106-111 | The pairs read back as exactly the page number, page size and filter they were built from. |
| ListQuery.QueryParamsExample | plugins/modules/hcp_workspaces_info.py:106-109 | Page 2 of size 5 filtered by name `foo` is the pairs `page[number]=2`, `page[size]=5`, `search[name]=foo`. |
| ListQuery.TargetOf | plugins/modules/hcp_workspaces_info.py:100-111 | A direct link is used as it is. Otherwise the page has the given number and size, defaulting to 1 and 20, and the filter chosen by `SearchOf`. |
| ListQuery.AcceptedTargetKeepsEverything | plugins/modules/hcp_workspaces_info.py:143-149 | For accepted arguments no option is silently dropped. A direct link comes with no page or search option. A name filter comes without a wildcard. The page query has no filter exactly when none was given. |
| Ansible.Finish | plugins/modules/hcp_workspace_update.py:176-181 | The module fails exactly on a `TfcError`, with its text. It exits exactly on a JSON object, whose fields are the facts. It crashes with `TypeError` exactly on a non-object result or an uncaught `TypeError`. |
| Ansible.Conclude | plugins/modules/hcp_workspace_update.py:166-181 | Arguments are refused exactly when the argument spec rejects them, and then nothing is sent. A failure carries the `TfcError` message, and an exit carries the operation's object result. Conversely, for accepted arguments every `TfcError` becomes a failure with its message, and every object result becomes an exit with its fields. A non-object result crashes with `TypeError`, and any other exception crashes with that exception. |
| Ansible.ConcludeChecked | plugins/modules/hcp_workspace_update.py:166-168 | Validation comes first, even in check mode. In check mode a module without check-mode support sends nothing and, once its arguments are accepted, exits with `skipped`. Otherwise the run is that of `Conclude`. |
| HcpWorkspaceUpdate.PatchWorkspace | plugins/modules/hcp_workspace_update.py:115-144 | Nothing is sent exactly when the URL fails the client's test. Otherwise exactly one PATCH of the workspace path, with no params, the resolved body and the bearer headers, is sent, and its response is the result. |
| HcpWorkspaceUpdate.Main | plugins/modules/hcp_workspace_update.py:147-181 | Refused exactly when the argument spec rejects the arguments. At most one request is sent, a PATCH without params. Outside check mode a successful exit always follows one. |
| HcpWorkspaceUpdate.CheckModeSkips | plugins/modules/hcp_workspace_update.py:166-168 | For accepted arguments, a check-mode run sends nothing and exits reporting `skipped`, while the same arguments outside check mode send the PATCH. |
| HcpWorkspaceUpdate.AcceptedUpdate | plugins/modules/hcp_workspace_update.py:166-174 | For accepted arguments the module sends the PATCH of its `WorkspaceRef`'s route, with its `PayloadInput`'s envelope. |
| HcpWorkspaceUpdate.UpdateOutcome | plugins/modules/hcp_workspace_update.py:140-144 | The facts are the decoded response object, unchanged. A request failure's message names the request URL. A crash means the response was valid JSON but not an object. |
| TfcWorkspaceVarUpdate.PatchVar | plugins/modules/tfc_workspace_var_update.py:122-126 | One PATCH of `/workspaces/{ws}/vars/{id}` with the resolved body, and its classified response. |
| TfcWorkspaceVarUpdate.UpdateByKey | plugins/modules/tfc_workspace_var_update.py:111-126 | The list GET comes first. A PATCH follows exactly when the list was read and the key was found, and it targets the found id. A list failure, "Variable with key K not found." or an uncaught lookup exception ends the run without a PATCH. |
| TfcWorkspaceVarUpdate.UpdateVar | plugins/modules/tfc_workspace_var_update.py:90-128 | Without a key: one PATCH of the given id and no GET. With a key: the behaviour of `UpdateByKey`. Nothing is sent when the URL fails the client's test. |
| TfcWorkspaceVarUpdate.Main | plugins/modules/tfc_workspace_var_update.py:131-164 | Refused exactly when the argument spec rejects the arguments. At most two requests are sent, and two means a GET followed by a PATCH. A failure after only the GET names the list URL or reports the missing key. |
| TfcWorkspaceVarUpdate.CheckModeIgnored | plugins/modules/tfc_workspace_var_update.py:150-157 | A check-mode run sends the same requests and ends the same way as a normal run. |
| TfcWorkspaceVarUpdate.KeyResolvesToId | plugins/modules/tfc_workspace_var_update.py:111-126 | When the key resolves, the run is that of the resolved id given directly (which the argument spec accepts), with the list GET prepended, and it ends the same way. |
| TfcWorkspaceVarUpdate.RunByKey | plugins/modules/tfc_workspace_var_update.py:111-126 | Once the list read succeeds and the key is found, the run is exactly the list GET followed by the PATCH of the found id, and its result is that PATCH's response as the client classifies it. |
| TfcWorkspaceVarUpdate.Scenario | plugins/modules/tfc_workspace_var_update.py:90-128 | Updating key `var1` of `ws-1` against a server listing it as `var-9` sends a GET of `.../workspaces/ws-1/vars`, then a PATCH of `.../vars/var-9` with `{"data": data}`, and exits with the echoed object. |
| HcpVarUpdate.UpdateVar | plugins/modules/hcp_var_update.py:85-108 | Nothing is sent exactly when the URL fails the client's test. Otherwise one PATCH of `/vars/{id}` with the resolved body is sent, and its response is the result. |
| HcpVarUpdate.Main | plugins/modules/hcp_var_update.py:111-140 | Refused exactly when the argument spec rejects the arguments. At most one request is sent, a PATCH with a body. |
| HcpVarUpdate.AcceptedUpdate | plugins/modules/hcp_var_update.py:95-106 | For accepted arguments the PATCH goes to the `GlobalVar` route of the id, with the envelope of the payload form. A slash-free id reads back from the path. |
| HcpVarUpdate.CheckModeIgnored | plugins/modules/hcp_var_update.py:128-133 | A check-mode run sends the same PATCH and ends the same way as a normal run. |
| TfcWorkspaceInfo.GetWorkspace | plugins/modules/tfc_workspace_info.py:84-102 | Nothing is sent exactly when the URL fails the client's test. Otherwise one GET of the workspace path with no params and no body is sent, and its response is the result. |
| TfcWorkspaceInfo.Main | plugins/modules/tfc_workspace_info.py:105-135 | Refused exactly when the argument spec rejects the arguments. At most one request is sent, a GET without a body. |
| TfcWorkspaceInfo.AcceptedRead | plugins/modules/tfc_workspace_info.py:121-128 | For accepted arguments the GET goes to the route of the `WorkspaceRef`. |
| TfcWorkspaceInfo.InfoAndUpdateAgree | plugins/modules/tfc_workspace_info.py:93-100 | The info module and `hcp_workspace_update` address the same workspace with the same URL and headers. |
| TfcWorkspaceVarsInfo.GetWorkspaceVars | plugins/modules/tfc_workspace_vars_info.py:62-74 | Nothing is sent exactly when the URL fails the client's test. Otherwise one GET of `/workspaces/{id}/vars` with no params and no body is sent, and its response is the result. |
| TfcWorkspaceVarsInfo.Main | plugins/modules/tfc_workspace_vars_info.py:77-101 | Never refused. At most one request is sent, a GET without a body. A failure names the URL. |
| TfcWorkspaceVarsInfo.SameListing | plugins/modules/tfc_workspace_vars_info.py:62-74 | The module sends exactly the list request `tfc_workspace_var_update` sends before a key lookup. Its facts are the list that lookup reads. |
| HcpWorkspacesInfo.GetWorkspaces | plugins/modules/hcp_workspaces_info.py:88-117 | Nothing is sent exactly when the URL fails the client's test. A direct link is read without params. Otherwise the organization's workspaces are read with the page query. The response is the result. |
| HcpWorkspacesInfo.Main | plugins/modules/hcp_workspaces_info.py:120-157 | Refused exactly when the argument spec rejects the arguments. At most one GET without a body is sent, with no params exactly when a direct link was given. |
| HcpWorkspacesInfo.PageQuerySent | plugins/modules/hcp_workspaces_info.py:100-115 | The params sent read back as the requested page and size, defaulting to 1 and 20, and the name filter, else the wildcard filter. |
| HcpWorkspacesInfo.DirectLinkVerbatim | plugins/modules/hcp_workspaces_info.py:102-103 | An absolute direct link is fetched exactly as given, without params. |
| HcpWorkspacesInfo.DefaultPage | plugins/modules/hcp_workspaces_info.py:132-133 | With only the organization given, the params are `page[number]=1`, `page[size]=20`. |
| TfcWorkspacesInfo.StringPairs | plugins/modules/tfc_workspaces_info.py:136-144 | Keys are kept. String values are kept. Integer values become decimal numerals that read back as the integer. |
| TfcWorkspacesInfo.WorkspacesUrl | plugins/modules/tfc_workspaces_info.py:133-144 | A direct link is the URL verbatim. Otherwise the URL is `<api_url>/api/<version>/organizations/<org>/workspaces?` followed by a query string that decodes to exactly the page and search pairs, in order. |
| TfcWorkspacesInfo.LooseSchemeIsWeaker | plugins/modules/tfc_workspaces_info.py:146-148 | Every URL the client accepts passes the module's test, but `httpx://a` passes the module's test and not the client's. |
| TfcWorkspacesInfo.Load | plugins/modules/tfc_workspaces_info.py:154-165 | The result is the parsed body exactly when it was read and is valid JSON. A `ValueError`, including invalid JSON, gives a message starting "API returned invalid JSON when trying to get " and the URL. Any other exception gives one starting "Response error from " and the URL. |
| TfcWorkspacesInfo.LoadAgreesWithClassify | plugins/modules/tfc_workspaces_info.py:154-165 | For a response whose status the client accepts, the legacy mapping and the client's classification give the same body, or both a decode error. |
| TfcWorkspacesInfo.GetWorkspaces | plugins/modules/tfc_workspaces_info.py:119-167 | Nothing is opened exactly when the URL fails the loose test. Otherwise the URL is opened once, with only the bearer `Authorization` header and the given TLS, agent and timeout settings, and what it loads is mapped by `Load`. |
| TfcWorkspacesInfo.Main | plugins/modules/tfc_workspaces_info.py:170-209 | Refused exactly when the argument spec rejects the arguments. At most one URL is opened, and a failure names it. |
| TfcWorkspacesInfo.SameQueryAsClientModule | plugins/modules/tfc_workspaces_info.py:136-144 | For the same options, the query string carries the same pairs in the same order as the params `hcp_workspaces_info` sends. |
| TfcWorkspacesInfo.SamePathAsClientModule | plugins/modules/tfc_workspaces_info.py:112 | With the default URL and version, the list URL goes to the same place as the client module's organization-workspaces request. |
| TfcWorkspacesInfo.DefaultStringPairs | plugins/modules/tfc_workspaces_info.py:183-184 | The default page query encodes the pairs `page[number]=1` and `page[size]=20`. |
| TfcWorkspacesInfo.DefaultListUrl | plugins/modules/tfc_workspaces_info.py:143-144 | With no page or search options the module opens the list URL with the encoded pairs `page[number]=1`, `page[size]=20`. |
| UrlEncode.FormEncodeRoundTrip | plugins/modules/tfc_workspaces_info.py:144 | `urlencode` of string pairs decodes back to the UTF-8 bytes of every key and value, in order. |
| UrlEncode.QuoteBytesRoundTrip | plugins/modules/tfc_workspaces_info.py:144 | Percent-encoding a byte string decodes back to it. |
| UrlEncode.QuotePlusHasNoSeparators | plugins/modules/tfc_workspaces_info.py:144 | An encoded key or value never contains `&` or `=`. |
| UrlEncode.QuoteBracketed | plugins/modules/tfc_workspaces_info.py:136-141 | A bracketed parameter name such as `page[number]` is encoded as `page%5Bnumber%5D`. |
| UrlEncode.Utf8CharRoundTrip | plugins/modules/tfc_workspaces_info.py:144 | The UTF-8 bytes `quote_plus` encodes decode back to the character. |
| Text.IntToStringRoundTrip | plugins/modules/tfc_workspaces_info.py:144 | `str()` of an integer is a decimal numeral, signed when negative, that reads back as the integer. |
| Text.LowerPrefix | plugins/module_utils/tfc.py:53 | Lower-casing and then testing a lower-case prefix is the same as a case-insensitive prefix test. |

## Left out

- The `HAS_REQUESTS` import check (plugins/module_utils/tfc.py:11-17,47-48): it depends on the Python environment. The model assumes `requests` is installed.
- The HTTP libraries (`requests.get/patch/post`, `open_url`), TLS and the network are the `Transport`/`Opener` parameters. `validate_certs`, `connection_timeout` and `http_agent` are only passed through and recorded in the trace.
- JSON decoding is part of the transport's outcome (`Valid(json)` or `Invalid(reason)`). JSON numbers are integers: there are no floats.
- The `else` branch at plugins/module_utils/tfc.py:67-68 cannot be reached, because a `None` path already fails at line 63. Paths are modelled as strings.
- AnsibleModule's argument parsing beyond the declared constraints is left out: aliases, `no_log`, type coercion, required parameters (they are non-optional fields here) and explicit `null`s. The defaults of `validate_certs`, `connection_timeout`, `api_url`, `api_version` and `http_agent` are already applied in each `Params`. The page defaults are applied by `ListQuery.TargetOf`.
- Ansible.ConcludeChecked: `AnsibleModule` belongs to ansible-core and is not part of this model. Its validation-then-skip order and the `skipped` facts follow ansible-core's documented behaviour.
- Check mode is a parameter of the three update modules. The three info modules and the legacy list module declare check-mode support and never read it, so they run the same either way and carry no such parameter.
- Json.PyStr: an id that is a JSON array or object is rendered by a fixed placeholder, not by Python's `repr`. Strings, integers, booleans and `null` render as Python would.
- Text.Lower: lowers ASCII letters only, unlike Python's Unicode `str.lower`. No other character lowers to one of `h`, `t`, `p`, `s` or `:`, so the scheme tests agree.
- `TerraformCloudError` of `tfc_workspaces_info` is represented by the same `TfcError` constructor as the client's error, since both reach `fail_json` the same way.
- TfcWorkspacesInfo.DefaultListUrl: states the default URL with `FormEncode` of the default pairs rather than as a literal percent-encoded string. `UrlEncode.QuoteBracketed` gives the encoding of each key.
- The documentation fragments and the `DOCUMENTATION`/`EXAMPLES`/`RETURN` strings have no behaviour.
