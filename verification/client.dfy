/** The request client of `plugins/module_utils/tfc.py`: construction of the
    base URL, composition of the request URL, the bearer-token header, and the
    classification of every way a request can fail into one `TfcError`.

    The HTTP library is an abstract `Transport`: a total function from the
    request the client hands it to what came back. Every call the client makes
    is recorded, in order, in the trace of a `Run`. */
module Client {
  import opened Optional
  import opened Text
  import opened Json

  const DefaultUrl: string := "https://app.terraform.io"
  const ApiVersion: string := "v2"
  const ContentType: string := "application/vnd.api+json"

  // ---------------------------------------------------------------------------
  // Errors and results.

  /** Which failure a `TfcError` reports. */
  datatype ErrorKind =
    | ConfigError     // base URL with the wrong scheme
    | StatusError     // an HTTP error status
    | TransportError  // the request did not complete
    | DecodeError     // the body is not JSON
    | NotFound        // no variable with the requested key
    | ResponseError   // any other failure of the list module's own transport

  /** Python exceptions the modules do not catch. */
  datatype PyException = KeyError | TypeError

  datatype Failure =
    | TfcError(kind: ErrorKind, message: string)
    | Uncaught(exception: PyException)

  datatype Result<+T> = Ok(value: T) | Err(failure: Failure)

  // ---------------------------------------------------------------------------
  // Requests and the transport.

  datatype Verb = GET | POST | PATCH

  /** A query-parameter value: the modules pass ints and strings. */
  datatype ParamValue = PInt(i: int) | PStr(s: string)

  type Params = seq<(string, ParamValue)>

  /** One call into the HTTP library: verb, URL, query parameters (`params=`),
      JSON body (`json=`), headers after authentication, `verify=`, `timeout=`. */
  datatype Request = Request(
    verb: Verb,
    url: string,
    params: Option<Params>,
    body: Option<Json>,
    headers: map<string, string>,
    verify: bool,
    timeout: int)

  /** The body of a response, as JSON decoding sees it. */
  datatype Decoded = Valid(json: Json) | Invalid(reason: string)

  /** What a request produced: a response with its status code, the text the
      library gives an HTTP error for that status, and its body; or a failure
      to complete the request at all (refused connection, TLS, timeout). */
  datatype Outcome =
    | Response(status: nat, errorText: string, body: Decoded)
    | ConnectionError(detail: string)

  type Transport = Request -> Outcome

  /** The requests a computation issued, in order, and what it produced. */
  datatype Run<+T> = Run(trace: seq<Request>, result: Result<T>)

  // ---------------------------------------------------------------------------
  // Construction.

  datatype Client = Client(apiUrl: string, token: Option<string>, headers: map<string, string>)

  /** The scheme test of the constructor: case-insensitive. */
  predicate ClientScheme(url: string) {
    HasPrefix(Lower(url), "http:") || HasPrefix(Lower(url), "https:")
  }

  function SchemeMessage(url: string): string {
    "url '" + url + "' should either start with 'http' or 'https'."
  }

  /** `TfcClient(token, url)`. */
  function NewClient(token: Option<string>, url: Option<string>): (r: Result<Client>)
    ensures r.Ok? <==> ClientScheme(url.GetOr(DefaultUrl))
    ensures r.Ok? ==> r.value.apiUrl == url.GetOr(DefaultUrl) + "/api/" + ApiVersion
    ensures r.Ok? ==> r.value.token == token
    ensures r.Ok? ==> r.value.headers == map["Content-Type" := ContentType]
    ensures r.Err? ==> r.failure.TfcError? && r.failure.kind == ConfigError
    ensures r.Err? ==> Contains(r.failure.message, url.GetOr(DefaultUrl))
  {
    var u := url.GetOr(DefaultUrl);
    if !ClientScheme(u) then
      ContainsMiddle("url '", u, "' should either start with 'http' or 'https'.");
      Err(TfcError(ConfigError, SchemeMessage(u)))
    else
      Ok(Client(u + "/api/" + ApiVersion, token, map["Content-Type" := ContentType]))
  }

  /** Reference definition of the accepted schemes: `http:` or `https:`, each
      letter in either case. */
  predicate SchemeIgnoringCase(url: string) {
    PrefixIgnoringCase(url, "http:") || PrefixIgnoringCase(url, "https:")
  }

  lemma ClientSchemeIgnoresCase(url: string)
    ensures ClientScheme(url) <==> SchemeIgnoringCase(url)
  {
    LowerPrefix(url, "http:");
    LowerPrefix(url, "https:");
  }

  lemma DefaultUrlAccepted()
    ensures ClientScheme(DefaultUrl)
  {
    ClientSchemeIgnoresCase(DefaultUrl);
    assert PrefixIgnoringCase(DefaultUrl, "https:");
  }

  const DefaultApiUrl: string := "https://app.terraform.io/api/v2"

  /** With no URL the client talks to `https://app.terraform.io/api/v2`. */
  lemma DefaultBase(token: Option<string>)
    ensures NewClient(token, None).Ok?
    ensures NewClient(token, None).value.apiUrl == DefaultApiUrl
  {
    DefaultUrlAccepted();
  }

  /** Upper-case schemes are accepted. */
  lemma SchemeAcceptsUpperCase()
    ensures NewClient(None, Some("HTTPS://x")).Ok?
    ensures NewClient(None, Some("Http://x")).Ok?
  {
    assert PrefixIgnoringCase("HTTPS://x", "https:");
    ClientSchemeIgnoresCase("HTTPS://x");
    assert PrefixIgnoringCase("Http://x", "http:");
    ClientSchemeIgnoresCase("Http://x");
  }

  /** Other schemes, and a scheme without its colon, are refused. */
  lemma SchemeRefusesOthers()
    ensures NewClient(None, Some("ftp://x")).Err?
    ensures NewClient(None, Some("https//x")).Err?
  {
    assert !SameIgnoringCase("ftp://x"[0], "http:"[0]);
    ClientSchemeIgnoresCase("ftp://x");
    assert !SameIgnoringCase("https//x"[4], "http:"[4]);
    assert !SameIgnoringCase("https//x"[5], "https:"[5]);
    ClientSchemeIgnoresCase("https//x");
  }

  // ---------------------------------------------------------------------------
  // URL composition and authentication.

  /** The test on a request path: case-sensitive, unlike the constructor's. */
  predicate AbsolutePath(path: string) {
    HasPrefix(path, "http:") || HasPrefix(path, "https:")
  }

  /** The URL `do_request` calls for `path`. */
  function RequestUrl(c: Client, path: string): (url: string)
    ensures AbsolutePath(path) ==> url == path
    ensures !AbsolutePath(path) ==> HasPrefix(url, c.apiUrl) && url[|c.apiUrl|..] == path
  {
    if AbsolutePath(path) then path else c.apiUrl + path
  }

  /** A URL the client composed is passed through unchanged when handed back as
      a path (a pagination link), provided the base URL spells its scheme in
      lower case. */
  lemma RequestUrlIdempotent(c: Client, path: string)
    requires AbsolutePath(c.apiUrl)
    ensures RequestUrl(c, RequestUrl(c, path)) == RequestUrl(c, path)
  {
    var url := RequestUrl(c, path);
    if !AbsolutePath(path) {
      assert url[..|c.apiUrl|] == c.apiUrl;
      if HasPrefix(c.apiUrl, "http:") {
        assert url[..5] == c.apiUrl[..5];
      } else {
        assert url[..6] == c.apiUrl[..6];
      }
    }
  }

  /** The scheme test on paths does not ignore case: a client built from a
      URL with an upper-case scheme (which the constructor accepts, as for
      `HTTPS://x`) prefixes its own base URL again when that URL comes back
      as a path. */
  lemma PathTestIsCaseSensitive(url: string)
    requires ClientScheme(url) && |url| > 0 && url[0] == 'H'
    ensures NewClient(None, Some(url)).Ok?
    ensures var c := NewClient(None, Some(url)).value;
      RequestUrl(c, c.apiUrl) == c.apiUrl + c.apiUrl
  {
    var c := NewClient(None, Some(url)).value;
    assert c.apiUrl[0] == 'H';
    assert !AbsolutePath(c.apiUrl) by {
      assert |c.apiUrl| >= 5 ==> c.apiUrl[..5][0] == 'H';
      assert |c.apiUrl| >= 6 ==> c.apiUrl[..6][0] == 'H';
    }
  }

  /** `TfcTokenAuth(token)(r)`: sets `Authorization: Bearer <token>` when there
      is a token and touches no other header. */
  function Sign(headers: map<string, string>, token: Option<string>): (h: map<string, string>)
    ensures token.Some? ==> "Authorization" in h && h["Authorization"] == "Bearer " + token.value
    ensures token.None? ==> h == headers
    ensures forall k :: k != "Authorization" ==> (k in h <==> k in headers)
    ensures forall k :: k != "Authorization" && k in h ==> h[k] == headers[k]
  {
    match token
    case Some(t) => headers["Authorization" := "Bearer " + t]
    case None => headers
  }

  /** The headers of every request a client sends. */
  lemma SignedClientHeaders(c: Client)
    requires c.headers == map["Content-Type" := ContentType]
    ensures "Content-Type" in Sign(c.headers, c.token)
    ensures Sign(c.headers, c.token)["Content-Type"] == ContentType
    ensures "Authorization" in Sign(c.headers, c.token) <==> c.token.Some?
    ensures Sign(c.headers, c.token).Keys <= {"Content-Type", "Authorization"}
  {
  }

  /** The base URL of the client a module builds from its `api_url`. */
  function BaseUrl(url: Option<string>): string {
    url.GetOr(DefaultUrl) + "/api/" + ApiVersion
  }

  /** The headers of every request a module sends: the modules always pass a
      token. */
  function BearerHeaders(token: string): map<string, string> {
    map["Content-Type" := ContentType, "Authorization" := "Bearer " + token]
  }

  /** The client a module builds from `api_token` and `api_url`: refused for a
      bad scheme; otherwise it sends every path the modules use (all start with
      `/`) to the base URL followed by the path, with the bearer headers. */
  lemma ModuleClient(token: string, url: Option<string>, path: string)
    requires HasPrefix(path, "/")
    ensures NewClient(Some(token), url).Ok? <==> ClientScheme(url.GetOr(DefaultUrl))
    ensures NewClient(Some(token), url).Ok? ==>
      var c := NewClient(Some(token), url).value;
      && RequestUrl(c, path) == BaseUrl(url) + path
      && Sign(c.headers, c.token) == BearerHeaders(token)
  {
    if NewClient(Some(token), url).Ok? {
      assert !AbsolutePath(path) by {
        assert |path| >= 5 ==> path[..5][0] == '/';
        assert |path| >= 6 ==> path[..6][0] == '/';
      }
    }
  }

  // ---------------------------------------------------------------------------
  // Classification of outcomes.

  /** `raise_for_status` raises exactly for 4xx and 5xx statuses. */
  predicate ErrorStatus(status: nat) {
    400 <= status < 600
  }

  /** `'<prefix><url>: <detail>'`, the shape of every request-error message. */
  function ErrorMessage(prefix: string, url: string, detail: string): (msg: string)
    ensures HasPrefix(msg, prefix + url) && Contains(msg, url)
  {
    ContainsMiddle(prefix, url, ": " + detail);
    assert prefix + url + ": " + detail == prefix + url + (": " + detail);
    prefix + url + ": " + detail
  }

  /** What `do_request` makes of an outcome for `url`. The messages say `POST`
      whatever the verb. */
  function Classify(url: string, o: Outcome): (r: Result<Json>)
    ensures r.Ok? <==> o.Response? && !ErrorStatus(o.status) && o.body.Valid?
    ensures r.Ok? ==> r.value == o.body.json
    ensures r.Err? ==> r.failure.TfcError? && Contains(r.failure.message, url)
    ensures r.Err? && r.failure.kind == StatusError <==> o.Response? && ErrorStatus(o.status)
    ensures r.Err? && r.failure.kind == TransportError <==> o.ConnectionError?
    ensures r.Err? && r.failure.kind == DecodeError
        <==> o.Response? && !ErrorStatus(o.status) && o.body.Invalid?
    ensures r.Err? ==> r.failure.kind in {StatusError, TransportError, DecodeError}
  {
    match o
    case ConnectionError(detail) =>
      Err(TfcError(TransportError, ErrorMessage("Error trying request POST ", url, detail)))
    case Response(status, errorText, body) =>
      if ErrorStatus(status) then
        Err(TfcError(StatusError, ErrorMessage("Status code error from request POST ", url, errorText)))
      else
        match body
        case Valid(j) => Ok(j)
        case Invalid(reason) =>
          Err(TfcError(DecodeError,
            ErrorMessage("API returned invalid JSON when trying to POST ", url, reason)))
  }

  /** The status is checked before the body is decoded: an error status is a
      status error whatever the body, even one that is not JSON. */
  lemma StatusBeforeBody(url: string, status: nat, text: string, b1: Decoded, b2: Decoded)
    requires ErrorStatus(status)
    ensures Classify(url, Response(status, text, b1)) == Classify(url, Response(status, text, b2))
    ensures Classify(url, Response(status, text, b1)).failure.kind == StatusError
  {
  }

  /** The message prefixes of the three families. */
  lemma ClassifyMessages(url: string, o: Outcome)
    ensures var r := Classify(url, o);
      && (r.Err? && r.failure.kind == StatusError ==>
            HasPrefix(r.failure.message, "Status code error from request POST " + url))
      && (r.Err? && r.failure.kind == TransportError ==>
            HasPrefix(r.failure.message, "Error trying request POST " + url))
      && (r.Err? && r.failure.kind == DecodeError ==>
            HasPrefix(r.failure.message, "API returned invalid JSON when trying to POST " + url))
  {
  }

  // ---------------------------------------------------------------------------
  // Requests.

  /** `do_request`: one call into the transport, then classification. */
  function DoRequest(c: Client, t: Transport, m: Verb, path: string, params: Option<Params>,
                     body: Option<Json>, verify: bool, timeout: int): (run: Run<Json>)
    ensures |run.trace| == 1
    ensures run.trace[0].verb == m && run.trace[0].url == RequestUrl(c, path)
    ensures run.trace[0].params == params && run.trace[0].body == body
    ensures run.trace[0].headers == Sign(c.headers, c.token)
    ensures run.trace[0].verify == verify && run.trace[0].timeout == timeout
    ensures run.result == Classify(run.trace[0].url, t(run.trace[0]))
  {
    var req := Request(m, RequestUrl(c, path), params, body, Sign(c.headers, c.token), verify, timeout);
    Run([req], Classify(req.url, t(req)))
  }

  /** `client.read(path, params=...)`: a GET with parameters and no body. */
  function Read(c: Client, t: Transport, path: string, params: Option<Params>,
                verify: bool, timeout: int): (run: Run<Json>)
    ensures |run.trace| == 1
    ensures run.trace[0].verb == GET && run.trace[0].url == RequestUrl(c, path)
    ensures run.trace[0].params == params && run.trace[0].body.None?
    ensures run.trace[0].headers == Sign(c.headers, c.token)
    ensures run.trace[0].verify == verify && run.trace[0].timeout == timeout
    ensures run.result == Classify(run.trace[0].url, t(run.trace[0]))
  {
    DoRequest(c, t, GET, path, params, None, verify, timeout)
  }

  /** `client.patch(path, json=...)`: a PATCH with a body and no parameters. */
  function Patch(c: Client, t: Transport, path: string, body: Option<Json>,
                 verify: bool, timeout: int): (run: Run<Json>)
    ensures |run.trace| == 1
    ensures run.trace[0].verb == PATCH && run.trace[0].url == RequestUrl(c, path)
    ensures run.trace[0].params.None? && run.trace[0].body == body
    ensures run.trace[0].headers == Sign(c.headers, c.token)
    ensures run.trace[0].verify == verify && run.trace[0].timeout == timeout
    ensures run.result == Classify(run.trace[0].url, t(run.trace[0]))
  {
    DoRequest(c, t, PATCH, path, None, body, verify, timeout)
  }

  /** `client.create(path, json=...)`: a POST with a body and no parameters. */
  function Create(c: Client, t: Transport, path: string, body: Option<Json>,
                  verify: bool, timeout: int): (run: Run<Json>)
    ensures |run.trace| == 1
    ensures run.trace[0].verb == POST && run.trace[0].url == RequestUrl(c, path)
    ensures run.trace[0].params.None? && run.trace[0].body == body
    ensures run.trace[0].headers == Sign(c.headers, c.token)
    ensures run.trace[0].verify == verify && run.trace[0].timeout == timeout
    ensures run.result == Classify(run.trace[0].url, t(run.trace[0]))
  {
    DoRequest(c, t, POST, path, None, body, verify, timeout)
  }
}
