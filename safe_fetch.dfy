/** `fetchJson`, the wrapper every page calls: it adds the stored bearer token,
    sends cookies by default, and turns the response into parsed JSON or an
    error with a fixed message. The network, the browser's `localStorage` and
    `JSON.parse` are inputs. */
module SafeFetch {
  import opened Js
  import opened Text

  /** Header names as the `Headers` class keeps them (lower case) with their values. */
  type Headers = map<string, string>

  const Authorization := "authorization"
  const DefaultCredentials := "include"
  const JsonMediaType := "application/json"
  const PreviewLength: nat := 300

  /** The caller's `RequestInit`: absent fields are None; absent headers are an empty map. */
  datatype RequestOptions = RequestOptions(
    verb: Option<string>, headers: Headers, body: Option<string>, credentials: Option<string>)

  /** What is handed to `fetch`. */
  datatype Request = Request(
    url: string, verb: Option<string>, headers: Headers, body: Option<string>, credentials: string)

  /** A received response: status, `Content-Type` header, body text, and what
      `JSON.parse` makes of the body (None when it throws). */
  datatype Response = Response(status: nat, contentType: Option<string>, body: string, parsed: Option<Json>)

  /** `fetch` either rejects (a TypeError with the browser's message) or yields a response. */
  datatype Transport = NetworkFailure(message: string) | Received(response: Response)

  /** `if (token) headers.set('Authorization', 'Bearer ' + token)`: a stored,
      non-empty token is set over any caller value; other headers pass through and
      nothing else is added. */
  method BuildHeaders(token: Option<string>, callerHeaders: Headers) returns (headers: Headers)
    ensures token.Some? && token.value != "" ==>
      Authorization in headers && headers[Authorization] == "Bearer " + token.value
    ensures !(token.Some? && token.value != "") ==> headers == callerHeaders
    ensures forall name :: name != Authorization ==> (name in headers <==> name in callerHeaders)
    ensures forall name :: name != Authorization && name in headers ==> headers[name] == callerHeaders[name]
  {
    headers := callerHeaders;
    if token.Some? && token.value != "" {
      headers := headers[Authorization := "Bearer " + token.value];
    }
  }

  /** `{ credentials: 'include', ...opts, headers }` */
  function RequestFor(url: string, opts: RequestOptions, headers: Headers): (req: Request)
    ensures req.credentials == if opts.credentials.Some? then opts.credentials.value else DefaultCredentials
    ensures req.headers == headers
    ensures req.url == url && req.verb == opts.verb && req.body == opts.body
  {
    Request(url, opts.verb, headers,
            opts.body, if opts.credentials.Some? then opts.credentials.value else DefaultCredentials)
  }

  /** `res.ok` */
  predicate IsOk(status: nat) {
    200 <= status <= 299
  }

  function NonJsonMessage(status: nat, body: string): string {
    "Non-JSON response (status " + IntToString(status) + "): " + Take(body, PreviewLength)
  }

  function InvalidJsonMessage(status: nat): string {
    "Invalid JSON response (status " + IntToString(status) + ")"
  }

  function HttpMessage(status: nat): string {
    "HTTP " + IntToString(status)
  }

  /** `res.headers.get('content-type') || ''` includes `application/json`. */
  predicate DeclaresJson(res: Response) {
    Contains(if res.contentType.Some? then res.contentType.value else "", JsonMediaType)
  }

  /** The three ordered checks on a response: JSON content type, then a parsable
      body, then a 2xx status. */
  function Classify(res: Response): (r: Result<Json>)
    // first: a content type that does not mention application/json, whatever the status
    ensures !DeclaresJson(res) ==>
      r == Err(Error(NonJsonMessage(res.status, res.body)))
    // second: a JSON content type with a body that does not parse
    ensures DeclaresJson(res) && res.parsed.None? ==>
      r == Err(Error(InvalidJsonMessage(res.status)))
    // third: the status, with the backend's `error` field preferred
    ensures r.Err? && res.parsed.Some? && DeclaresJson(res) ==>
      !IsOk(res.status) &&
      r.error == Error(if Nullish(Get(res.parsed.value, "error")) then HttpMessage(res.status)
                       else ToText(res.parsed.value.fields["error"]))
    // success: the parsed body, unchanged, for every 2xx status
    ensures r.Ok? <==> DeclaresJson(res) && res.parsed.Some? && IsOk(res.status)
    ensures r.Ok? ==> r.value == res.parsed.value
    ensures r.Err? ==> r.error.Error?
  {
    if !DeclaresJson(res) then
      Err(Error(NonJsonMessage(res.status, res.body)))
    else if res.parsed.None? then
      Err(Error(InvalidJsonMessage(res.status)))
    else if !IsOk(res.status) then
      var msg := Get(res.parsed.value, "error");
      Err(Error(if Nullish(msg) then HttpMessage(res.status) else ToText(msg.value)))
    else
      Ok(res.parsed.value)
  }

  /** `fetchJson(url, opts)`: the request sent and the value it resolves or rejects with. */
  method FetchJson(url: string, opts: RequestOptions, token: Option<string>, transport: Transport)
    returns (req: Request, r: Result<Json>)
    ensures req.url == url && req.verb == opts.verb && req.body == opts.body
    ensures req.credentials == if opts.credentials.Some? then opts.credentials.value else DefaultCredentials
    ensures token.Some? && token.value != "" ==>
      Authorization in req.headers && req.headers[Authorization] == "Bearer " + token.value
    ensures !(token.Some? && token.value != "") ==> req.headers == opts.headers
    ensures forall name :: name != Authorization ==> (name in req.headers <==> name in opts.headers)
    ensures forall name :: name != Authorization && name in req.headers ==> req.headers[name] == opts.headers[name]
    ensures transport.NetworkFailure? ==> r == Err(TypeError(transport.message))
    ensures transport.Received? ==> r == Classify(transport.response)
  {
    var headers := BuildHeaders(token, opts.headers);
    req := RequestFor(url, opts, headers);
    match transport {
      case NetworkFailure(message) =>
        r := Err(TypeError(message));
      case Received(response) =>
        r := Classify(response);
    }
  }

  /** The content-type check comes before the status: a non-JSON error page is
      reported as such, with a body preview of at most 300 characters. */
  lemma NonJsonPreviewBounded(res: Response)
    requires res.contentType.None?
    ensures Classify(res).Err?
    ensures |Classify(res).error.message| <= |NonJsonMessage(res.status, "")| + PreviewLength
  {
    assert !Contains("", JsonMediaType);
  }
}
