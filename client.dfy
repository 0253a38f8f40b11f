/**
 * The HTTP request helper (masv_portal/api/client.py): the request URL, the injected
 * `X-API-Key` header, and the decision `check_response` makes on a response. The
 * network is an input: `Context.send` answers the n-th request the process makes.
 */
module Client {
  import opened Wrappers
  import opened Json
  import opened Config

  const BaseUrl: string := "https://api.massive.app"
  const ApiKeyHeader: string := "X-API-Key"

  /** What goes on the wire: method, absolute URL, headers and the raw body. */
  datatype HttpRequest = HttpRequest(verb: string, url: string, headers: map<string, string>, body: Option<string>)

  /** A response's status code and body text. */
  datatype Response = Response(status: int, text: string)

  /** The transport's answer: a response, or the text of the exception the HTTP client raised. */
  datatype Reply = Received(response: Response) | Unreachable(reason: string)

  /** Everything outside the client: the environment, the library code, and the server. */
  datatype Context = Context(env: Env, lib: Library, send: (nat, HttpRequest) -> Reply)

  /** How a request ends: the parsed body, an exception (by its text), or `die` (SystemExit). */
  datatype Outcome = Returned(value: Json) | Raised(message: string) | Exited(cause: string)

  /** One call of `request`: its outcome, the requests it put on the wire, and its standard error lines. */
  datatype Call = Call(outcome: Outcome, requests: seq<HttpRequest>, stderr: seq<string>)

  /** The decision of `check_response` and the diagnostics it wrote. */
  datatype Checked = Checked(result: Result<Json>, stderr: seq<string>)

  /** The request URL: the fixed base followed by the path, with nothing escaped. */
  function Url(path: string): (url: string)
    ensures |url| == |BaseUrl| + |path|
    ensures url[..|BaseUrl|] == BaseUrl && url[|BaseUrl|..] == path
  {
    BaseUrl + path
  }

  /** The headers sent: the caller's, with `X-API-Key` set to the key whatever the caller gave. */
  function WithApiKey(headers: map<string, string>, key: string): (sent: map<string, string>)
    ensures sent.Keys == headers.Keys + {ApiKeyHeader}
    ensures sent[ApiKeyHeader] == key
    ensures forall h :: h in headers && h != ApiKeyHeader ==> sent[h] == headers[h]
  {
    headers[ApiKeyHeader := key]
  }

  /** httpx's `is_success`: the 2xx class of section 15.3 of RFC 9110. */
  predicate IsSuccess(status: int) {
    200 <= status <= 299
  }

  /** The number a string of decimal digits denotes, most significant digit first. */
  function Value(s: string): int
    decreases |s|
  {
    if s == [] then 0 else 10 * Value(s[..|s| - 1]) + (s[|s| - 1] as int - '0' as int)
  }

  /** The decimal digits of a natural number: its numeral, without leading zeros. */
  function Digits(n: nat): (s: string)
    ensures |s| > 0 && forall i :: 0 <= i < |s| ==> '0' <= s[i] <= '9'
    ensures Value(s) == n
    ensures |s| > 1 ==> s[0] != '0'
  {
    if n < 10 then ["0123456789"[n]] else Digits(n / 10) + ["0123456789"[n % 10]]
  }

  /** Python's `str` of an integer. */
  function Decimal(n: int): string {
    if n < 0 then "-" + Digits(-n) else Digits(n)
  }

  /** The body as `check_response` reads it: an empty text is the empty mapping, anything else is parsed. */
  function ParseBody(text: string, lib: Library): (r: Result<Json>)
    ensures text == "" ==> r == Success(JObject([]))
    ensures text != "" ==> r == lib.loads(text)
  {
    if text == "" then Success(JObject([])) else lib.loads(text)
  }

  /**
   * `check_response`: parse the body first; then write the diagnostics when verbose;
   * then fail on a status outside 2xx with the body's `message` (or "Unknown error"),
   * and otherwise return the parsed body as it is.
   */
  function CheckResponse(response: Response, verbose: bool, lib: Library): (c: Checked)
    ensures c.result.Success? <==> IsSuccess(response.status) && ParseBody(response.text, lib).Success?
    ensures c.result.Success? ==> c.result.value == ParseBody(response.text, lib).value
    ensures ParseBody(response.text, lib).Failure? ==>
      c.result == ParseBody(response.text, lib) && c.stderr == []
    ensures (!IsSuccess(response.status) && ParseBody(response.text, lib).Success? &&
             ParseBody(response.text, lib).value.JObject?) ==>
        var message := Lookup(ParseBody(response.text, lib).value.members, "message");
        c.result == Failure(Str(lib, message.GetOr(JString("Unknown error"))))
    ensures (!IsSuccess(response.status) && ParseBody(response.text, lib).Success? &&
             !ParseBody(response.text, lib).value.JObject?) ==>
        c.result == Failure("'" + TypeName(ParseBody(response.text, lib).value) + "' object has no attribute 'get'")
    ensures ParseBody(response.text, lib).Success? ==>
      c.stderr == if verbose then [Debug("response status: " + Decimal(response.status)),
                                   Debug("response body: " + response.text)] else []
  {
    match ParseBody(response.text, lib)
    case Failure(e) => Checked(Failure(e), [])
    case Success(body) =>
      var diagnostics := if verbose then [Debug("response status: " + Decimal(response.status)),
                                          Debug("response body: " + response.text)] else [];
      if IsSuccess(response.status) then Checked(Success(body), diagnostics)
      else
        match Get(body, "message", JString("Unknown error"))
        case Success(message) => Checked(Failure(Str(lib, message)), diagnostics)
        case Failure(e) => Checked(Failure(e), diagnostics)
  }

  /**
   * `request`: resolve the key (dying without it), write the URL when verbose, send
   * exactly one request and hand the response to `check_response`.
   */
  function Request(ctx: Context, sent: nat, path: string, verb: string, headers: map<string, string>,
                   body: Option<string>, verbose: bool): (c: Call)
    ensures c.outcome.Exited? <==> ApiKey(ctx.env).None?
    ensures ApiKey(ctx.env).None? ==> c == Call(Exited(MissingApiKey), [], [])
    ensures ApiKey(ctx.env).Some? ==>
      c.requests == [HttpRequest(verb, Url(path), WithApiKey(headers, ApiKey(ctx.env).value), body)]
    ensures c.outcome.Returned? ==>
      && ctx.send(sent, c.requests[0]).Received?
      && IsSuccess(ctx.send(sent, c.requests[0]).response.status)
      && ParseBody(ctx.send(sent, c.requests[0]).response.text, ctx.lib) == Success(c.outcome.value)
    ensures ApiKey(ctx.env).Some? && ctx.send(sent, c.requests[0]).Unreachable? ==>
      c.outcome == Raised(ctx.send(sent, c.requests[0]).reason)
    ensures ApiKey(ctx.env).Some? && ctx.send(sent, c.requests[0]).Received? ==>
      var checked := CheckResponse(ctx.send(sent, c.requests[0]).response, verbose, ctx.lib);
      c.outcome == (if checked.result.Success? then Returned(checked.result.value) else Raised(checked.result.error))
    ensures !verbose ==> c.stderr == []
    ensures verbose && ApiKey(ctx.env).Some? && ctx.send(sent, c.requests[0]).Unreachable? ==>
      c.stderr == [Debug("URL: " + Url(path))]
    ensures verbose && ApiKey(ctx.env).Some? && ctx.send(sent, c.requests[0]).Received? ==>
      c.stderr == [Debug("URL: " + Url(path))] +
                  CheckResponse(ctx.send(sent, c.requests[0]).response, verbose, ctx.lib).stderr
  {
    match ApiKey(ctx.env)
    case None => Call(Exited(MissingApiKey), [], [])
    case Some(key) =>
      var request := HttpRequest(verb, Url(path), WithApiKey(headers, key), body);
      var urlLine := if verbose then [Debug("URL: " + request.url)] else [];
      match ctx.send(sent, request)
      case Unreachable(reason) => Call(Raised(reason), [request], urlLine)
      case Received(response) =>
        var checked := CheckResponse(response, verbose, ctx.lib);
        var outcome := match checked.result
          case Success(v) => Returned(v)
          case Failure(e) => Raised(e);
        Call(outcome, [request], urlLine + checked.stderr)
  }

  /** A caller's header dict, which `request_async` may update in place. */
  class HeaderDict {
    var entries: map<string, string>

    constructor (entries: map<string, string>)
      ensures this.entries == entries
    {
      this.entries := entries;
    }
  }

  /**
   * The request shaping of `request_async` before the call: the URL, and the dict of
   * headers to send. `headers or {}` keeps a non-empty caller dict, which then receives
   * the key in place and is the very dict sent; a missing or empty one is replaced by a
   * new dict and left as it was. Without a key nothing is changed and there is nothing to send.
   */
  method PrepareRequest(path: string, headers: HeaderDict?, env: Env) returns (url: string, sent: Option<HeaderDict>)
    modifies headers
    ensures url == Url(path)
    ensures sent.Some? <==> ApiKey(env).Some?
    ensures sent.Some? ==>
      sent.value.entries == WithApiKey(if headers == null then map[] else old(headers.entries), ApiKey(env).value)
    ensures sent.Some? && headers != null && old(headers.entries) != map[] ==> sent.value == headers
    ensures sent.Some? && (headers == null || old(headers.entries) == map[]) ==> fresh(sent.value)
    ensures headers != null && (sent.None? || old(headers.entries) == map[]) ==> headers.entries == old(headers.entries)
  {
    url := BaseUrl + path;
    var target: HeaderDict;
    if headers != null && headers.entries != map[] {
      target := headers;
    } else {
      target := new HeaderDict(map[]);
    }
    match ApiKey(env)
    case None =>
      sent := None;
    case Some(key) =>
      target.entries := target.entries[ApiKeyHeader := key];
      sent := Some(target);
  }

  /** With an empty body, a 2xx status yields the empty mapping and any other status "Unknown error". */
  lemma EmptyBodyIsEmptyMapping(status: int, verbose: bool, lib: Library)
    ensures IsSuccess(status) ==> CheckResponse(Response(status, ""), verbose, lib).result == Success(JObject([]))
    ensures !IsSuccess(status) ==> CheckResponse(Response(status, ""), verbose, lib).result == Failure("Unknown error")
  {
  }

  /** A failing status whose body carries a string `message` raises exactly that message. */
  lemma ServerMessageSurfaces(response: Response, verbose: bool, lib: Library, members: seq<(string, Json)>, message: string)
    requires !IsSuccess(response.status) && response.text != ""
    requires lib.loads(response.text) == Success(JObject(members))
    requires Lookup(members, "message") == Some(JString(message))
    ensures CheckResponse(response, verbose, lib).result == Failure(message)
  {
  }

  /** A body that does not parse fails with the parser's error whatever the status, before any diagnostics. */
  lemma ParseFailsFirst(status: int, other: int, text: string, verbose: bool, lib: Library)
    requires text != "" && lib.loads(text).Failure?
    ensures CheckResponse(Response(status, text), verbose, lib) == CheckResponse(Response(other, text), false, lib)
    ensures CheckResponse(Response(status, text), verbose, lib) == Checked(Failure(lib.loads(text).error), [])
  {
  }

  /** `verbose` changes only the diagnostics: the outcome and the requests sent are the same without it. */
  lemma VerboseOnlyWritesDiagnostics(ctx: Context, sent: nat, path: string, verb: string,
                                     headers: map<string, string>, body: Option<string>)
    ensures Request(ctx, sent, path, verb, headers, body, true).outcome ==
            Request(ctx, sent, path, verb, headers, body, false).outcome
    ensures Request(ctx, sent, path, verb, headers, body, true).requests ==
            Request(ctx, sent, path, verb, headers, body, false).requests
    ensures Request(ctx, sent, path, verb, headers, body, false).stderr == []
  {
  }
}
