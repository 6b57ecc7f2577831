/**
 * The outbound request executor (pkg/request/resty.go): validates the
 * parameters, configures a one-off client (trace header, timeout, TLS,
 * browser headers, proxy, method), and classifies the transport outcome
 * into an error code and a Go error. The network is an input: what the
 * transport returned for the request that was configured.
 */
module Request {
  import opened Wrappers
  import opened ErrorCodes
  import Validation
  import Logging
  import Server

  /** Seconds used when `Param.Timeout` is zero (`DEFAULT_TIEOUT`). */
  const DEFAULT_TIMEOUT := 10

  const BROWSER_AGENT := "Mozilla/5.0 (Macintosh; Intel Mac OS X 10_15_7) AppleWebKit/537.36 (KHTML, like Gecko) Chrome/92.0.4515.159 Safari/537.36"

  /** The label the transport-error path gives the DVERROR entry. */
  const REQUEST_FAILED := "请求时发生错误"

  /** The label the 404 path gives the CHECK entry. */
  const NOT_FOUND := "资源不存在"

  /** The marker of a client-side timeout in the transport's error text. */
  const TIMEOUT_MARKER := "Client.Timeout "

  /** Go `Param`; `m` is the field `Method`. */
  datatype Param = Param(
    link: string, m: string, payload: string, timeout: int, proxy: string,
    enableSkipVerify: bool, enableHeader: bool)

  /** The HTTP verb resty sends. */
  datatype HttpVerb = HttpGet | HttpPost

  /** The per-call resty client as configured, with the request it sends. */
  datatype Client = Client(
    headers: map<string, string>, timeoutSeconds: int, skipVerify: bool, proxy: Option<string>,
    verb: HttpVerb, body: string, link: string)

  /** What the transport returned: an error with its text, or a response with its status and body. */
  datatype Transport = TransportError(message: string) | Completed(status: int, body: string)

  /**
   * The violations the rule engine reports for `Param` (`Link`:
   * required, url); whether the link is a well-formed URL is the rule
   * engine's verdict, an input here.
   */
  function ParamViolations(link: string, linkIsUrl: bool): seq<Validation.Violation> {
    if link == "" then [Validation.Violation("required", "网址", "", "")]
    else if !linkIsUrl then [Validation.Violation("url", "网址", "", link)]
    else []
  }

  /** `sub` occurs in `s` starting at index `i`. */
  predicate OccursAt(s: string, sub: string, i: int) {
    0 <= i <= |s| - |sub| && s[i..i + |sub|] == sub
  }

  /** `strings.Contains`. */
  predicate Contains(s: string, sub: string) {
    exists i :: 0 <= i <= |s| && OccursAt(s, sub, i)
  }

  /** The timeout the client uses: the default for zero, anything else unchanged. */
  function EffectiveTimeout(timeout: int): (seconds: int)
    ensures timeout == 0 ==> seconds == DEFAULT_TIMEOUT
    ensures timeout != 0 ==> seconds == timeout
    ensures seconds != 0
  {
    if timeout == 0 then DEFAULT_TIMEOUT else timeout
  }

  /** The code of a transport error: TIMEOUT for a client timeout, otherwise DVERROR relabelled. */
  function TransportErrorCode(erc: Table, message: string): (e: ErrorCode)
    ensures Contains(message, TIMEOUT_MARKER) ==> e == Lookup(erc, TIMEOUT)
    ensures !Contains(message, TIMEOUT_MARKER) ==> e == Lookup(erc, DVERROR).(caption := REQUEST_FAILED)
  {
    if Contains(message, TIMEOUT_MARKER) then GetErc(erc, TIMEOUT, "") else GetErc(erc, DVERROR, REQUEST_FAILED)
  }

  /**
   * The classification of a completed response: any status up to 201 is
   * success with no error; above that 429, 404 and everything else each
   * get their code, and the error text is that code's label.
   */
  function StatusOutcome(erc: Table, status: int): (r: (ErrorCode, Option<string>))
    ensures r.1 == None <==> status <= 201
    ensures status <= 201 ==> r.0 == Lookup(erc, SUCCESS)
    ensures status > 201 ==> r.1 == Some(r.0.caption)
    ensures status == 429 ==> r.0 == Lookup(erc, LIMITERROR)
    ensures status == 404 ==> r.0 == Lookup(erc, CHECK).(caption := NOT_FOUND)
    ensures status > 201 && status != 404 && status != 429 ==> r.0 == Lookup(erc, STATUSERROR)
  {
    if status <= 201 then (GetDefaultErc(erc), None)
    else if status == 429 then var e := GetErc(erc, LIMITERROR, ""); (e, Some(e.caption))
    else if status == 404 then var e := GetErc(erc, CHECK, NOT_FOUND); (e, Some(e.caption))
    else var e := GetErc(erc, STATUSERROR, ""); (e, Some(e.caption))
  }

  /** The log record the transport-error path emits: not final, with the chosen code's level, code and label. */
  function TransportLog(routeLabel: string, e: ErrorCode, message: string, durationMs: int): (r: Logging.Message)
    ensures r.text == e.caption && r.caption == routeLabel && r.traceback == message && r.remark == ""
    ensures !r.attr.monitor.final && r.attr.monitor.level == e.level && r.attr.monitor.code == e.code
    ensures r.attr.monitor.processDuration == durationMs && r.attr.monitor.processDelay == 0
    ensures r.attr.inp == map[] && r.attr.oup == map[]
  {
    Logging.Message(e.caption, Logging.Attr(Logging.Monitor(false, e.level, e.code, durationMs, 0), map[], map[]),
                    routeLabel, "", message)
  }

  /**
   * Unlike the middleware's final record, the transport-error record keeps
   * its code through `build`'s defaulting: TIMEOUT or DVERROR, at the
   * table's level.
   */
  lemma TransportLogKeepsCode(c: Logging.ZapLogger, routeLabel: string, message: string, durationMs: int)
    ensures var e := TransportErrorCode(InitialTable(), message);
      var logged := Logging.Defaulted(c, TransportLog(routeLabel, e, message, durationMs));
      && logged.attr.monitor.code == e.code
      && logged.attr.monitor.code == (if Contains(message, TIMEOUT_MARKER) then TIMEOUT else DVERROR)
      && logged.attr.monitor.level == e.level
  {
    TransportErrorTable(message);
  }

  /** `unicode.IsSpace`: the Latin-1 spaces and the other Unicode White_Space characters. */
  predicate IsSpace(ch: char) {
    || ch in {'\t', '\n', '\U{0B}', '\U{0C}', '\r', ' ', '\U{85}', '\U{A0}'}
    || ch in {'\U{1680}', '\U{2028}', '\U{2029}', '\U{202F}', '\U{205F}', '\U{3000}'}
    || '\U{2000}' <= ch <= '\U{200A}'
  }

  /** `s` without its leading white space. */
  function TrimLeading(s: string): (r: string)
    ensures |r| <= |s| && r == s[|s| - |r|..]
    ensures forall k :: 0 <= k < |s| - |r| ==> IsSpace(s[k])
    ensures r == [] || !IsSpace(r[0])
  {
    if s != [] && IsSpace(s[0]) then TrimLeading(s[1..]) else s
  }

  /** `s` without its trailing white space. */
  function TrimTrailing(s: string): (r: string)
    ensures |r| <= |s| && r == s[..|r|]
    ensures forall k :: |r| <= k < |s| ==> IsSpace(s[k])
    ensures r == [] || !IsSpace(r[|r| - 1])
  {
    if s != [] && IsSpace(s[|s| - 1]) then TrimTrailing(s[..|s| - 1]) else s
  }

  /** Neither end of `s` is white space. */
  predicate Trimmed(s: string) {
    s == [] || (!IsSpace(s[0]) && !IsSpace(s[|s| - 1]))
  }

  /** `r` sits in `s` at index `i`, with only white space before and after it. */
  predicate SpaceAround(s: string, r: string, i: int) {
    && OccursAt(s, r, i)
    && (forall k :: 0 <= k < i ==> IsSpace(s[k]))
    && (forall k :: i + |r| <= k < |s| ==> IsSpace(s[k]))
  }

  /**
   * `strings.TrimSpace`, which resty's `Response.String()` applies to the
   * body: the longest infix of `s` that neither starts nor ends with white
   * space, everything cut away being white space.
   */
  function TrimSpace(s: string): (r: string)
    ensures Trimmed(r)
    ensures Trimmed(s) ==> r == s
    ensures exists i :: 0 <= i <= |s| && SpaceAround(s, r, i)
  {
    var t := TrimLeading(s);
    var r := TrimTrailing(t);
    var i := |s| - |t|;
    assert s[i..i + |r|] == r by {
      assert t == s[i..];
    }
    assert SpaceAround(s, r, i);
    r
  }

  /** Trimming is idempotent. */
  lemma TrimSpaceIdempotent(s: string)
    ensures TrimSpace(TrimSpace(s)) == TrimSpace(s)
  {
  }

  /** A trimmed text followed by the newline a JSON encoder appends reads back as that text. */
  lemma {:induction false} TrailingNewlineDropped(t: string)
    requires Trimmed(t)
    ensures TrimSpace(t + "\n") == t
  {
    var s := t + "\n";
    if t == [] {
      assert TrimLeading(s) == TrimLeading(s[1..]);
      assert s[1..] == [];
    } else {
      assert TrimLeading(s) == s;
      assert s[..|s| - 1] == t;
      assert TrimTrailing(s) == TrimTrailing(t);
    }
  }

  /** How `work` configures the client for `param`. */
  ghost predicate Configured(c: Client, ctx: Logging.Context, param: Param, linkHost: string)
    requires "trace" in ctx
  {
    && c.timeoutSeconds == EffectiveTimeout(param.timeout)
    && c.skipVerify == param.enableSkipVerify
    && c.proxy == (if |param.proxy| > 6 then Some(param.proxy) else None)
    && c.verb == (if param.m == "POST" then HttpPost else HttpGet)
    && c.body == param.payload && c.link == param.link
    && c.headers.Keys == {"X-REQUEST-ID"}
         + (if param.enableHeader then {"Host", "Referer", "User-Agent"} else {})
         + (if param.m == "POST" then {"Content-Type"} else {})
    && c.headers["X-REQUEST-ID"] == ctx["trace"]
    && (param.enableHeader ==>
          c.headers["Host"] == linkHost && c.headers["Referer"] == linkHost && c.headers["User-Agent"] == BROWSER_AGENT)
    && (param.m == "POST" ==> c.headers["Content-Type"] == "application/json")
  }

  /**
   * The client `work` prepares before sending: trace header, timeout,
   * TLS verification, browser headers, proxy, and the verb chosen by the
   * method (anything other than POST is sent as GET).
   */
  method Configure(ctx: Logging.Context, param: Param, linkHost: string) returns (c: Client)
    requires "trace" in ctx
    ensures Configured(c, ctx, param, linkHost)
  {
    var p := param;
    var headers := map["X-REQUEST-ID" := ctx["trace"]];
    if p.timeout == 0 {
      p := p.(timeout := DEFAULT_TIMEOUT);
    }
    var timeoutSeconds := p.timeout;
    var skipVerify := false;
    if p.enableSkipVerify {
      skipVerify := true;
    }
    if p.enableHeader {
      headers := headers + map[
        "X-REQUEST-ID" := ctx["trace"],
        "Host" := linkHost,
        "Referer" := linkHost,
        "User-Agent" := BROWSER_AGENT];
    }
    var proxy := None;
    if |p.proxy| > 6 {
      proxy := Some(p.proxy);
    }
    var verb;
    if p.m == "GET" {
      verb := HttpGet;
    } else if p.m == "POST" {
      headers := headers + map["Content-Type" := "application/json"];
      verb := HttpPost;
    } else {
      verb := HttpGet;
    }
    c := Client(headers, timeoutSeconds, skipVerify, proxy, verb, p.payload, p.link);
  }

  /** What one execution of `work` yields, for every outcome of validation and transport. */
  ghost predicate Executed(
    ctx: Logging.Context, param: Param, erc: Table, linkIsUrl: bool, linkHost: string, transport: Transport, durationMs: int,
    result: Server.Result, err: Option<string>, client: Option<Client>, logs: seq<Logging.LogCall>)
  {
    var violations := ParamViolations(param.link, linkIsUrl);
    && (violations != [] ==>
          result == Server.ZeroResult && err == Some(Validation.Report(violations)) && client == None && logs == [])
    && (violations == [] ==> "trace" in ctx && client.Some? && Configured(client.value, ctx, param, linkHost))
    && (violations == [] && transport.TransportError? ==>
          var e := TransportErrorCode(erc, transport.message);
          && "label" in ctx
          && result == Server.ZeroResult && err == Some(e.caption)
          && logs == [Logging.LogCall("info", ctx, TransportLog(ctx["label"], e, transport.message, durationMs))])
    && (violations == [] && transport.Completed? ==>
          var (e, fault) := StatusOutcome(erc, transport.status);
          && result == Server.Result(TrimSpace(transport.body), transport.status,
                                     Some(Server.RawResponse(transport.status, transport.body)), e)
          && err == fault && logs == [])
  }

  /**
   * `RestyRequest.work`. `linkIsUrl` is the rule engine's `url` verdict,
   * `linkHost` the host `url.Parse` finds in the link, `transport` what the
   * network returned and `durationMs` the measured time.
   */
  method Work(
    ctx: Logging.Context, param: Param, erc: Table, linkIsUrl: bool, linkHost: string, transport: Transport, durationMs: int)
    returns (result: Server.Result, err: Option<string>, client: Option<Client>, logs: seq<Logging.LogCall>)
    requires ParamViolations(param.link, linkIsUrl) == [] ==> "trace" in ctx
    requires ParamViolations(param.link, linkIsUrl) == [] && transport.TransportError? ==> "label" in ctx
    ensures Executed(ctx, param, erc, linkIsUrl, linkHost, transport, durationMs, result, err, client, logs)
  {
    var e := GetDefaultErc(erc);
    var message, failed := Validation.Work(ParamViolations(param.link, linkIsUrl));
    if failed {
      return Server.ZeroResult, Some(message), None, [];
    }
    var c := Configure(ctx, param, linkHost);
    client := Some(c);
    match transport {
      case TransportError(text) =>
        var te := GetErc(erc, DVERROR, REQUEST_FAILED);
        if Contains(text, TIMEOUT_MARKER) {
          te := GetErc(erc, TIMEOUT, "");
        }
        logs := [Logging.LogCall("info", ctx, TransportLog(ctx["label"], te, text, durationMs))];
        return Server.ZeroResult, Some(te.caption), client, logs;
      case Completed(status, body) =>
        err := None;
        if status > 201 {
          if status == 429 {
            e := GetErc(erc, LIMITERROR, "");
            err := Some(e.caption);
          } else if status == 404 {
            e := GetErc(erc, CHECK, NOT_FOUND);
            err := Some(e.caption);
          } else if status == 200 {
            err := None;
          } else if status == 201 {
            err := None;
          } else {
            e := GetErc(erc, STATUSERROR, "");
            err := Some(e.caption);
          }
        }
        result := Server.Result(TrimSpace(body), status, Some(Server.RawResponse(status, body)), e);
        logs := [];
    }
  }

  /** Package-level `Get`: forces the method to GET before executing. */
  method Get(
    ctx: Logging.Context, param: Param, erc: Table, linkIsUrl: bool, linkHost: string, transport: Transport, durationMs: int)
    returns (result: Server.Result, err: Option<string>, client: Option<Client>, logs: seq<Logging.LogCall>)
    requires ParamViolations(param.link, linkIsUrl) == [] ==> "trace" in ctx
    requires ParamViolations(param.link, linkIsUrl) == [] && transport.TransportError? ==> "label" in ctx
    ensures Executed(ctx, param.(m := "GET"), erc, linkIsUrl, linkHost, transport, durationMs, result, err, client, logs)
    ensures client.Some? ==> client.value.verb == HttpGet && "Content-Type" !in client.value.headers
  {
    var forced := param.(m := "GET");
    result, err, client, logs := Work(ctx, forced, erc, linkIsUrl, linkHost, transport, durationMs);
  }

  /** Package-level `Post`: forces the method to POST before executing. */
  method Post(
    ctx: Logging.Context, param: Param, erc: Table, linkIsUrl: bool, linkHost: string, transport: Transport, durationMs: int)
    returns (result: Server.Result, err: Option<string>, client: Option<Client>, logs: seq<Logging.LogCall>)
    requires ParamViolations(param.link, linkIsUrl) == [] ==> "trace" in ctx
    requires ParamViolations(param.link, linkIsUrl) == [] && transport.TransportError? ==> "label" in ctx
    ensures Executed(ctx, param.(m := "POST"), erc, linkIsUrl, linkHost, transport, durationMs, result, err, client, logs)
    ensures client.Some? ==> client.value.verb == HttpPost && client.value.headers["Content-Type"] == "application/json"
  {
    var forced := param.(m := "POST");
    result, err, client, logs := Work(ctx, forced, erc, linkIsUrl, linkHost, transport, durationMs);
  }

  // ---------------------------------------------------------------------------
  // Properties of the classification.

  /** With the initialised table: the codes, levels and texts of each status class. */
  lemma StatusOutcomeTable(status: int)
    ensures status <= 201 ==> StatusOutcome(InitialTable(), status) == (ErrorCode("", SUCCESS, INFO, "操作成功"), None)
    ensures status == 429 ==> StatusOutcome(InitialTable(), status) == (ErrorCode("", LIMITERROR, INFO, "超限"), Some("超限"))
    ensures status == 404 ==> StatusOutcome(InitialTable(), status) == (ErrorCode("", CHECK, INFO, NOT_FOUND), Some(NOT_FOUND))
    ensures status > 201 && status != 404 && status != 429 ==>
      StatusOutcome(InitialTable(), status) == (ErrorCode("", STATUSERROR, ERROR, "非常规状态码"), Some("非常规状态码"))
  {
    TableOfLookup(Entries, 0);
    TableOfLookup(Entries, 1);
    TableOfLookup(Entries, 2);
    TableOfLookup(Entries, 5);
  }

  /** A transport error's code: TIMEOUT when the text names a client timeout, DVERROR relabelled otherwise. */
  lemma TransportErrorTable(message: string)
    ensures Contains(message, TIMEOUT_MARKER) ==> TransportErrorCode(InitialTable(), message) == ErrorCode("", TIMEOUT, INFO, "超时")
    ensures !Contains(message, TIMEOUT_MARKER) ==>
      TransportErrorCode(InitialTable(), message) == ErrorCode("", DVERROR, ERROR, REQUEST_FAILED)
  {
    TableOfLookup(Entries, 3);
    TableOfLookup(Entries, 9);
  }

  /** Any error text carrying the client-timeout marker, wherever it sits, is classified as TIMEOUT. */
  lemma TimeoutMarkerAnywhere(before: string, after: string)
    ensures TransportErrorCode(InitialTable(), before + TIMEOUT_MARKER + after).code == TIMEOUT
  {
    var s := before + TIMEOUT_MARKER + after;
    assert s[|before|..|before| + |TIMEOUT_MARKER|] == TIMEOUT_MARKER;
    assert OccursAt(s, TIMEOUT_MARKER, |before|);
    TransportErrorTable(s);
  }

  /** A proxy is configured exactly when it has more than six characters. */
  lemma ProxyThreshold(c: Client, ctx: Logging.Context, param: Param, linkHost: string)
    requires "trace" in ctx && Configured(c, ctx, param, linkHost)
    ensures c.proxy.Some? <==> |param.proxy| > 6
    ensures c.proxy.Some? ==> c.proxy.value == param.proxy
  {
  }

  /**
   * A 404 for a GET with a five-second timeout: status 404 in the
   * envelope, the CHECK code relabelled "资源不存在", and an error.
   */
  method NotFoundScenario(ctx: Logging.Context) returns (result: Server.Result, err: Option<string>)
    requires "trace" in ctx
    ensures result.statusCode == 404 && result.errorCode.code == CHECK && result.errorCode.caption == NOT_FOUND
    ensures err == Some(NOT_FOUND)
  {
    var param := Param("https://example.com", "GET", "", 5, "", false, false);
    var client, logs;
    result, err, client, logs := Work(ctx, param, InitialTable(), true, "example.com", Completed(404, ""), 12);
    StatusOutcomeTable(404);
  }

  /** A 201 for a POST: no error, and the envelope still carries the SUCCESS entry. */
  method CreatedScenario(ctx: Logging.Context) returns (result: Server.Result, err: Option<string>)
    requires "trace" in ctx
    ensures err == None && result.statusCode == 201 && result.errorCode.code == SUCCESS
  {
    var param := Param("https://example.com", "POST", "{}", 5, "", false, false);
    var client, logs;
    result, err, client, logs := Work(ctx, param, InitialTable(), true, "example.com", Completed(201, ""), 12);
    StatusOutcomeTable(201);
  }

  /**
   * A JSON body with the encoder's trailing newline: the envelope's text is
   * the trimmed body, while the raw response keeps the newline.
   */
  method JsonBodyScenario(ctx: Logging.Context) returns (result: Server.Result, err: Option<string>)
    requires "trace" in ctx
    ensures err == None && result.text == "{\"a\":1}"
    ensures result.response == Some(Server.RawResponse(200, "{\"a\":1}\n"))
  {
    var text := "{\"a\":1}";
    assert text[0] == '{' && text[|text| - 1] == '}';
    TrailingNewlineDropped(text);
    var param := Param("https://example.com", "GET", "", 0, "", false, false);
    var client, logs;
    result, err, client, logs := Work(ctx, param, InitialTable(), true, "example.com", Completed(200, text + "\n"), 3);
    assert text + "\n" == "{\"a\":1}\n";
  }
}
