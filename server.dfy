/**
 * The HTTP server side (pkg/server/echo.go): server construction and its
 * listen address, the path-to-label registry written by `AddRouter`, and
 * the logging middleware that checks the trace id, tees the response body
 * into a buffer and emits one final log record per request that passes.
 * The echo framework, JSON encoding and decoding, and clocks are inputs.
 */
module Server {
  import opened Wrappers
  import opened ErrorCodes
  import Validation
  import Logging
  import Kit

  /** A byte of a response body. */
  type Byte = bv8

  /** The library response object a `Result` may carry (`Response interface{}`). */
  datatype RawResponse = RawResponse(statusCode: int, body: string)

  /** The four-field result envelope shared by the server and the request executor. */
  datatype Result = Result(text: string, statusCode: int, response: Option<RawResponse>, errorCode: ErrorCode)

  /** The Go zero value of `Result`. */
  const ZeroResult := Result("", 0, None, ZeroErrorCode)

  // ---------------------------------------------------------------------------
  // Decimal formatting of the port (`strconv.Itoa`) and its inverse.

  function DigitChar(d: nat): char
    requires d < 10
  {
    (48 + d) as char
  }

  predicate IsDigit(ch: char) {
    '0' <= ch <= '9'
  }

  /** The decimal digits of `n`, most significant first, without leading zeros. */
  function NatDecimal(n: nat): string
    decreases n
  {
    if n < 10 then [DigitChar(n)] else NatDecimal(n / 10) + [DigitChar(n % 10)]
  }

  /** `strconv.Itoa`. */
  function Itoa(n: int): string {
    if n < 0 then "-" + NatDecimal(-n) else NatDecimal(n)
  }

  /** The value of a string of decimal digits. */
  function DigitsValue(s: string): int {
    if s == [] then 0 else DigitsValue(s[..|s| - 1]) * 10 + (s[|s| - 1] as int - 48)
  }

  /** Parses what `Itoa` prints: an optional minus sign, then digits. */
  function Atoi(s: string): int {
    if |s| > 0 && s[0] == '-' then -DigitsValue(s[1..]) else DigitsValue(s)
  }

  lemma {:induction false} NatDecimalRoundTrip(n: nat)
    ensures |NatDecimal(n)| > 0 && IsDigit(NatDecimal(n)[0])
    ensures forall i :: 0 <= i < |NatDecimal(n)| ==> IsDigit(NatDecimal(n)[i])
    ensures DigitsValue(NatDecimal(n)) == n
    decreases n
  {
    if n >= 10 {
      NatDecimalRoundTrip(n / 10);
      var s := NatDecimal(n);
      assert s[..|s| - 1] == NatDecimal(n / 10);
    }
  }

  /** Parsing the decimal form of any integer gives it back. */
  lemma ItoaRoundTrip(n: int)
    ensures Atoi(Itoa(n)) == n
    ensures |Itoa(n)| > 0
  {
    if n < 0 {
      NatDecimalRoundTrip(-n);
      assert Itoa(n)[1..] == NatDecimal(-n);
    } else {
      NatDecimalRoundTrip(n);
    }
  }

  // ---------------------------------------------------------------------------
  // Server construction.

  /** Go `Option` of `InitServer`. */
  datatype ServerOption = ServerOption(host: string, port: int, disableMiddCors: bool, disableMiddRecover: bool)

  datatype Middleware = Cors | Recover

  /** `EchoServer`: the middlewares installed on the echo kernel, the port and the listen host. */
  datatype EchoServer = EchoServer(middlewares: seq<Middleware>, port: int, host: string)

  /** The violations the rule engine reports for `Option` (`Port`: required, min=3000, max=10000). */
  function OptionViolations(option: ServerOption): seq<Validation.Violation> {
    if option.port == 0 then [Validation.Violation("required", "端口号", "", "0")]
    else if option.port < 3000 then [Validation.Violation("min", "端口号", "3000", Itoa(option.port))]
    else if option.port > 10000 then [Validation.Violation("max", "端口号", "10000", Itoa(option.port))]
    else []
  }

  /** A port passes validation exactly when it lies in 3000..10000. */
  lemma OptionViolationsRange(option: ServerOption)
    ensures OptionViolations(option) == [] <==> 3000 <= option.port <= 10000
    ensures option.port > 10000 ==> Validation.Report(OptionViolations(option)) == "端口号的长度不应超过10000"
  {
  }

  /** The example program's port 98117 is refused. */
  lemma ExamplePortRefused()
    ensures Validation.Report(OptionViolations(ServerOption("localhost", 98117, false, false))) == "端口号的长度不应超过10000"
  {
  }

  /** What `NewEchoServer` builds from `option`. */
  ghost predicate BuiltFrom(s: EchoServer, option: ServerOption) {
    && s.port == option.port
    && s.host == option.host + ":"
    && s.middlewares == (if option.disableMiddCors then [] else [Cors]) + (if option.disableMiddRecover then [] else [Recover])
  }

  /**
   * `NewEchoServer`: CORS and Recover unless disabled; an empty host
   * becomes ":", any other host gets ":" appended, so the host always
   * ends up as the given host followed by ":".
   */
  method NewEchoServer(option: ServerOption) returns (s: EchoServer)
    ensures BuiltFrom(s, option)
  {
    var middlewares := [];
    if !option.disableMiddCors {
      middlewares := middlewares + [Cors];
    }
    if !option.disableMiddRecover {
      middlewares := middlewares + [Recover];
    }
    var host := option.host;
    if |host| == 0 {
      host := ":";
    } else {
      host := Kit.JoinString([host, ":"]);
      Kit.ConcatPair(option.host, ":");
    }
    s := EchoServer(middlewares, option.port, host);
  }

  /** `EchoServer.Work`: the address handed to `Start` is the host followed by the decimal port. */
  method Work(s: EchoServer) returns (address: string)
    ensures address == s.host + Itoa(s.port)
    ensures address[..|s.host|] == s.host && Atoi(address[|s.host|..]) == s.port
  {
    var port := Itoa(s.port);
    address := Kit.JoinString([s.host, port]);
    Kit.ConcatPair(s.host, port);
    assert address[|s.host|..] == port;
    ItoaRoundTrip(s.port);
  }

  /** The listen address of a server built from `option` is "<host>:<port>". */
  lemma ListenAddressOfOption(option: ServerOption, s: EchoServer)
    requires BuiltFrom(s, option)
    ensures s.host + Itoa(s.port) == option.host + ":" + Itoa(option.port)
  {
  }

  // ---------------------------------------------------------------------------
  // Routes and their labels.

  datatype Verb = GET | POST | DELETE | PUT

  /** `AddRouter`'s method switch: unknown methods register as GET. */
  function RouteVerb(m: string): (v: Verb)
    ensures v == POST <==> m == "POST"
    ensures v == DELETE <==> m == "DELETE"
    ensures v == PUT <==> m == "PUT"
    ensures v == GET <==> m !in {"POST", "DELETE", "PUT"}
  {
    if m == "GET" then GET
    else if m == "POST" then POST
    else if m == "DELETE" then DELETE
    else if m == "PUT" then PUT
    else GET
  }

  /** A registration on the echo kernel. */
  datatype Route = Route(verb: Verb, path: string)

  /** `RouterPayload`; `caption` is the Go field `Label`. */
  datatype RouterPayload = RouterPayload(m: string, path: string, caption: string)

  // ---------------------------------------------------------------------------
  // The middleware's request, handler and response writers.

  /** The parts of an inbound request the middleware reads. */
  datatype InboundRequest = InboundRequest(
    path: string,              // URL path, the registry key
    routePath: string,         // echo's matched route (`c.Path()`)
    host: string,
    userAgent: string,
    m: string,                 // HTTP method
    param: Logging.Value,      // `c.Get("request")`
    requestIds: seq<string>)   // every `X-REQUEST-ID` header value

  /**
   * One run of the wrapped handler `next`: the slices it writes and the
   * status echo records, and then either the error it returns or the panic
   * that ends it.
   */
  datatype HandlerRun =
    | Returned(chunks: seq<seq<Byte>>, status: int, err: Option<string>)
    | Panicked(chunks: seq<seq<Byte>>, status: int, reason: string)

  /** Only the first `X-REQUEST-ID` value counts; none at all reads as "". */
  function TraceId(req: InboundRequest): (id: string)
    ensures req.requestIds != [] ==> id == req.requestIds[0]
    ensures req.requestIds == [] ==> id == ""
  {
    if |req.requestIds| > 0 then req.requestIds[0] else ""
  }

  /** A request without any `X-REQUEST-ID` header is refused as missing the trace id. */
  lemma MissingHeaderRefused(req: InboundRequest)
    requires req.requestIds == []
    ensures Validation.Report(HeaderViolations(TraceId(req))) == "追踪编码为必填项"
  {
  }

  /** The violations the rule engine reports for `Header` (`X-REQUEST-ID`: required, min=16). */
  function HeaderViolations(id: string): seq<Validation.Violation> {
    if id == "" then [Validation.Violation("required", "追踪编码", "", "")]
    else if |id| < 16 then [Validation.Violation("min", "追踪编码", "16", id)]
    else []
  }

  /** A trace id passes exactly when it has at least 16 characters; the two refusals have fixed messages. */
  lemma HeaderRule(id: string)
    ensures HeaderViolations(id) == [] <==> |id| >= 16
    ensures id == "" ==> Validation.Report(HeaderViolations(id)) == "追踪编码为必填项"
    ensures 0 < |id| < 16 ==> Validation.Report(HeaderViolations(id)) == "追踪编码的长度不应小于16"
  {
  }

  lemma HeaderExamples()
    ensures HeaderViolations("0123456789abcdef") == []
    ensures HeaderViolations("short") != []
  {
  }

  /** `EmptyHandler`'s envelope: the validation message, status 200, no response, the PVERROR entry. */
  function EmptyResult(erc: Table, message: string): Result {
    Result(message, 200, None, GetErc(erc, PVERROR, ""))
  }

  /** With the initialised table the refusal envelope carries PVERROR at level error. */
  lemma EmptyResultCode(message: string)
    ensures EmptyResult(InitialTable(), message).errorCode == ErrorCode("", PVERROR, ERROR, "参数未通过校验")
    ensures EmptyResult(InitialTable(), message).statusCode == 200
    ensures EmptyResult(InitialTable(), message).response == None
  {
    TableOfLookup(Entries, 8);
  }

  /** What `json.Unmarshal` leaves in a zero `Result`: the decoded envelope, or the zero value if the body does not decode. */
  function Decoded(d: Option<Result>): Result {
    if d.Some? then d.value else ZeroResult
  }

  /** The final log message of a request that reached the handler. */
  function FinalMessage(routeLabel: string, response: Result, durationMs: int, req: InboundRequest, status: int): (r: Logging.Message)
    ensures r.text == response.errorCode.caption && r.caption == routeLabel
    ensures r.remark == "" && r.traceback == ""
    ensures r.attr.monitor.final && r.attr.monitor.code == 0 && r.attr.monitor.processDelay == 0
    ensures r.attr.monitor.level == response.errorCode.level && r.attr.monitor.processDuration == durationMs
    ensures r.attr.inp.Keys == {"host", "path", "user-agent", "method", "param"}
    ensures r.attr.inp["host"] == Logging.VStr(req.host) && r.attr.inp["path"] == Logging.VStr(req.routePath)
    ensures r.attr.inp["user-agent"] == Logging.VStr(req.userAgent) && r.attr.inp["method"] == Logging.VStr(req.m)
    ensures r.attr.inp["param"] == req.param
    ensures r.attr.oup == map["status_code" := Logging.VInt(status)]
  {
    Logging.Message(
      response.errorCode.caption,
      Logging.Attr(
        Logging.Monitor(true, response.errorCode.level, 0, durationMs, 0),
        map[
          "host" := Logging.VStr(req.host),
          "path" := Logging.VStr(req.routePath),
          "user-agent" := Logging.VStr(req.userAgent),
          "method" := Logging.VStr(req.m),
          "param" := req.param
        ],
        map["status_code" := Logging.VInt(status)]),
      routeLabel, "", "")
  }

  /**
   * The final log never sets `Monitor.Code`, so once `build` has defaulted
   * it the record carries SUCCESS whatever the envelope said; a body that
   * did not decode also logs at level info.
   */
  lemma FinalLogCode(c: Logging.ZapLogger, routeLabel: string, response: Result, durationMs: int, req: InboundRequest, status: int)
    ensures Logging.Defaulted(c, FinalMessage(routeLabel, response, durationMs, req, status)).attr.monitor.code == SUCCESS
    ensures response.errorCode.level == "" ==>
      Logging.Defaulted(c, FinalMessage(routeLabel, response, durationMs, req, status)).attr.monitor.level == INFO
    ensures Logging.Defaulted(c, FinalMessage(routeLabel, ZeroResult, durationMs, req, status)).text == ""
  {
  }

  /** The client-facing `http.ResponseWriter`: the status sent and the bytes sent so far. */
  class ResponseWriter {
    var status: int
    var body: seq<Byte>

    constructor ()
      ensures status == 200 && body == []
    {
      status, body := 200, [];
    }
  }

  /**
   * `bodyDumpResponseWriter` over `io.MultiWriter(client, buffer)`: every
   * write goes to the client writer and then to the buffer.
   */
  class BodyDumpResponseWriter {
    const inner: ResponseWriter
    var buffer: seq<Byte>

    constructor (inner: ResponseWriter)
      ensures this.inner == inner && buffer == []
    {
      this.inner := inner;
      buffer := [];
    }

    method Write(b: seq<Byte>) returns (n: int, err: Option<string>)
      modifies this, inner
      ensures inner.body == old(inner.body) + b && inner.status == old(inner.status)
      ensures buffer == old(buffer) + b
      ensures n == |b| && err == None
    {
      inner.body := inner.body + b;
      buffer := buffer + b;
      n, err := |b|, None;
    }
  }

  /** `EmptyHandler`: answers HTTP 200 with the JSON of the refusal envelope. */
  method EmptyHandler(store: map<string, string>, erc: Table, encodeJson: Result -> seq<Byte>, w: ResponseWriter)
    requires "message" in store
    modifies w
    ensures w.status == 200
    ensures w.body == old(w.body) + encodeJson(EmptyResult(erc, store["message"]))
  {
    var res := Result(store["message"], 200, None, GetErc(erc, PVERROR, ""));
    w.status := 200;
    w.body := w.body + encodeJson(res);
  }

  // ---------------------------------------------------------------------------
  // Package-level state: the server, its once, the kernel's routes and the label registry.

  class ServerState {
    var server: Option<EchoServer>
    var onceDone: bool
    var routes: seq<Route>
    var routerLabel: map<string, string>

    constructor ()
      ensures server == None && !onceDone && routes == [] && routerLabel == map[]
    {
      server, onceDone, routes, routerLabel := None, false, [], map[];
    }

    /**
     * `InitServer`: a port outside 3000..10000 is refused with the
     * validator's message and nothing is created; otherwise only the first
     * call builds the server.
     */
    method InitServer(name: string, option: ServerOption) returns (err: Option<string>)
      modifies this
      ensures routes == old(routes) && routerLabel == old(routerLabel)
      ensures OptionViolations(option) != [] ==>
        err == Some(Validation.Report(OptionViolations(option))) && server == old(server) && onceDone == old(onceDone)
      ensures OptionViolations(option) == [] ==> err == None && onceDone
      ensures OptionViolations(option) == [] && !old(onceDone) ==> server.Some? && BuiltFrom(server.value, option)
      ensures OptionViolations(option) == [] && old(onceDone) ==> server == old(server)
    {
      var message, failed := Validation.Work(OptionViolations(option));
      if failed {
        return Some(message);
      }
      if !onceDone {
        onceDone := true;
        var s := NewEchoServer(option);
        server := Some(s);
      }
      err := None;
    }

    /** `AddRouter`: registers the route on the kernel and records its label, overwriting an earlier one. */
    method AddRouter(payload: RouterPayload)
      requires server.Some?
      modifies this`routes, this`routerLabel
      ensures routes == old(routes) + [Route(RouteVerb(payload.m), payload.path)]
      ensures routerLabel == old(routerLabel)[payload.path := payload.caption]
      ensures GetRouterLabel(payload.path) == payload.caption
      ensures forall p :: p != payload.path ==> GetRouterLabel(p) == old(GetRouterLabel(p))
    {
      var verb := RouteVerb(payload.m);
      routes := routes + [Route(verb, payload.path)];
      routerLabel := routerLabel[payload.path := payload.caption];
    }

    /** `GetRouterLabel`: the registered label, or "" for an unregistered path. */
    function GetRouterLabel(path: string): (r: string)
      reads this
      ensures path in routerLabel ==> r == routerLabel[path]
      ensures path !in routerLabel ==> r == ""
    {
      if path in routerLabel then routerLabel[path] else ""
    }

    /**
     * `LoggerMiddleware` wrapped around the handler run `next`.
     *
     * A missing or short trace id: `next` is not called, `EmptyHandler`
     * answers, the validation error is returned and nothing is logged.
     * Otherwise `next` runs behind the tee and the client receives exactly
     * the bytes it wrote. If it returns, its error is returned unchanged and
     * one final record is logged from the decoded copy of those bytes. If it
     * panics, nothing recovers the panic here: it leaves the middleware
     * (`panicked`) before the log call, so nothing is logged.
     */
    method LoggerMiddleware(
      req: InboundRequest, next: HandlerRun, erc: Table,
      encodeJson: Result -> seq<Byte>, decodeJson: seq<Byte> -> Option<Result>,
      durationMs: int, w: ResponseWriter)
      returns (err: Option<string>, panicked: Option<string>, store: map<string, string>, logs: seq<Logging.LogCall>)
      requires server.Some?
      modifies w
      ensures var id := TraceId(req);
        HeaderViolations(id) != [] ==>
          && panicked == None && logs == []
          && err.Some?
          && store == map["message" := Validation.Report(HeaderViolations(id))]
          && w.status == 200
          && w.body == old(w.body) + encodeJson(EmptyResult(erc, Validation.Report(HeaderViolations(id))))
      ensures var id := TraceId(req);
        var routeLabel := GetRouterLabel(req.path);
        HeaderViolations(id) == [] ==>
          && store == map["trace" := id, "label" := routeLabel]
          && w.status == next.status
          && w.body == old(w.body) + Kit.Concat(next.chunks)
      ensures var id := TraceId(req);
        var routeLabel := GetRouterLabel(req.path);
        HeaderViolations(id) == [] && next.Returned? ==>
          && panicked == None
          && err == next.err
          && logs == [Logging.LogCall("info", map["trace" := id, "label" := routeLabel],
                        FinalMessage(routeLabel, Decoded(decodeJson(Kit.Concat(next.chunks))), durationMs, req, next.status))]
      ensures HeaderViolations(TraceId(req)) == [] && next.Panicked? ==>
        panicked == Some(next.reason) && err == None && logs == []
    {
      var routeLabel := GetRouterLabel(req.path);
      var id := TraceId(req);
      var message, failed := Validation.Work(HeaderViolations(id));
      if failed {
        store := map["message" := message];
        EmptyHandler(store, erc, encodeJson, w);
        return Some(message), None, store, [];
      }
      store := map["trace" := id, "label" := routeLabel];
      var ctx: Logging.Context := map["trace" := id, "label" := routeLabel];
      var writer := new BodyDumpResponseWriter(w);
      // next(c): the handler sets the status and writes through the swapped writer.
      w.status := next.status;
      for i := 0 to |next.chunks|
        invariant writer.inner == w && w.status == next.status
        invariant writer.buffer == Kit.Concat(next.chunks[..i])
        invariant w.body == old(w.body) + Kit.Concat(next.chunks[..i])
      {
        assert next.chunks[..i + 1][..i] == next.chunks[..i];
        var _, _ := writer.Write(next.chunks[i]);
      }
      assert next.chunks[..|next.chunks|] == next.chunks;
      if next.Panicked? {
        return None, Some(next.reason), store, [];
      }
      err, panicked := next.err, None;
      var response := Decoded(decodeJson(writer.buffer));
      logs := [Logging.LogCall("info", ctx, FinalMessage(routeLabel, response, durationMs, req, w.status))];
    }
  }
}
