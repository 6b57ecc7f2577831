# magic-box core, modelled in Dafny

magic-box is a Go toolkit of process-wide singletons. This project models its
core, which is the following:

- **Error-code table** (`pkg/logger/erc.go`). Fifteen business codes
  (SUCCESS 10000 … INTERRUPT 30001), each with a level and a Chinese label.
  `GetErc` looks a code up and may relabel it. `GetDefaultErc` returns the
  SUCCESS entry.
- **Validator front end** (`pkg/validate/validator.go`). The rule engine's
  violations become one message: each violation overwrites the previous one,
  so the last one wins. `InitValidate` creates a validator at most once;
  each successful call installs the current one again, and `SetValidate`
  may replace it at any time.
- **Structured logger** (`pkg/logger/zap.go`).
  - `build` fills in the defaults (code SUCCESS, level info, the logger's
    label) and produces the seven-key field set.
  - `write` sends each level to its zap sink.
  - `applyEncoder` picks the console or the JSON encoder.
  - `InitLogger` validates its option and installs the logger once.
- **HTTP server side** (`pkg/server/echo.go`).
  - Building the server (middlewares, the host gets ":" appended, the
    listen address is host followed by the decimal port). The port must lie
    in 3000..10000.
  - The path-to-label registry that `AddRouter` writes.
  - The logging middleware. It checks the `X-REQUEST-ID` header (at least
    16 characters) and refuses through `EmptyHandler` if the check fails.
    Otherwise it tees the handler's output into a buffer and logs one final
    record.
- **Outbound request executor** (`pkg/request/resty.go`). Validates the link
  and configures the client: trace header, timeout with a default of 10 s,
  TLS, browser headers, a proxy only when it has more than six runes, and
  JSON content type for POST. It then maps the transport outcome to an error
  code:
  - a client timeout gives TIMEOUT;
  - any other transport failure gives DVERROR, relabelled;
  - status up to 201 is success;
  - 429 gives LIMITERROR;
  - 404 gives CHECK, relabelled "资源不存在";
  - any other status gives STATUSERROR.
- **Kit** (`pkg/kit/default.go`). `IsContainInt`/`IsContainString` sort the
  caller's slice in place and then binary-search it. `JoinString`
  concatenates its arguments.

## How the model is built

- **Globals.** The error table is passed explicitly as a
  `map<MessageCode, ErrorCode>`. A missing key stands for Go's zero
  `ErrorCode`. Package-level variables are fields of classes whose methods
  update them in place:
  - `ErrorCodes.Registry` holds the table, which `InitErrorCode` assigns
    directly, with no `sync.Once`;
  - `Validation.Registry`, `Logging.Registry` and `Server.ServerState` hold
    the variables guarded by a `sync.Once`, whose run is a `onceDone` flag.
- **Panics become preconditions.**
  - A Go `context.Context` is a `map<string, string>`. A missing `"trace"`
    or `"label"` key is where Go panics on the type assertion.
  - `AddRouter` and `LoggerMiddleware` call through the package-level
    `server`, which is a nil interface (and panics) until `InitServer` has
    built one. Hence their `requires server.Some?`.
  - `EmptyHandler` asserts that the stored `"message"` is a string.
- **Errors.** A Go `error` is `Option<string>`. `None` is nil and
  `Some(text)` is `errors.New(text)`.
- **Inputs.** Everything outside the code's own decisions becomes a
  parameter:
  - the rule engine's verdicts (the violations it reports, and whether a
    link is a URL);
  - the transport outcome;
  - JSON encoding and decoding;
  - elapsed durations;
  - the host `url.Parse` extracts;
  - the handler wrapped by the middleware;
  - the order in which Go iterates `build`'s field map.
- **Strings.** Strings are sequences of runes, so `utf8.RuneCountInString`
  is the length. The Go field name `Label` is `caption` in the model,
  because `label` is a reserved word in Dafny. Go `Method` fields are `m`.
- **In-place algorithms.** `IsContainInt`/`IsContainString` keep the
  caller's array and sort it in place. Insertion sort stands in for the
  library sort. The search halves `[lo, hi)` as `sort.Search` does. The
  contract is membership in the *original* contents, and the array is left
  sorted and a permutation of the original.

### Where the code and its description differ (the model follows the code)

- **Final middleware log.** The record never sets `Monitor.Code`, so `build`
  always stamps it SUCCESS, whatever the handler's envelope said
  (`Server.FinalLogCode`).
- **Refused trace id.** Nothing is logged. The client only receives the
  `EmptyHandler` envelope.
- **Handler panic.** `next(c)` runs with no `recover` around it. A handler
  that panics skips the final log call, so nothing is logged. The panic
  leaves the middleware (`Server.HandlerRun.Panicked`). Unless
  `DisableMiddRecover` is set, echo's Recover middleware answers further up.
  The bytes written before the panic have already been written to the
  client writer.
- **Unknown code.** A code missing from the table gives the zero
  `ErrorCode`, not the SUCCESS entry (`ErrorCodes.UnknownCodeIsZero`).
- **Status codes.** Every status up to 201, including 1xx and 0, counts as
  success. The `case 200`/`case 201` arms can never run, because they sit
  inside the `status > 201` branch, where neither 200 nor 201 can arrive.
  `Request.Work` keeps them in that branch as the code has them.
- **Envelope text.** The executor's envelope text is resty's
  `Response.String()`, which is the body with surrounding white space
  trimmed (`Request.TrimSpace`). The raw response keeps the body as
  received.

## Model

| member | source | states |
|---|---|---|
| ErrorCodes.GetErc | pkg/logger/erc.go:60-66 | name, code and level come from the table entry (zero entry when absent); the label is replaced exactly when the given label has more than one rune |
| ErrorCodes.UnknownCodeIsZero | pkg/logger/erc.go:60-66 | a code absent from the table yields code 0 and an empty level, with only the relabelling applied |
| ErrorCodes.GetDefaultErc | pkg/logger/erc.go:55-58 | the table's SUCCESS entry, or the zero entry when the table has none |
| ErrorCodes.DefaultIsSuccess | pkg/logger/erc.go:55-58 | the default entry of the initialised table is code 10000, level info, "操作成功" |
| ErrorCodes.InitialTableWellFormed | pkg/logger/erc.go:35-53 | the initialised table has fifteen entries, each stored under its own code |
| ErrorCodes.EntryOfKey | pkg/logger/erc.go:35-53 | every key of the initialised table holds one of the fifteen listed entries |
| ErrorCodes.InitialTableLevels | pkg/logger/erc.go:35-53 | INTERRUPT is the only fatal code; LIMITERROR and TIMEOUT are stored at level info |
| ErrorCodes.Registry.constructor | pkg/logger/erc.go:5 | the global table starts nil (empty) |
| ErrorCodes.Registry.InitErrorCode | pkg/logger/erc.go:35-53 | after initialisation the global table is exactly the fifteen-entry table |
| Validation.TagMessage | pkg/validate/validator.go:95-141 | every template starts with the field name and adds text after it |
| Validation.RequiredMinUrlTemplates | pkg/validate/validator.go:96-125 | the required, min and url templates |
| Validation.NeShowsValue | pkg/validate/validator.go:102-103 | the ne template shows the offending value, not the rule parameter |
| Validation.UnknownTagTemplate | pkg/validate/validator.go:140-141 | a tag with no template of its own gets the generic "未通过校验" message |
| Validation.Work | pkg/validate/validator.go:88-145 | fails exactly when there are violations; the message is "" when none, otherwise the last violation's template |
| Validation.Report | pkg/validate/validator.go:88-145 | the message is empty exactly when there are no violations |
| Validation.LastViolationWins | pkg/validate/validator.go:94-145 | violations before the last never reach the message |
| Validation.ReportNamesField | pkg/validate/validator.go:94-145 | a failure message is non-empty and starts with the last violation's field name |
| Validation.Registry.constructor | pkg/validate/validator.go:22-24 | no validator installed, once not yet run |
| Validation.Registry.SetValidate | pkg/validate/validator.go:32-36 | installs the given validator, nothing else changes |
| Validation.Registry.InitValidate | pkg/validate/validator.go:49-59 | the first call creates and installs a validator and succeeds; later calls create nothing and fail exactly when the installed validator is nil, with "初始化失败" |
| Validation.Registry.GetValidate | pkg/validate/validator.go:39-43 | returns the installed validator, nil if none |
| Validation.SetThenGet | pkg/validate/validator.go:32-43 | what SetValidate installs is what GetValidate then returns |
| Validation.InitValidateTwice | pkg/validate/validator.go:49-59 | two initialisations both succeed and the first call's validator stays installed |
| Logging.ApplyEncoder | pkg/logger/zap.go:169-178 | console encoder exactly for "console", JSON otherwise |
| Logging.LoggerFactory | pkg/logger/zap.go:91-99 | the logger carries the option's env, application and label, and the encoder applyEncoder picks |
| Logging.Defaulted | pkg/logger/zap.go:181-189 | a zero code becomes SUCCESS, an empty level info, an empty label the logger's; everything else is kept |
| Logging.DefaultedIdempotent | pkg/logger/zap.go:181-189 | defaulting an already defaulted message changes nothing |
| Logging.Content | pkg/logger/zap.go:190-198 | the field map has exactly the keys trace, env, application, label, remark, traceback, attr |
| Logging.Build | pkg/logger/zap.go:180-204 | seven fields, one per key of the field map, each holding that key's value computed from the defaulted message, in any iteration order |
| Logging.Route | pkg/logger/zap.go:207-221 | warn, error and fatal go to their own sinks; debug, info and every other level go to Info |
| Logging.Write | pkg/logger/zap.go:206-222 | the entry goes to the level's sink with the message text and the seven built fields |
| Logging.OptionMessage | pkg/logger/zap.go:65-70 | an option passes exactly when application, env and label are all set; the refusal names the last empty one |
| Logging.Registry.constructor | pkg/logger/zap.go:42-43 | no logger installed, once not yet run |
| Logging.Registry.InitLogger | pkg/logger/zap.go:73-88 | an invalid option is refused with the validator's message and changes nothing; otherwise only the first call installs a logger built by LoggerFactory |
| Kit.IntLeqTotalOrder | pkg/kit/default.go:21 | the ascending order used on ints is a total order |
| Kit.StrLeqTotalOrder | pkg/kit/default.go:31 | lexicographic string order is a total order |
| Kit.SortInPlace | pkg/kit/default.go:21 | the array ends sorted and is a permutation of its old contents |
| Kit.Search | pkg/kit/default.go:22 | the first index whose element is not below the target, or the length when there is none |
| Kit.IsContain | pkg/kit/default.go:20-37 | true exactly when the target occurs in the slice as passed in; the slice is left sorted, same multiset |
| Kit.IsContainInt | pkg/kit/default.go:20-27 | true exactly when the target occurs in the slice as passed in; the slice is left sorted ascending, same multiset |
| Kit.IsContainString | pkg/kit/default.go:30-37 | true exactly when the target occurs in the slice as passed in; the slice is left sorted lexicographically, same multiset |
| Kit.IsContainIntEmpty | pkg/kit/default.go:20-27 | an empty slice contains nothing |
| Kit.JoinString | pkg/kit/default.go:50-56 | the result is the concatenation of the arguments in order, its length the sum of theirs |
| Kit.ConcatLength | pkg/kit/default.go:50-56 | the length of a concatenation is the sum of the parts' lengths |
| Kit.ConcatAppend | pkg/kit/default.go:50-56 | joining a list of parts distributes over appending lists |
| Kit.ConcatPair | pkg/kit/default.go:50-56 | joining two strings is appending them |
| Kit.PartInPlace | pkg/kit/default.go:50-56 | each argument sits in the joined string right after the arguments before it |
| Server.ItoaRoundTrip | pkg/server/echo.go:111-114 | parsing the decimal form of the port gives the port back |
| Server.OptionViolationsRange | pkg/server/echo.go:60-71 | a server option passes exactly when the port lies in 3000..10000; a larger port is refused with the max message |
| Server.ExamplePortRefused | pkg/server/echo.go:61 | port 98117 is refused with "端口号的长度不应超过10000" |
| Server.NewEchoServer | pkg/server/echo.go:91-109 | CORS then Recover unless disabled; the port is kept; the host is the given host followed by ":" |
| Server.Work | pkg/server/echo.go:111-114 | the listen address is the host followed by the decimal port, and the port parses back from it |
| Server.ListenAddressOfOption | pkg/server/echo.go:91-114 | a server built from an option listens on "<host>:<port>" |
| Server.RouteVerb | pkg/server/echo.go:122-135 | POST, DELETE and PUT register as themselves; GET and every other method register as GET |
| Server.TraceId | pkg/server/echo.go:186-190 | the first X-REQUEST-ID value, or "" when the header is absent |
| Server.MissingHeaderRefused | pkg/server/echo.go:186-195 | a request without the header is refused with "追踪编码为必填项" |
| Server.HeaderRule | pkg/server/echo.go:177-195 | a trace id passes exactly when it has at least 16 characters; the empty and the short id have fixed refusal messages |
| Server.HeaderExamples | pkg/server/echo.go:177-179 | a 16-character id passes and a 5-character one fails |
| Server.EmptyResultCode | pkg/server/echo.go:167-175 | the refusal envelope carries status 200, no response and the PVERROR entry at level error |
| Server.FinalMessage | pkg/server/echo.go:216-236 | the final record: final, no code, the envelope's label and level, the route label, the measured duration, the request attributes host, path, user-agent, method and param with their values, and the response status |
| Server.FinalLogCode | pkg/server/echo.go:214-236 | the final record is always logged with code SUCCESS; an envelope with no level logs at info; an undecodable body logs empty text |
| Server.BodyDumpResponseWriter.constructor | pkg/server/echo.go:204-206 | the tee starts with an empty buffer over the client writer |
| Server.BodyDumpResponseWriter.Write | pkg/server/echo.go:241-243 | the bytes go to the client writer and to the buffer, and all of them are reported written |
| Server.EmptyHandler | pkg/server/echo.go:167-175 | answers status 200 with the JSON of the refusal envelope built from the stored message |
| Server.ServerState.constructor | pkg/server/echo.go:38-40 | no server, once not yet run, no routes, empty label registry |
| Server.ServerState.InitServer | pkg/server/echo.go:66-80 | an invalid option is refused with the validator's message and nothing is created; otherwise only the first call builds the server |
| Server.ServerState.AddRouter | pkg/server/echo.go:122-148 | the method (lines 122-136) registers the route with its verb, overwrites the path's label and leaves every other path's label unchanged; its `requires server.Some?` stands for the package-level `AddRouter` (lines 146-148), which calls through the nil global server |
| Server.ServerState.GetRouterLabel | pkg/server/echo.go:138-140 | the label registered for the path, "" for an unregistered path |
| Server.ServerState.LoggerMiddleware | pkg/server/echo.go:182-239 | a refused trace id: the handler is not run, nothing is logged, an error is returned and the client gets the refusal envelope; otherwise the handler's status passes through and the client gets exactly the bytes it wrote; a handler that returns has its error passed through and one final record logged from the decoded copy of those bytes; a handler that panics has its panic propagated and nothing logged |
| Request.EffectiveTimeout | pkg/request/resty.go:128-131 | a zero timeout becomes 10 s, any other is kept; the result is never zero |
| Request.Configure | pkg/request/resty.go:122-157 | trace header always; Host, Referer and User-Agent exactly when enabled; Content-Type application/json exactly for POST; timeout, TLS skip, proxy only above six runes, and verb POST exactly for "POST" |
| Request.Work | pkg/request/resty.go:112-205 | an invalid link is refused with the validator's message and nothing is sent; a transport error logs one record and returns the TIMEOUT or relabelled DVERROR label; a response gives the trimmed body as text, keeps status and raw body, and carries the code and error StatusOutcome classifies |
| Request.Get | pkg/request/resty.go:208-211 | executes with the method forced to GET: no Content-Type header and a GET verb |
| Request.Post | pkg/request/resty.go:214-217 | executes with the method forced to POST: JSON content type and a POST verb |
| Request.StatusOutcome | pkg/request/resty.go:180-197 | a response fails exactly when its status is above 201, with the code's label as error text; at or below 201 the code is the default entry; 429 gives LIMITERROR, 404 CHECK relabelled "资源不存在", any other failure STATUSERROR |
| Request.TransportErrorCode | pkg/request/resty.go:161-165 | the TIMEOUT entry when the error text contains "Client.Timeout ", otherwise the DVERROR entry relabelled "请求时发生错误" |
| Request.TransportLog | pkg/request/resty.go:166-177 | the transport-error record: not final, with the chosen code's label, level and code, the route label, the error text as traceback and the duration |
| Request.TransportLogKeepsCode | pkg/request/resty.go:161-177 | after defaulting, the transport-error record still carries TIMEOUT or DVERROR at the table's level |
| Request.TrimSpace | pkg/request/resty.go:200 | the envelope text: neither end is white space, only white space is cut from either side, and an already trimmed body is unchanged |
| Request.TrimSpaceIdempotent | pkg/request/resty.go:200 | trimming twice is trimming once |
| Request.TrailingNewlineDropped | pkg/request/resty.go:200 | a trimmed text followed by a newline reads back as that text |
| Request.StatusOutcomeTable | pkg/request/resty.go:180-197 | with the initialised table: success entry, LIMITERROR "超限" for 429, CHECK "资源不存在" for 404, STATUSERROR "非常规状态码" otherwise |
| Request.TransportErrorTable | pkg/request/resty.go:161-165 | a client timeout maps to TIMEOUT "超时" at info; any other transport error to DVERROR "请求时发生错误" at error |
| Request.TimeoutMarkerAnywhere | pkg/request/resty.go:163-165 | an error text containing "Client.Timeout " anywhere is classified as TIMEOUT |
| Request.ProxyThreshold | pkg/request/resty.go:143-145 | the proxy is set exactly when it has more than six runes, and then to the given value |
| Request.NotFoundScenario | pkg/request/resty.go:180-204 | a 404 for a GET yields status 404, the CHECK code relabelled "资源不存在", and that error |
| Request.CreatedScenario | pkg/request/resty.go:180-204 | a 201 for a POST yields no error and the SUCCESS code |
| Request.JsonBodyScenario | pkg/request/resty.go:198-204 | a 200 whose body ends in a newline yields the body without it as text, and the raw body with it |

## Left out

- **I/O is not modelled.** This covers the network, echo's listener and
  router, resty's transport, zap's encoding and output streams, and the
  clock. They appear only as inputs (transport outcome, handler run,
  durations), or as what is handed to them (`Logging.Entry`, `Server.Route`,
  `Request.Client`).
- **JSON encoding and decoding are function parameters.** A body that does
  not decode completely is treated as "not decoded" (the zero envelope).
  Go's partial decoding into a struct is not modelled.
- **The rule engine itself is not modelled** (go-playground/validator). Its
  output for each struct used here is written out: the required/min/max/url
  tags, one violation per failing field. Whether a link is a well-formed URL
  is an input. Panics of the engine on non-struct payloads are not modelled.
- **`sync.Once` and the mutex are a boolean flag and plain sequential
  state.** Concurrency is not modelled. The `c == nil` arms of the
  `InitServer` and `InitLogger` once-bodies cannot fire, because the
  factories never return nil, so they are omitted.
- **`Result.Response` is `interface{}` in Go.** The model narrows it to
  `Option<RawResponse>` (status and body of the resty response).
- **`Monitor.ProcessDuration` is an `int64` of milliseconds.** The model
  uses an unbounded integer, with no overflow.
- `Request.Configure`: the timeout is stated as a whole number of seconds
  over unbounded integers. Go computes `time.Duration(Timeout) * time.Second`
  in `int64` nanoseconds, which wraps above about 9.2·10⁹ seconds and can
  then be negative. That wrap is not modelled.
- `Request.TrimSpace`: resty's `Response.String()` is a library call. Its
  trimming (`strings.TrimSpace` with `unicode.IsSpace`) is written out here.
  Its nil-body case ("" for a response with no body) is not distinguished
  from an empty body.
- **Not part of this model:** `InitRequest`, `RequestFactory` and
  `NewRestyRequest`. They only create the stateless executor that `Get`/`Post`
  call. A nil executor panics, which is not modelled.
- **Not part of this model:** the per-level public wrappers
  (`Debug`/`Info`/`Warn`/`Error`/`Fatal`, zap.go:225-255). They only fix the
  level passed to `write`. Logs produced by the middleware and the executor
  are returned as `Logging.LogCall` values naming that level.
- **Not part of this model:** `CreateDigest`, `Base64Encode`/`Base64Decode`
  and `JoinLink` in `pkg/kit/default.go`. They wrap standard-library hashing,
  encoding and URL resolution.
- **Not part of this model:** `ServerFactory`, `ValidateFactory`, and the
  name argument of `LoggerFactory`. Every supported-type name builds the same
  object, so the name is ignored.
- `Server.ServerState.LoggerMiddleware`: on a refused trace id, the returned
  error is only stated to be non-nil. Its text comes from the rule library
  and is not modelled. Write errors from the client writer are not modelled
  (`BodyDumpResponseWriter.Write` always succeeds). A handler panic is
  reported as the propagated panic value. What echo's Recover middleware
  then sends is not part of this model.
- `Kit.SortInPlace`: an insertion sort stands in for Go's pattern-defeating
  quicksort. Only the outcome is modelled (sorted, same multiset), not the
  order of swaps.
- `Logging.Build`: the iteration order of Go's map is arbitrary. It is a
  parameter constrained to visit each of the seven keys once.
