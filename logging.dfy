/**
 * Structured logging (pkg/logger/zap.go): the log message shape, the
 * defaulting and field set that `build` hands to zap, the level-to-sink
 * dispatch of `write`, encoder choice and the once-only `InitLogger`.
 * zap's own encoding and output are not modelled: an `Entry` is what is
 * handed to it.
 */
module Logging {
  import opened Wrappers
  import opened ErrorCodes
  import Validation

  /** A Go `context.Context` as far as this code reads it: keys mapped to string values. */
  type Context = map<string, string>

  /** A value of an `interface{}` slot in `Inp`/`Oup` as far as this code fills them. */
  datatype Value = VStr(s: string) | VInt(i: int) | VNil

  datatype Monitor = Monitor(final: bool, level: LoggerLevel, code: MessageCode, processDuration: int, processDelay: int)

  /** `Inp`/`Oup` left unset are nil maps, modelled as empty maps. */
  datatype Attr = Attr(monitor: Monitor, inp: map<string, Value>, oup: map<string, Value>)

  /** Go `Message`; `caption` is the Go field `Label`. */
  datatype Message = Message(text: string, attr: Attr, caption: string, remark: string, traceback: string)

  const ZeroMonitor := Monitor(false, "", 0, 0, 0)

  /** One call of a package-level log function (`logger.Info(ctx, message)` and friends). */
  datatype LogCall = LogCall(level: string, ctx: Context, message: Message)

  datatype Encoder = JsonEncoder | ConsoleEncoder

  /** `ZapLogger`; `caption` is the Go field `Label`. The zap kernel is represented by its encoder. */
  datatype ZapLogger = ZapLogger(encoder: Encoder, env: string, application: string, caption: string)

  /** `Option` of `InitLogger`. */
  datatype LoggerOption = LoggerOption(application: string, env: string, caption: string, encode: string)

  /** `applyEncoder`: console only for "console", JSON for everything else. */
  function ApplyEncoder(types: string): (e: Encoder)
    ensures e == ConsoleEncoder <==> types == "console"
  {
    if types == "json" then JsonEncoder
    else if types == "console" then ConsoleEncoder
    else JsonEncoder
  }

  /** `LoggerFactory` / `NewZapLogger`: every supported-type name builds a zap logger from the option. */
  function LoggerFactory(name: string, option: LoggerOption): (l: ZapLogger)
    ensures l.env == option.env && l.application == option.application && l.caption == option.caption
    ensures l.encoder == ConsoleEncoder <==> option.encode == "console"
  {
    ZapLogger(ApplyEncoder(option.encode), option.env, option.application, option.caption)
  }

  /** The defaulting `build` applies to its copy of the message before turning it into fields. */
  function Defaulted(c: ZapLogger, message: Message): (r: Message)
    ensures r.attr.monitor.code != 0
    ensures message.attr.monitor.code != 0 ==> r.attr.monitor.code == message.attr.monitor.code
    ensures message.attr.monitor.code == 0 ==> r.attr.monitor.code == SUCCESS
    ensures r.attr.monitor.level != ""
    ensures message.attr.monitor.level != "" ==> r.attr.monitor.level == message.attr.monitor.level
    ensures message.attr.monitor.level == "" ==> r.attr.monitor.level == INFO
    ensures message.caption != "" ==> r.caption == message.caption
    ensures message.caption == "" ==> r.caption == c.caption
    ensures r.text == message.text && r.remark == message.remark && r.traceback == message.traceback
    ensures r.attr.inp == message.attr.inp && r.attr.oup == message.attr.oup
    ensures r.attr.monitor.final == message.attr.monitor.final
    ensures r.attr.monitor.processDuration == message.attr.monitor.processDuration
    ensures r.attr.monitor.processDelay == message.attr.monitor.processDelay
  {
    var m0 := message;
    var m1 := if m0.attr.monitor.code == 0 then m0.(attr := m0.attr.(monitor := m0.attr.monitor.(code := SUCCESS))) else m0;
    var m2 := if m1.attr.monitor.level == "" then m1.(attr := m1.attr.(monitor := m1.attr.monitor.(level := INFO))) else m1;
    if m2.caption == "" then m2.(caption := c.caption) else m2
  }

  /** Defaulting twice is defaulting once. */
  lemma DefaultedIdempotent(c: ZapLogger, message: Message)
    ensures Defaulted(c, Defaulted(c, message)) == Defaulted(c, message)
  {
  }

  /** The value of one of `build`'s fields. */
  datatype FieldValue = FString(s: string) | FAttr(attr: Attr)

  datatype Field = Field(key: string, value: FieldValue)

  /** The seven keys of `build`'s field map. */
  const FieldKeys: set<string> := {"trace", "env", "application", "label", "remark", "traceback", "attr"}

  /** `build`'s `content` map, for an already defaulted message. */
  function Content(c: ZapLogger, trace: string, m: Message): (content: map<string, FieldValue>)
    ensures content.Keys == FieldKeys
  {
    map[
      "trace" := FString(trace),
      "env" := FString(c.env),
      "application" := FString(c.application),
      "label" := FString(m.caption),
      "remark" := FString(m.remark),
      "traceback" := FString(m.traceback),
      "attr" := FAttr(m.attr)
    ]
  }

  /** An iteration order of the seven-key map: each key exactly once. */
  ghost predicate IsKeyOrder(order: seq<string>) {
    |order| == 7 && forall k :: k in order <==> k in FieldKeys
  }

  /**
   * `build`: defaults the message, then appends the fields of `content` in
   * the order Go's map iteration happens to visit them (`order`).
   */
  method Build(c: ZapLogger, ctx: Context, message: Message, order: seq<string>) returns (fields: seq<Field>)
    requires "trace" in ctx
    requires IsKeyOrder(order)
    ensures |fields| == 7
    ensures forall k :: k in FieldKeys <==> exists i :: 0 <= i < |fields| && fields[i].key == k
    ensures forall f :: f in fields ==> f.key in FieldKeys && f.value == Content(c, ctx["trace"], Defaulted(c, message))[f.key]
  {
    var m := message;
    if m.attr.monitor.code == 0 {
      m := m.(attr := m.attr.(monitor := m.attr.monitor.(code := SUCCESS)));
    }
    if m.attr.monitor.level == "" {
      m := m.(attr := m.attr.(monitor := m.attr.monitor.(level := INFO)));
    }
    if m.caption == "" {
      m := m.(caption := c.caption);
    }
    var content := Content(c, ctx["trace"], m);
    fields := [];
    for i := 0 to |order|
      invariant |fields| == i
      invariant forall j :: 0 <= j < i ==> fields[j] == Field(order[j], content[order[j]])
    {
      fields := fields + [Field(order[i], content[order[i]])];
    }
    forall k | k in FieldKeys
      ensures exists i :: 0 <= i < |fields| && fields[i].key == k
    {
      var i :| 0 <= i < |order| && order[i] == k;
      assert fields[i].key == k;
    }
  }

  /** The zap kernel method a `write` call ends in. */
  datatype Sink = InfoSink | WarnSink | ErrorSink | FatalSink

  /** `write`'s dispatch: debug and unknown levels go to Info. */
  function Route(level: string): (s: Sink)
    ensures s == WarnSink <==> level == "warn"
    ensures s == ErrorSink <==> level == "error"
    ensures s == FatalSink <==> level == "fatal"
    ensures s == InfoSink <==> level !in {"warn", "error", "fatal"}
  {
    if level == DEBUG then InfoSink
    else if level == INFO then InfoSink
    else if level == WARN then WarnSink
    else if level == ERROR then ErrorSink
    else if level == FATAL then FatalSink
    else InfoSink
  }

  /** What `write` hands to zap: the sink, the message text and the built fields. */
  datatype Entry = Entry(sink: Sink, text: string, fields: seq<Field>)

  /** `write`: build the fields, then dispatch on the level the public method fixed. */
  method Write(c: ZapLogger, ctx: Context, level: string, message: Message, order: seq<string>) returns (e: Entry)
    requires "trace" in ctx
    requires IsKeyOrder(order)
    ensures e.sink == Route(level) && e.text == message.text
    ensures |e.fields| == 7
    ensures forall f :: f in e.fields ==> f.key in FieldKeys && f.value == Content(c, ctx["trace"], Defaulted(c, message))[f.key]
  {
    var content := Build(c, ctx, message, order);
    e := Entry(Route(level), message.text, content);
  }

  /** The violations the rule engine reports for `Option` (three `required` fields, in declaration order). */
  function OptionViolations(option: LoggerOption): seq<Validation.Violation> {
    (if option.application == "" then [Validation.Violation("required", "应用名称", "", "")] else [])
    + (if option.env == "" then [Validation.Violation("required", "环境", "", "")] else [])
    + (if option.caption == "" then [Validation.Violation("required", "别称", "", "")] else [])
  }

  /** The message of a rejected `Option` names the last empty required field. */
  lemma OptionMessage(option: LoggerOption)
    ensures OptionViolations(option) == [] <==> option.application != "" && option.env != "" && option.caption != ""
    ensures option.caption == "" ==> Validation.Report(OptionViolations(option)) == "别称为必填项"
    ensures option.caption != "" && option.env == "" ==> Validation.Report(OptionViolations(option)) == "环境为必填项"
    ensures option.caption != "" && option.env != "" && option.application == "" ==>
      Validation.Report(OptionViolations(option)) == "应用名称为必填项"
  {
  }

  /** The package-level `logger` and its `sync.Once`. */
  class Registry {
    var logger: Option<ZapLogger>
    var onceDone: bool

    constructor ()
      ensures logger == None && !onceDone
    {
      logger, onceDone := None, false;
    }

    /**
     * `InitLogger`: an option that fails validation is refused with the
     * validator's message and changes nothing; otherwise only the first
     * call installs a logger.
     */
    method InitLogger(name: string, option: LoggerOption) returns (err: Option<string>)
      modifies this
      ensures OptionViolations(option) != [] ==>
        err == Some(Validation.Report(OptionViolations(option))) && logger == old(logger) && onceDone == old(onceDone)
      ensures OptionViolations(option) == [] ==> err == None && onceDone
      ensures OptionViolations(option) == [] && !old(onceDone) ==> logger == Some(LoggerFactory(name, option))
      ensures OptionViolations(option) == [] && old(onceDone) ==> logger == old(logger)
    {
      var message, failed := Validation.Work(OptionViolations(option));
      if failed {
        return Some(message);
      }
      if !onceDone {
        onceDone := true;
        logger := Some(LoggerFactory(name, option));
      }
      err := None;
    }
  }
}
