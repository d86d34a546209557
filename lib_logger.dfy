/** The logger facade of src/lib-logger.ts. winston's `loggers.add`, the loggers it
    returns and the transports are not modelled; the facade records every call it
    makes into them, in order, in `effects`. The clock, the md5 digest and the
    formatters' library calls come in through an `Env`. */
module LibLogger {
  import opened JsText
  import opened JsValues
  import opened LogLevels
  import opened Formats
  import opened CloudWatchLogs

  /** ICentralizedLoggerConfigs. `name` is declared required, but what a caller
      passes can still be `undefined` at run time, so it is a Field like the rest. */
  datatype LoggerConfigs = LoggerConfigs(
    name: Field<string>,
    maskConfidential: Field<bool>,
    maskKeys: Field<seq<string>>,
    exitOnError: Field<bool>,
    enableConsole: Field<bool>,
    enableCwl: Field<bool>,
    enableLogzio: Field<bool>,
    cwl: Field<CloudWatchConfig>)

  /** DEFAULT_LOGGER_OPTIONS */
  const DefaultLoggerOptions := LoggerConfigs(
    Present("Main"), Present(true), Absent, Present(false), Present(true), Present(false), Present(false), Absent)

  /** `{...defaults, ...configs}` */
  function MergeConfigs(defaults: LoggerConfigs, configs: LoggerConfigs): LoggerConfigs {
    LoggerConfigs(
      Override(defaults.name, configs.name),
      Override(defaults.maskConfidential, configs.maskConfidential),
      Override(defaults.maskKeys, configs.maskKeys),
      Override(defaults.exitOnError, configs.exitOnError),
      Override(defaults.enableConsole, configs.enableConsole),
      Override(defaults.enableCwl, configs.enableCwl),
      Override(defaults.enableLogzio, configs.enableLogzio),
      Override(defaults.cwl, configs.cwl))
  }

  /** The constructor's merge: name "Main", masking on, exitOnError off, console
      on, CloudWatch and Logz.io off, unless the caller wrote the property (even as
      `undefined`, which then stays `undefined`). */
  lemma MergeConfigsDefaults(configs: LoggerConfigs)
    ensures var c := MergeConfigs(DefaultLoggerOptions, configs);
      c.name == (if configs.name.Absent? then Present("Main") else configs.name) &&
      c.maskConfidential == (if configs.maskConfidential.Absent? then Present(true) else configs.maskConfidential) &&
      c.maskKeys == configs.maskKeys &&
      c.exitOnError == (if configs.exitOnError.Absent? then Present(false) else configs.exitOnError) &&
      c.enableConsole == (if configs.enableConsole.Absent? then Present(true) else configs.enableConsole) &&
      c.enableCwl == (if configs.enableCwl.Absent? then Present(false) else configs.enableCwl) &&
      c.enableLogzio == (if configs.enableLogzio.Absent? then Present(false) else configs.enableLogzio) &&
      c.cwl == configs.cwl
  {
  }

  /** `cwlLoggerConfig`: the merged configs with CloudWatch forced on and the other
      sinks off. */
  function CwlLoggerConfig(merged: LoggerConfigs): LoggerConfigs {
    merged.(enableCwl := Present(true), enableLogzio := Present(false), enableConsole := Present(false))
  }

  /** The constructor builds the dedicated CloudWatch logger exactly when the caller
      gave a `cwl` configuration, whatever the caller's `enableCwl`. */
  lemma CloudWatchLoggerIgnoresEnableCwl(configs: LoggerConfigs)
    ensures var c := CwlLoggerConfig(MergeConfigs(DefaultLoggerOptions, configs));
      (IsOn(c.enableCwl) && c.cwl.Present?) <==> configs.cwl.Present?
  {
  }

  /** A winston transport. */
  datatype Transport =
    | ConsoleTransport(maskConfidential: bool, maskKeys: Field<seq<string>>)
    | CloudWatchTransport(options: TransportOptions)

  /** The LoggerOptions handed to `loggers.add`; `format` is the maskFormat stage when
      there is one. */
  datatype LoggerOptions = LoggerOptions(
    level: LogLevel,
    exitOnError: Field<bool>,
    format: Option<MaskOptions>,
    transports: seq<Transport>)

  /** A logger registered under `id`. */
  datatype Logger = Logger(id: Field<string>, options: LoggerOptions)

  /** A call the facade makes into code it does not own. */
  datatype Effect =
    | Added(logger: Logger)
    | Logged(target: Logger, entry: Props)
    | Ended(target: Logger)
    | Closed(target: Logger)
    | NextCalled
    | Forwarded(call: Sent)

  type IsoTimestamp = s: string | IsIsoTimestamp(s) witness "1970-01-01T00:00:00.000Z"

  type HexDigest = h: string | IsHexDigest(h) witness "00000000000000000000000000000000"

  /** The environment: the i-th reading of `new Date().toISOString()`, the md5 hex
      digest, and the library calls of the formatters. */
  datatype Env = Env(now: nat -> IsoTimestamp, md5Hex: string -> HexDigest, rt: Runtime)

  /** The transports addLoggers registers under `configs.name`, in order; the
      CloudWatch one is built from clock readings `t` and `t + 1`. */
  function ContainerTransports(configs: LoggerConfigs, console: Transport, env: Env, t: nat): seq<Transport> {
    (if IsOn(configs.enableConsole) then [console] else []) +
    (if IsOn(configs.enableCwl) && configs.cwl.Present?
     then [CloudWatchTransport(SetTransport(configs.name, configs.cwl.value, env.now(t), env.now(t + 1), env.md5Hex))]
     else [])
  }

  /** addLoggers registers the console transport iff `enableConsole` is true, a
      CloudWatch transport iff `enableCwl` is true and a `cwl` configuration is
      given, the console one first. The CloudWatch transport is named after the
      logger itself, not "cwl-" + name as the dedicated CloudWatch logger's is. */
  lemma ContainerTransportsSpec(configs: LoggerConfigs, console: Transport, env: Env, t: nat)
    requires console.ConsoleTransport?
    ensures var ts := ContainerTransports(configs, console, env, t);
      var cwlOn := IsOn(configs.enableCwl) && configs.cwl.Present?;
      |ts| == (if IsOn(configs.enableConsole) then 1 else 0) + (if cwlOn then 1 else 0) &&
      (console in ts <==> IsOn(configs.enableConsole)) &&
      (IsOn(configs.enableConsole) ==> ts[0] == console) &&
      (forall i :: 0 <= i < |ts| && ts[i].CloudWatchTransport? ==>
        cwlOn && i == |ts| - 1 && ts[i].options.name == configs.name &&
        ts[i].options.logGroupName == Merge(DefaultCwlOptions, configs.cwl.value).logGroupName) &&
      (cwlOn ==> ts[|ts| - 1].CloudWatchTransport?)
  {
  }

  /** The options addLoggers and addCustomLogger register: level debug, the
      configured exitOnError, masking as configured. */
  function MaskedLoggerOptions(configs: LoggerConfigs, transports: seq<Transport>): LoggerOptions {
    LoggerOptions(Debug, configs.exitOnError, Some(MaskOptions(configs.maskConfidential, configs.maskKeys)), transports)
  }

  /** The console transport (ConsoleLogs): masking unless `maskConfidential` is
      false or undefined. */
  function ConsoleTransportOf(merged: LoggerConfigs): Transport {
    ConsoleTransport(WithDefault(merged.maskConfidential, false), merged.maskKeys)
  }

  /** The "main-console" logger addConsoleLogger registers: level debug, no format
      stage, exitOnError false unless given. */
  function ConsoleLogger(console: Transport, exitOnError: Field<bool>): Logger {
    Logger(Present("main-console"), LoggerOptions(Debug, Present(WithDefault(exitOnError, false)), None, [console]))
  }

  /** The "main-cloudwatchlogs" logger: one CloudWatch transport named
      `cwl-${name}` ("cwl-undefined" when the name is undefined), built from the first two clock readings. */
  function CloudWatchLogger(merged: LoggerConfigs, env: Env): Logger
    requires merged.cwl.Present?
  {
    var cwlLoggerConfig := CwlLoggerConfig(merged);
    Logger(Present("main-cloudwatchlogs"), MaskedLoggerOptions(cwlLoggerConfig,
      [CloudWatchTransport(SetTransport(Present("cwl-" + TemplateText(cwlLoggerConfig.name)), cwlLoggerConfig.cwl.value, env.now(0), env.now(1), env.md5Hex))]))
  }

  /** The logger addLoggers registers. */
  function ContainerLogger(configs: LoggerConfigs, console: Transport, env: Env, t: nat): Logger {
    Logger(configs.name, MaskedLoggerOptions(configs, ContainerTransports(configs, console, env, t)))
  }

  /** With `enableCwl` on and a `cwl` configuration, two CloudWatch transports are
      set up for the same group under different names: one in the dedicated
      logger and one in the container. The facade's own entries go through `log`
      and so reach only the container's transport. */
  lemma TwoCwlTransportsOneGroup(name: string, cwl: CloudWatchConfig, env: Env)
    ensures var configs := LoggerConfigs(Present(name), Absent, Absent, Absent, Absent, Present(true), Absent, Present(cwl));
      var merged := MergeConfigs(DefaultLoggerOptions, configs);
      var dedicated := CloudWatchLogger(merged, env).options.transports;
      var container := ContainerLogger(merged, ConsoleTransportOf(merged), env, 2).options.transports;
      |dedicated| == 1 && |container| == 2 &&
      container[0] == ConsoleTransport(true, Absent) &&
      dedicated[0].options.logGroupName == container[1].options.logGroupName == Merge(DefaultCwlOptions, cwl).logGroupName &&
      dedicated[0].options.name == Present("cwl-" + name) && container[1].options.name == Present(name)
  {
  }

  /** A logger whose configs give `name: undefined` is registered under the id
      `undefined`, and its dedicated CloudWatch transport is named "cwl-undefined"
      by the template literal. */
  lemma UndefinedNameLoggers(configs: LoggerConfigs, env: Env)
    requires configs.name == Undef && configs.cwl.Present?
    ensures var merged := MergeConfigs(DefaultLoggerOptions, configs);
      ContainerLogger(merged, ConsoleTransportOf(merged), env, 2).id == Undef &&
      CloudWatchLogger(merged, env).options.transports[0].options.name == Present("cwl-undefined")
  {
    var merged := MergeConfigs(DefaultLoggerOptions, configs);
    assert TemplateText(CwlLoggerConfig(merged).name) == "undefined";
    assert "cwl-" + "undefined" == "cwl-undefined";
  }

  /** What `log` forwards: the entry with `timestamp` set to `now` when it was missing
      or falsy. */
  function WithTimestamp(entry: Props, now: string): Props {
    if Truthy(Lookup(entry, TimestampKey)) then entry else Put(entry, TimestampKey, Str(now))
  }

  /** `log` leaves a truthy timestamp and every other property alone, and otherwise
      sets the timestamp, keeping every other property. */
  lemma WithTimestampSpec(entry: Props, now: IsoTimestamp)
    ensures Truthy(Lookup(WithTimestamp(entry, now), TimestampKey))
    ensures Truthy(Lookup(entry, TimestampKey)) ==> WithTimestamp(entry, now) == entry
    ensures !Truthy(Lookup(entry, TimestampKey)) ==> Lookup(WithTimestamp(entry, now), TimestampKey) == Str(now)
    ensures forall k :: k != TimestampKey ==>
      Has(WithTimestamp(entry, now), k) == Has(entry, k) && Lookup(WithTimestamp(entry, now), k) == Lookup(entry, k)
  {
  }

  /** An entry that starts with a non-empty timestamp is forwarded by `log` as it is. */
  lemma StampedEntryKept(entry: Props, later: string)
    requires entry != [] && entry[0].0 == TimestampKey && entry[0].1.Str? && entry[0].1.s != ""
    ensures WithTimestamp(entry, later) == entry
  {
  }

  /** The entry `info(message, data)` passes to `log`. */
  function InfoEntry(message: string, data: Json): Props {
    [(LevelKey, Str(Info.Name())), (MessageKey, Str(message)), (Prop("data"), data)]
  }

  /** `info` logs level info, the message and `data` (present even when `undefined`),
      with the timestamp appended by `log`. */
  lemma InfoEntryLogged(message: string, data: Json, now: IsoTimestamp)
    ensures WithTimestamp(InfoEntry(message, data), now) ==
      [(LevelKey, Str("info")), (MessageKey, Str(message)), (Prop("data"), data), (TimestampKey, Str(now))]
  {
    var e := InfoEntry(message, data);
    NotHasAt(e, TimestampKey);
  }

  // ----- HTTP request and response entries -----

  /** The parts of an incoming request the middleware reads. */
  datatype Request = Request(
    headers: Props,
    remoteAddress: Json,
    httpMethod: Json,
    originalUrl: Json,
    url: Json,
    body: Json,
    correlationId: Json)

  /** `x-forwarded-for`, or the connection's address when that header is falsy. */
  function ClientIp(req: Request): Json {
    Or(Lookup(req.headers, Prop("x-forwarded-for")), req.remoteAddress)
  }

  function Referer(req: Request): Json {
    Or(Lookup(req.headers, Prop("referer")), Str(""))
  }

  /** The request fields both HTTP entries carry, in the order they are written. */
  function HttpRequestFields(req: Request): Props {
    [ (Prop("clientIP"), ClientIp(req)),
      (Prop("method"), req.httpMethod),
      (Prop("originalUri"), req.originalUrl),
      (Prop("uri"), req.url),
      (Prop("referer"), Referer(req)),
      (Prop("userAgent"), Lookup(req.headers, Prop("user-agent")))
    ]
  }

  /** The entry httpRequestLog logs. */
  function RequestEntry(rt: Runtime, req: Request, now: string): Props {
    [(TimestampKey, Str(now)), (Prop("correlationId"), req.correlationId), (LevelKey, Str(Debug.Name()))]
    + HttpRequestFields(req)
    + [ (MessageKey, Str("HTTP Request - " + ToJsString(req.correlationId))),
        (Prop("request"), Obj([(Prop("body"), TryParseJsonString(rt, Obj(SpreadOf(req.body)))), (Prop("headers"), Obj(req.headers))]))
      ]
  }

  /** The entry the intercepted `end` logs. */
  function ResponseEntry(rt: Runtime, req: Request, statusCode: Json, responseHeaders: Props, body: string, now: string): Props {
    [(TimestampKey, Str(now)), (Prop("correlationId"), req.correlationId), (LevelKey, Str(Debug.Name())), (Prop("statusCode"), statusCode)]
    + HttpRequestFields(req)
    + [ (MessageKey, Str("HTTP Response - " + ToJsString(req.correlationId))),
        (Prop("request"), Obj([(Prop("body"), req.body), (Prop("headers"), Obj(req.headers))])),
        (Prop("response"), Obj([(Prop("body"), TryParseJsonString(rt, Str(body))), (Prop("headers"), Obj(responseHeaders))]))
      ]
  }

  /** Reading the client IP and the referer of an entry made of a head without
      them, the request fields, and a tail. */
  lemma HttpFieldsOf(head: Props, req: Request, tail: Props)
    requires forall i :: 0 <= i < |head| ==> head[i].0 != Prop("clientIP") && head[i].0 != Prop("referer")
    ensures Lookup(head + HttpRequestFields(req) + tail, Prop("clientIP")) == ClientIp(req)
    ensures Lookup(head + HttpRequestFields(req) + tail, Prop("referer")) == Referer(req)
  {
    var common := HttpRequestFields(req);
    NotHasAt(head, Prop("clientIP"));
    NotHasAt(head, Prop("referer"));
    LookupConcat(head + common, tail, Prop("clientIP"));
    LookupConcat(head, common, Prop("clientIP"));
    LookupConcat(head + common, tail, Prop("referer"));
    LookupConcat(head, common, Prop("referer"));
    LookupAt(common, 4);
  }

  /** Reading the message of an entry whose head and request fields lack one. */
  lemma MessageOf(head: Props, req: Request, tail: Props)
    requires forall i :: 0 <= i < |head| ==> head[i].0 != MessageKey
    requires tail != [] && tail[0].0 == MessageKey
    ensures Lookup(head + HttpRequestFields(req) + tail, MessageKey) == tail[0].1
  {
    var common := HttpRequestFields(req);
    NotHasAt(head, MessageKey);
    NotHasAt(common, MessageKey);
    LookupConcat(head + common, tail, MessageKey);
    LookupConcat(head, common, MessageKey);
  }

  /** The request entry is a debug entry stamped with the clock reading (so `log`
      forwards it unchanged), whose client IP prefers a truthy `x-forwarded-for`
      header over the connection's address, and whose referer defaults to "". */
  lemma RequestEntryFields(rt: Runtime, req: Request, now: IsoTimestamp, later: string)
    ensures var e := RequestEntry(rt, req, now);
      var xff := Lookup(req.headers, Prop("x-forwarded-for"));
      var referer := Lookup(req.headers, Prop("referer"));
      WithTimestamp(e, later) == e &&
      Lookup(e, TimestampKey) == Str(now) &&
      Lookup(e, LevelKey) == Str("debug") &&
      Lookup(e, Prop("clientIP")) == (if Truthy(xff) then xff else req.remoteAddress) &&
      Lookup(e, Prop("referer")) == (if Truthy(referer) then referer else Str("")) &&
      Lookup(e, MessageKey) == Str("HTTP Request - " + ToJsString(req.correlationId))
  {
    var head := [(TimestampKey, Str(now)), (Prop("correlationId"), req.correlationId), (LevelKey, Str(Debug.Name()))];
    var tail := [ (MessageKey, Str("HTTP Request - " + ToJsString(req.correlationId))),
        (Prop("request"), Obj([(Prop("body"), TryParseJsonString(rt, Obj(SpreadOf(req.body)))), (Prop("headers"), Obj(req.headers))]))];
    var e := RequestEntry(rt, req, now);
    assert e == head + HttpRequestFields(req) + tail;
    StampedEntryKept(e, later);
    assert Lookup(e, LevelKey) == Str("debug") by { LookupAt(e, 2); }
    HttpFieldsOf(head, req, tail);
    MessageOf(head, req, tail);
  }

  /** `log` takes the request entry as it is: its timestamp is already set. */
  lemma RequestEntryStamped(rt: Runtime, req: Request, now: IsoTimestamp, later: string)
    ensures Truthy(Lookup(RequestEntry(rt, req, now), TimestampKey))
    ensures WithTimestamp(RequestEntry(rt, req, now), later) == RequestEntry(rt, req, now)
  {
    RequestEntryFields(rt, req, now, later);
  }

  /** The same for the response entry, which also carries the status code. */
  lemma ResponseEntryFields(rt: Runtime, req: Request, statusCode: Json, responseHeaders: Props, body: string, now: IsoTimestamp, later: string)
    ensures var e := ResponseEntry(rt, req, statusCode, responseHeaders, body, now);
      var xff := Lookup(req.headers, Prop("x-forwarded-for"));
      var referer := Lookup(req.headers, Prop("referer"));
      WithTimestamp(e, later) == e &&
      Lookup(e, TimestampKey) == Str(now) &&
      Lookup(e, LevelKey) == Str("debug") &&
      Lookup(e, Prop("statusCode")) == statusCode &&
      Lookup(e, Prop("clientIP")) == (if Truthy(xff) then xff else req.remoteAddress) &&
      Lookup(e, Prop("referer")) == (if Truthy(referer) then referer else Str("")) &&
      Lookup(e, MessageKey) == Str("HTTP Response - " + ToJsString(req.correlationId))
  {
    var head := [(TimestampKey, Str(now)), (Prop("correlationId"), req.correlationId), (LevelKey, Str(Debug.Name())), (Prop("statusCode"), statusCode)];
    var tail := [ (MessageKey, Str("HTTP Response - " + ToJsString(req.correlationId))),
        (Prop("request"), Obj([(Prop("body"), req.body), (Prop("headers"), Obj(req.headers))])),
        (Prop("response"), Obj([(Prop("body"), TryParseJsonString(rt, Str(body))), (Prop("headers"), Obj(responseHeaders))]))];
    var e := ResponseEntry(rt, req, statusCode, responseHeaders, body, now);
    assert e == head + HttpRequestFields(req) + tail;
    StampedEntryKept(e, later);
    assert Lookup(e, LevelKey) == Str("debug") by { LookupAt(e, 2); }
    assert Lookup(e, Prop("statusCode")) == statusCode by { LookupAt(e, 3); }
    HttpFieldsOf(head, req, tail);
    MessageOf(head, req, tail);
  }

  /** The request body is spread into a fresh object before the parse attempt, and
      an object's string form is "[object Object]": when the parser rejects that
      text, the logged body is the spread copy. A JSON text body is therefore never
      parsed; it is logged as one property per character. */
  lemma RequestBodyNeverParsed(rt: Runtime, body: Json)
    requires rt.parse("[object Object]").Threw?
    ensures TryParseJsonString(rt, Obj(SpreadOf(body))) == Obj(SpreadOf(body))
    ensures body.Str? ==> |SpreadOf(body)| == |body.s|
  {
    TryParseObjectGivesObject(rt, SpreadOf(body));
  }

  // ----- the response buffer -----

  /** A call that reaches the response's own `write` or `end`. */
  datatype Sent = SentWrite(args: seq<Json>) | SentEnd(args: seq<Json>)

  /** `new Buffer(arg)` throws unless the argument is a string (the other argument
      forms of Buffer are not modelled). */
  predicate BufferThrows(args: seq<Json>) {
    |args| == 0 || !args[0].Str?
  }

  /** The chunk one forwarded call contributed to the buffer: the first argument of
      every write, and the first argument of end when it is truthy. */
  function ChunkOf(call: Sent): seq<string> {
    match call
    case SentWrite(args) => if |args| > 0 && args[0].Str? then [args[0].s] else []
    case SentEnd(args) => if |args| > 0 && Truthy(args[0]) && args[0].Str? then [args[0].s] else []
  }

  function ChunksOf(calls: seq<Sent>): seq<string> {
    if calls == [] then [] else ChunksOf(calls[..|calls| - 1]) + ChunkOf(calls[|calls| - 1])
  }

  /** `Buffer.concat(chunks).toString()` */
  function Concat(chunks: seq<string>): string {
    if chunks == [] then "" else Concat(chunks[..|chunks| - 1]) + chunks[|chunks| - 1]
  }

  /** Concatenation distributes over appending chunk lists. */
  lemma {:induction false} ConcatAppend(a: seq<string>, b: seq<string>)
    ensures Concat(a + b) == Concat(a) + Concat(b)
    decreases |b|
  {
    if b == [] {
      assert a + b == a;
    } else {
      assert (a + b)[..|a + b| - 1] == a + b[..|b| - 1];
      ConcatAppend(a, b[..|b| - 1]);
    }
  }

  /** The chunks of a run of calls are the chunks of its parts, in order. */
  lemma {:induction false} ChunksOfAppend(a: seq<Sent>, b: seq<Sent>)
    ensures ChunksOf(a + b) == ChunksOf(a) + ChunksOf(b)
    decreases |b|
  {
    if b == [] {
      assert a + b == a;
    } else {
      assert (a + b)[..|a + b| - 1] == a + b[..|b| - 1];
      ChunksOfAppend(a, b[..|b| - 1]);
    }
  }

  /** One more forwarded call adds its chunk to the chunks since `mark`. */
  lemma ChunksOfExtend(sent: seq<Sent>, mark: nat, call: Sent)
    requires mark <= |sent|
    ensures ChunksOf((sent + [call])[mark..]) == ChunksOf(sent[mark..]) + ChunkOf(call)
  {
    assert (sent + [call])[mark..] == sent[mark..] + [call];
    ChunksOfAppend(sent[mark..], [call]);
    assert ChunksOf([call]) == ChunkOf(call) by {
      assert [call][..0] == [];
    }
  }

  /** The body text of a run of calls is the body text of its parts, joined. */
  lemma BodyOfAppend(a: seq<Sent>, b: seq<Sent>)
    ensures Concat(ChunksOf(a + b)) == Concat(ChunksOf(a)) + Concat(ChunksOf(b))
  {
    ChunksOfAppend(a, b);
    ConcatAppend(ChunksOf(a), ChunksOf(b));
  }

  /** The response as the middleware sees it. `sent` is what reached the original
      `write` and `end`, in order. */
  class Response {
    var statusCode: Json
    var headers: Props
    var sent: seq<Sent>

    constructor (statusCode: Json, headers: Props)
      ensures this.statusCode == statusCode && this.headers == headers && sent == []
    {
      this.statusCode := statusCode;
      this.headers := headers;
      sent := [];
    }

    /** res.setHeader(name, value) */
    method SetHeader(name: string, value: Json)
      modifies this`headers
      ensures headers == Put(old(headers), Prop(name), value)
    {
      headers := Put(headers, Prop(name), value);
    }
  }

  /** The response object an optional argument refers to, if any. */
  function ResponseObjects(res: Option<Response>): set<Response> {
    if res.Some? then {res.value} else {}
  }

  /** The facade. */
  class CentralizedLogger {
    const env: Env
    /** How many clock readings have been taken. */
    var ticks: nat
    var Console: Logger
    var Cloudwatchlogs: Option<Logger>
    var Logzio: Option<Logger>
    var Container: Logger
    var effects: seq<Effect>

    /** new Date().toISOString() */
    method ReadClock() returns (iso: IsoTimestamp)
      modifies this`ticks
      ensures iso == env.now(old(ticks)) && ticks == old(ticks) + 1
    {
      iso := env.now(ticks);
      ticks := ticks + 1;
    }

    /** setTransport, reading the clock twice as setLogStreamName does. */
    method BuildCwlTransport(name: Field<string>, cwl: CloudWatchConfig) returns (t: TransportOptions)
      modifies this`ticks
      ensures t == SetTransport(name, cwl, env.now(old(ticks)), env.now(old(ticks) + 1), env.md5Hex)
      ensures ticks == old(ticks) + 2
    {
      var startTime := ReadClock();
      var now := ReadClock();
      t := SetTransport(name, cwl, startTime, now, env.md5Hex);
    }

    /** loggers.add(name, options) */
    method Add(name: Field<string>, options: LoggerOptions) returns (logger: Logger)
      modifies this`effects
      ensures logger == Logger(name, options)
      ensures effects == old(effects) + [Added(logger)]
    {
      logger := Logger(name, options);
      effects := effects + [Added(logger)];
    }

    constructor (configs: LoggerConfigs, env: Env)
      ensures this.env == env && Logzio == None
      ensures var merged := MergeConfigs(DefaultLoggerOptions, configs);
        Console == ConsoleLogger(ConsoleTransportOf(merged), merged.exitOnError) &&
        (Cloudwatchlogs.Some? <==> configs.cwl.Present?) &&
        (configs.cwl.Present? ==> Cloudwatchlogs.value == CloudWatchLogger(merged, env)) &&
        Container == ContainerLogger(merged, ConsoleTransportOf(merged), env, if configs.cwl.Present? then 2 else 0)
      ensures effects == [Added(Console)] + (if Cloudwatchlogs.Some? then [Added(Cloudwatchlogs.value)] else []) + [Added(Container)]
    {
      this.env := env;
      ticks := 0;
      effects := [];
      Logzio := None;
      Console := Logger(Absent, LoggerOptions(Debug, Absent, None, []));
      Cloudwatchlogs := None;
      Container := Console;
      new;
      var loggerConfigs := MergeConfigs(DefaultLoggerOptions, configs);
      assert loggerConfigs.cwl == configs.cwl;
      var csl := ConsoleTransportOf(loggerConfigs);
      Console := AddConsoleLogger(csl, loggerConfigs.exitOnError);

      var cwlLoggerConfig := CwlLoggerConfig(loggerConfigs);
      if IsOn(cwlLoggerConfig.enableCwl) && cwlLoggerConfig.cwl.Present? {
        var cwlTransport := BuildCwlTransport(Present("cwl-" + TemplateText(cwlLoggerConfig.name)), cwlLoggerConfig.cwl.value);
        var cwlLogger := AddCustomLogger("main-cloudwatchlogs", CloudWatchTransport(cwlTransport), cwlLoggerConfig);
        assert cwlLogger == CloudWatchLogger(loggerConfigs, env);
        Cloudwatchlogs := Some(cwlLogger);
      }
      assert ticks == if configs.cwl.Present? then 2 else 0;

      Container := AddLoggers(loggerConfigs, csl);
    }

    /** addCustomLogger: one transport, level debug, the configured exitOnError and
      masking. */
    method AddCustomLogger(name: string, customTransport: Transport, configs: LoggerConfigs) returns (logger: Logger)
      modifies this`effects
      ensures logger == Logger(Present(name), MaskedLoggerOptions(configs, [customTransport]))
      ensures effects == old(effects) + [Added(logger)]
    {
      logger := Add(Present(name), MaskedLoggerOptions(configs, [customTransport]));
    }

    /** addConsoleLogger */
    method AddConsoleLogger(consoleTransport: Transport, exitOnError: Field<bool>) returns (logger: Logger)
      modifies this`effects
      ensures logger == ConsoleLogger(consoleTransport, exitOnError)
      ensures effects == old(effects) + [Added(logger)]
    {
      logger := Add(Present("main-console"), LoggerOptions(Debug, Present(WithDefault(exitOnError, false)), None, [consoleTransport]));
    }

    /** addLoggers: collects the transports the configs enable and registers them
      under `configs.name`. Building the CloudWatch transport reads the clock twice. */
    method AddLoggers(configs: LoggerConfigs, consoleTransport: Transport) returns (logger: Logger)
      modifies this`effects, this`ticks
      ensures logger == ContainerLogger(configs, consoleTransport, env, old(ticks))
      ensures ticks == old(ticks) + (if IsOn(configs.enableCwl) && configs.cwl.Present? then 2 else 0)
      ensures effects == old(effects) + [Added(logger)]
    {
      var transports: seq<Transport> := [];
      if IsOn(configs.enableConsole) {
        transports := transports + [consoleTransport];
      }
      if IsOn(configs.enableCwl) && configs.cwl.Present? {
        var cwlTransport := BuildCwlTransport(configs.name, configs.cwl.value);
        transports := transports + [CloudWatchTransport(cwlTransport)];
      }
      logger := Add(configs.name, MaskedLoggerOptions(configs, transports));
    }

    /** end: ends and closes the container, then the CloudWatch logger and the
      Logz.io logger when they exist; each close runs as the end callback. */
    method End()
      modifies this`effects
      ensures effects == old(effects) + [Ended(Container), Closed(Container)]
        + (if Cloudwatchlogs.Some? then [Ended(Cloudwatchlogs.value), Closed(Cloudwatchlogs.value)] else [])
        + (if Logzio.Some? then [Ended(Logzio.value), Closed(Logzio.value)] else [])
    {
      effects := effects + [Ended(Container), Closed(Container)];
      if Cloudwatchlogs.Some? {
        effects := effects + [Ended(Cloudwatchlogs.value), Closed(Cloudwatchlogs.value)];
      }
      if Logzio.Some? {
        effects := effects + [Ended(Logzio.value), Closed(Logzio.value)];
      }
    }

    /** log: defaults a missing or falsy timestamp in place, then hands the entry to
      the container. */
    method Log(logEntry: JsObject)
      modifies this`effects, this`ticks, logEntry
      ensures logEntry.props == WithTimestamp(old(logEntry.props), env.now(old(ticks)))
      ensures ticks == old(ticks) + (if Truthy(Lookup(old(logEntry.props), TimestampKey)) then 0 else 1)
      ensures effects == old(effects) + [Logged(Container, logEntry.props)]
    {
      if !Truthy(logEntry.Get(TimestampKey)) {
        var now := ReadClock();
        logEntry.Set(TimestampKey, Str(now));
      }
      effects := effects + [Logged(Container, logEntry.props)];
    }

    /** info(message, data) */
    method Info(message: string, data: Json)
      modifies this`effects, this`ticks
      ensures ticks == old(ticks) + 1
      ensures effects == old(effects) + [Logged(Container, WithTimestamp(InfoEntry(message, data), env.now(old(ticks))))]
    {
      var entry := new JsObject(InfoEntry(message, data));
      NotHasAt(entry.props, TimestampKey);
      Log(entry);
    }

    /** httpRequestLog(req, res?, next?): reads the clock, sets the `x-request-id`
      header, logs the request entry, then calls `next` once. Both `res` and
      `next` are optional in the signature but used unchecked: without `res` the
      header write throws before anything is logged, and without `next` the call
      throws after the entry was logged. */
    method HttpRequestLog(req: Request, res: Option<Response>, nextGiven: bool) returns (threw: bool)
      modifies this`effects, this`ticks, ResponseObjects(res)
      ensures threw == (res.None? || !nextGiven)
      ensures ticks == old(ticks) + 1
      ensures res.Some? ==> (res.value.headers == Put(old(res.value.headers), Prop("x-request-id"), Or(req.correlationId, Str(""))) &&
        res.value.sent == old(res.value.sent) && res.value.statusCode == old(res.value.statusCode))
      ensures effects == old(effects) +
        (if res.None? then []
         else [Logged(Container, RequestEntry(env.rt, req, env.now(old(ticks))))] + (if nextGiven then [NextCalled] else []))
    {
      var now := ReadClock();
      var requestLog := new JsObject(RequestEntry(env.rt, req, now));
      if res.None? {
        return true;
      }
      res.value.SetHeader("x-request-id", Or(req.correlationId, Str("")));
      RequestEntryStamped(env.rt, req, now, env.now(ticks));
      Log(requestLog);
      if !nextGiven {
        return true;
      }
      effects := effects + [NextCalled];
      threw := false;
    }

    /** httpResponseLog: replaces `write` and `end` of the response by a buffering
      pair, then calls `next`. */
    method HttpResponseLog(req: Request, res: Response) returns (intercepted: ResponseBuffer)
      modifies this`effects
      ensures fresh(intercepted) && intercepted.Valid()
      ensures intercepted.req == req && intercepted.res == res && intercepted.logger == this
      ensures intercepted.chunks == [] && intercepted.mark == |res.sent|
      ensures effects == old(effects) + [NextCalled]
    {
      intercepted := new ResponseBuffer(req, res, this);
      effects := effects + [NextCalled];
    }
  }

  /** The replacement `write` and `end` of httpResponseLog, with the `chunks`
      buffer they share. `mark` is where the response's forwarded calls began. */
  class ResponseBuffer {
    const req: Request
    const res: Response
    const logger: CentralizedLogger
    var chunks: seq<string>
    ghost const mark: nat

    /** The buffer holds exactly the chunks of the calls forwarded since the
      interception began. */
    ghost predicate Valid()
      reads this, res
    {
      mark <= |res.sent| && chunks == ChunksOf(res.sent[mark..])
    }

    constructor (req: Request, res: Response, logger: CentralizedLogger)
      ensures this.req == req && this.res == res && this.logger == logger
      ensures chunks == [] && mark == |res.sent| && Valid()
    {
      this.req := req;
      this.res := res;
      this.logger := logger;
      chunks := [];
      mark := |res.sent|;
      new;
      assert res.sent[mark..] == [];
    }

    /** Forwards a call to the response's own method, keeping the buffer in step;
      the forward is also recorded among the facade's effects. */
    method Forward(call: Sent)
      requires Valid()
      modifies this`chunks, res`sent, logger`effects
      ensures res.sent == old(res.sent) + [call]
      ensures chunks == old(chunks) + ChunkOf(call)
      ensures logger.effects == old(logger.effects) + [Forwarded(call)]
      ensures Valid()
    {
      ChunksOfExtend(res.sent, mark, call);
      chunks := chunks + ChunkOf(call);
      res.sent := res.sent + [call];
      logger.effects := logger.effects + [Forwarded(call)];
    }

    /** The replacement `write`: buffers the first argument and forwards the same
      argument list; `new Buffer` throws first when that is not a string. */
    method Write(args: seq<Json>) returns (threw: bool)
      requires Valid()
      modifies this`chunks, res`sent, logger`effects
      ensures Valid()
      ensures threw == BufferThrows(args)
      ensures threw ==> chunks == old(chunks) && res.sent == old(res.sent) && logger.effects == old(logger.effects)
      ensures !threw ==> (chunks == old(chunks) + [args[0].s] && res.sent == old(res.sent) + [SentWrite(args)] &&
        logger.effects == old(logger.effects) + [Forwarded(SentWrite(args))])
    {
      threw := BufferThrows(args);
      if !threw {
        Forward(SentWrite(args));
      }
    }

    /** The replacement `end`: buffers a truthy first argument, logs the response
      entry with the buffered body, then forwards the same argument list; the
      facade's effects show the log before the forward. */
    method End(args: seq<Json>) returns (threw: bool)
      requires Valid()
      modifies this`chunks, res`sent, logger`effects, logger`ticks
      ensures Valid()
      ensures threw == (|args| > 0 && Truthy(args[0]) && BufferThrows(args))
      ensures threw ==> (chunks == old(chunks) && res.sent == old(res.sent) &&
        logger.effects == old(logger.effects) && logger.ticks == old(logger.ticks))
      ensures !threw ==> (chunks == old(chunks) + ChunkOf(SentEnd(args)) &&
        res.sent == old(res.sent) + [SentEnd(args)] &&
        logger.ticks == old(logger.ticks) + 1 &&
        logger.effects == old(logger.effects) + [Logged(logger.Container,
          ResponseEntry(logger.env.rt, req, res.statusCode, res.headers, Concat(chunks), logger.env.now(old(logger.ticks)))),
          Forwarded(SentEnd(args))])
    {
      threw := |args| > 0 && Truthy(args[0]) && BufferThrows(args);
      if threw {
        return;
      }
      var body := Concat(chunks + ChunkOf(SentEnd(args)));
      var now := logger.ReadClock();
      var responseLog := new JsObject(ResponseEntry(logger.env.rt, req, res.statusCode, res.headers, body, now));
      StampedEntryKept(responseLog.props, logger.env.now(logger.ticks));
      logger.Log(responseLog);
      Forward(SentEnd(args));
    }

    /** The logged body is the text of every call forwarded since the interception
      began, in order, however the calls are split into runs. */
    lemma BodyIsForwardedText(earlier: seq<Sent>, later: seq<Sent>)
      requires Valid() && res.sent[mark..] == earlier + later
      ensures Concat(chunks) == Concat(ChunksOf(earlier)) + Concat(ChunksOf(later))
    {
      BodyOfAppend(earlier, later);
    }
  }
}
