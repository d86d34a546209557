# nestjs-cloudwatch logger core, in Dafny

This project models the core of the `nestjs-cloudwatch` centralized logger.

- **The log-record formatters** of `src/helpers/formats.ts`:
  - `levelFormat` upper-cases the level and folds the remaining fields into a serialised `meta`.
  - `setCslFormat` renders the console line.
  - `maskFormat` is fail-open masking of confidential keys.
  - `isEmpty`, `tryParseJsonString` and `safeToString` are the helpers.
  - `setCwlFormat` is the CloudWatch message formatter.
- **The CloudWatch transport configuration** of `src/cloudWatchLogs.ts`:
  - `DEFAULT_CWL_OPTIONS` and the shallow merge of the caller's options over them.
  - The per-instance log stream name.
  - The options handed to the winston-cloudwatch transport.
- **The `CentralizedLogger` facade** of `src/lib-logger.ts`:
  - The constructor with its three loggers, `addLoggers`, `end`, `log` and `info`.
  - The HTTP middleware pair `httpRequestLog` and `httpResponseLog`, including the response-body buffer.

JavaScript values are the `Json` datatype of `JsValues`. It keeps `undefined` apart from `null`. Objects are ordered property lists, and their keys are string or symbol keys. `for…in` and JSON serialisation skip symbol keys; `Object.assign` copies them. Optional properties are a `Field<T>` (absent, written as `undefined`, or present), so object spread `{...a, ...b}` is `Override`, JS default parameters are `WithDefault`, and `if (flag)` on a boolean option is `IsOn`. JS coercions are spelled out: truthiness, `||`, template-literal string conversion, and `Number()` on integers.

Objects the source mutates are classes:
- the record a format mutates is `JsObject`;
- the logger is `CentralizedLogger`;
- the HTTP response is `Response`;
- the write/end interceptor is `ResponseBuffer`.

Every call the facade makes into winston (`loggers.add`, `Logger.log`, `end`, `close`), every `next()` call and every call the response interceptor forwards to the response's own `write` and `end` is recorded, in order, in the logger's `effects` trace. Library calls are inputs:
- `JSON.stringify`, `JSON.parse`, json-stringify-safe, mask-json and `new Date(x).toISOString()` are function-valued fields of `Formats.Runtime`;
- the clock (`new Date().toISOString()`, one reading per tick) and the md5 hex digest are fields of `LibLogger.Env`.

Modules: `JsText` (string helpers), `JsValues` (JS values and objects), `LogLevels`, `Formats`, `CloudWatchLogs`, `LibLogger`.

Three behaviours of the code worth knowing:
- **Stream names are not randomized.** The code's comment says the stream name is randomized so that instances do not share a stream. It is not: the digest is of the ISO start time alone, so two names built in the same millisecond with the same prefix are equal (`SameMillisecondSameStream`).
- **`end()` returns immediately.** It does not wait for the loggers to flush: each `close` is only registered as the `end` callback.
- **Required names can be `undefined`.** `logGroupName` and `name` are declared required, but a caller can pass `undefined` (an unset environment variable). The spread then keeps `undefined` instead of the default "Main" (`GroupNameDefault`, `UndefinedNameLoggers`).

## Model

| member | source | states |
|---|---|---|
| JsText.ToUpper | src/helpers/formats.ts:12 | `toUpperCase` maps every character to its upper-case form (ASCII letters), keeping the length |
| JsText.DecimalRoundTrip | src/helpers/formats.ts:105 | the decimal text a numeric message prints as in a template literal reads back as that number (for integers below 2^53, where that text is JavaScript's) |
| JsText.SplitFirstOfJoin | src/cloudWatchLogs.ts:35 | `split(c)[0]`, and the text after the first separator, give back both pieces of a join whose first piece lacks the separator |
| JsText.BeforeFirstSpec | src/cloudWatchLogs.ts:35 | `split(c)[0]` is the longest prefix without the separator; it is shorter than the text iff the separator occurs, and the text after the first separator is what follows it |
| JsValues.Put | src/helpers/formats.ts:111-113 | a property write sets that key's value, leaves every other key's presence and value alone |
| JsValues.PutKeys | src/helpers/formats.ts:111-113 | a written property keeps its place in the enumeration order; a new one is enumerated last |
| JsValues.PutPut | src/helpers/formats.ts:18-22 | writing the same property twice leaves only the second value |
| JsValues.Remove | src/helpers/formats.ts:15-17 | `delete` removes the key and leaves every other key's presence and value alone |
| JsValues.RemovePut | src/helpers/formats.ts:15-18 | deleting a key after writing it is the same as deleting it outright |
| JsValues.Or | src/lib-logger.ts:162 | `a \|\| b` is `a` when `a` is truthy and `b` otherwise |
| Formats.SafeToString | src/helpers/formats.ts:90-96 | the standard serialiser's result, or the safe serialiser's when the standard one throws; never throws |
| Formats.SafeFallbackDropsIndent | src/helpers/formats.ts:94 | the fallback ignores the indent: when both calls throw, the indent makes no difference |
| Formats.TryParseJsonString | src/helpers/formats.ts:81-88 | the parse of the argument's string form, or the argument itself when parsing throws |
| Formats.TryParseObjectGivesObject | src/helpers/formats.ts:81-88 | an object argument is parsed as "[object Object]" and comes back unchanged when that text is rejected |
| Formats.IsEmpty | src/helpers/formats.ts:57-79 | the loop over string-keyed own properties returns exactly the isEmpty decision: null/undefined empty, `length > 0` non-empty, `length === 0` empty, non-objects empty, objects empty iff no string-keyed property |
| Formats.IsEmptyCases | src/helpers/formats.ts:57-69 | null, undefined, numbers and booleans are empty; a string or an array is empty iff it has length 0 |
| Formats.ObjectEmptyIff | src/helpers/formats.ts:63-78 | an object is empty iff its `length` is the number 0 or it has no string-keyed property |
| Formats.LevelFormat | src/helpers/formats.ts:11-28 | the record after levelFormat is the normalised record of the old one, computed in place through a copy with three deletes |
| Formats.LevelFormatFields | src/helpers/formats.ts:11-28 | `level` becomes its upper-cased text; `meta` becomes the normalised residual; every other property keeps its value; `meta` is appended last when new |
| Formats.MetaNullIff | src/helpers/formats.ts:14-20 | `meta` is null exactly when the residual (record minus level, message, timestamp) has `length` 0 or no string-keyed property |
| Formats.MetaWhenNotEmpty | src/helpers/formats.ts:21-25 | a non-empty residual gives its serialised text, "" when that text is "{}", and `undefined` when the serialiser gives nothing |
| Formats.LengthZeroDropsFields | src/helpers/formats.ts:19-20 | a record carrying `length: 0` gets a null `meta`, whatever its other fields |
| Formats.CslRenderCases | src/helpers/formats.ts:30-41 | the console line is a truthy string `meta` verbatim, an object or array `meta` serialised, and "" for falsy `meta`, numbers and booleans |
| Formats.ConsoleShowsNormalizedMeta | src/helpers/formats.ts:30-41 | after levelFormat the console prints the serialised residual, or "" when the residual was empty, serialised to "{}", or to nothing |
| Formats.SettingsFor | src/helpers/formats.ts:49 | mask-json is configured with the caller's keys, case-insensitive matching, replacement "********" |
| Formats.MaskFormat | src/helpers/formats.ts:43-55 | the record unchanged when masking is off, the masked record when masking succeeds, the original record when masking throws |
| Formats.MaskFormatIdempotent | src/helpers/formats.ts:43-55 | a second pass returns the first pass unchanged whenever masking its own output changes nothing or throws; this restates the assumed idempotence of mask-json through maskFormat's fail-open branches rather than proving anything about mask-json |
| Formats.SetCwlFormat | src/helpers/formats.ts:98-126 | the result and the record afterwards are those of the setCwlFormat specification: only error/debug records with an object `meta` are written to |
| Formats.CwlThrowsIff | src/helpers/formats.ts:103-113 | setCwlFormat throws iff the level is not a string, the date is invalid, or an error/debug record has a truthy non-object `meta` |
| Formats.CwlTimestampIsRawDate | src/helpers/formats.ts:99-100 | the outer `timestamp` is the raw `date`, not its ISO form |
| Formats.CwlOtherLevels | src/helpers/formats.ts:120-122 | other levels give `ISO\|[LEVEL]\|message`, plus `\|` and the serialised `meta` when `meta` is truthy; `meta` is untouched |
| Formats.CwlErrorDebugWithoutMeta | src/helpers/formats.ts:116-118 | error/debug with falsy `meta` give the default message, `\|`, and the serialised falsy `meta` |
| Formats.CwlErrorDebugWithMeta | src/helpers/formats.ts:108-115 | error/debug with an object `meta`: the message is that object serialised with indent 2, after the timestamp, level and message writes |
| Formats.InjectMetaFields | src/helpers/formats.ts:111-113 | `meta.timestamp` keeps a truthy value else gets the ISO time; `meta.level` is the upper-cased level; `meta.message` keeps a truthy value else gets the record's message; nothing else changes |
| Formats.InjectMetaFresh | src/helpers/formats.ts:111-113 | on a `meta` without `timestamp`, `level` and `message`, the writes append exactly those three properties in that order |
| Formats.DefaultMessageSplits | src/helpers/formats.ts:105 | when neither the ISO time nor the level contains `\|`, the default message splits back at its first two `\|` into the time, `[LEVEL]` and the message text |
| Formats.LevelMessageSplits | src/helpers/formats.ts:103-105 | for each log level, the default message splits back at its first two `\|` into the ISO time, `[LEVEL]` and the message text, because no upper-cased level name contains `\|` |
| Formats.InfoHelloMessage | src/helpers/formats.ts:120-122 | an info record "hello" without meta becomes `ISO\|[INFO]\|hello` |
| Formats.ErrorMetaMessage | src/helpers/formats.ts:108-115 | an error record "boom" with `meta = {a: 1}` returns the raw date and the indent-2 serialisation of `{a: 1, timestamp: ISO, level: "ERROR", message: "boom"}`, which is also the new `meta` |
| Formats.OutcomeMetaIsRecordMeta | src/helpers/formats.ts:107-123 | the `meta` a successful setCwlFormat reports is the `meta` property the record carries afterwards |
| CloudWatchLogs.MergeDefaults | src/cloudWatchLogs.ts:11-26 | each option the caller leaves out takes the default (group "Main", create group/stream true, 2000 ms, 1 retry, batch 20, the setCwlFormat formatter); each one the caller writes is the caller's, even `undefined` |
| CloudWatchLogs.AwsConfigReplacedWhole | src/cloudWatchLogs.ts:42 | a caller's `awsConfig` replaces the default one whole; the default region and timeout survive only without one |
| CloudWatchLogs.DatePartOfIso | src/cloudWatchLogs.ts:35 | the date part of an ISO timestamp is its first ten characters |
| CloudWatchLogs.StreamNameDecodes | src/cloudWatchLogs.ts:28-39 | the stream name is the prefix (default ""), the ten-character date of the second clock reading, "-", and the 32-character digest of the first reading, recoverable from its end |
| CloudWatchLogs.SameMillisecondSameStream | src/cloudWatchLogs.ts:32-38 | equal prefixes, start times and dates give equal stream names |
| CloudWatchLogs.TransportForwardsMerged | src/cloudWatchLogs.ts:41-54 | the transport gets the given name, level debug, JSON messages, and the merged group, stream name, AWS options, formatter and upload interval |
| CloudWatchLogs.UnforwardedOptions | src/cloudWatchLogs.ts:44-53 | `createLogGroup`, `createLogStream`, `submissionRetryCount` and `batchSize` never reach the transport |
| CloudWatchLogs.GroupNameDefault | src/cloudWatchLogs.ts:11-47 | the transport's group is "Main" exactly when the caller's object has no `logGroupName`; a `logGroupName: undefined` reaches the transport as `undefined`; a given name reaches it unchanged |
| CloudWatchLogs.MinimalConfigTransport | src/cloudWatchLogs.ts:11-54 | a group name alone gives a 2000 ms upload rate, the setCwlFormat formatter, region ap-southeast-1 with a 1000 ms timeout, and an unprefixed stream name |
| LibLogger.MergeConfigsDefaults | src/lib-logger.ts:14-21 | each facade option the caller leaves out takes the default (name "Main", masking on, exitOnError off, console on, CloudWatch and Logz.io off); each one the caller writes is the caller's, even `undefined` |
| LibLogger.CloudWatchLoggerIgnoresEnableCwl | src/lib-logger.ts:53-59 | the dedicated CloudWatch logger is built exactly when a `cwl` configuration is given, whatever `enableCwl` says |
| LibLogger.ContainerTransportsSpec | src/lib-logger.ts:111-120 | the container gets the console transport iff `enableConsole`, a CloudWatch transport iff `enableCwl` and `cwl`, console first, the CloudWatch one named after the logger |
| LibLogger.TwoCwlTransportsOneGroup | src/lib-logger.ts:53-71 | with `enableCwl` and `cwl`, two CloudWatch transports are set up for the same group, named "cwl-" + name (dedicated logger) and name (container) |
| LibLogger.UndefinedNameLoggers | src/lib-logger.ts:53-71 | a `name: undefined` registers the container under the id `undefined` and names the dedicated CloudWatch transport "cwl-undefined" |
| LibLogger.CentralizedLogger.constructor | src/lib-logger.ts:37-72 | registers the console logger, then the CloudWatch logger when `cwl` is given, then the container, with the options each helper builds |
| LibLogger.CentralizedLogger.AddCustomLogger | src/lib-logger.ts:74-92 | registers one logger under the given name with the one transport, level debug, the configured exitOnError and the mask stage |
| LibLogger.CentralizedLogger.AddConsoleLogger | src/lib-logger.ts:94-105 | registers "main-console" at level debug with exitOnError defaulting to false and no format stage |
| LibLogger.CentralizedLogger.AddLoggers | src/lib-logger.ts:107-136 | registers the selected transports under the configs' name with level debug, the configured exitOnError and maskFormat; the CloudWatch transport costs two clock readings |
| LibLogger.CentralizedLogger.End | src/lib-logger.ts:138-155 | ends then closes the container, then the CloudWatch logger and the Logz.io logger when present, in that order |
| LibLogger.CentralizedLogger.Log | src/lib-logger.ts:223-229 | a missing or falsy timestamp is set to the clock reading in place; the entry is handed to the container |
| LibLogger.WithTimestampSpec | src/lib-logger.ts:223-229 | after `log` the timestamp is truthy: a truthy one is kept with the whole entry, a falsy one becomes the clock reading, other properties are unchanged |
| LibLogger.StampedEntryKept | src/lib-logger.ts:224-226 | an entry that starts with a non-empty timestamp is forwarded as it is |
| LibLogger.CentralizedLogger.Info | src/lib-logger.ts:231-237 | logs level info, the message and `data`, stamped with one clock reading |
| LibLogger.InfoEntryLogged | src/lib-logger.ts:231-237 | the forwarded entry is exactly level, message, data (even `undefined`), then the timestamp |
| LibLogger.CentralizedLogger.HttpRequestLog | src/lib-logger.ts:157-178 | reads the clock, sets `x-request-id` to the correlation id or "", logs the request entry, then calls `next` exactly once; without `res` it throws before logging, without `next` it throws after logging |
| LibLogger.RequestEntryFields | src/lib-logger.ts:158-173 | the request entry is debug, keeps its clock timestamp, takes the client IP from a truthy `x-forwarded-for` else the connection, and defaults the referer to "" |
| LibLogger.RequestBodyNeverParsed | src/lib-logger.ts:170 | the spread request body is never parsed: it is logged as the spread copy, a string body as one property per character |
| LibLogger.CentralizedLogger.HttpResponseLog | src/lib-logger.ts:180-221 | installs an empty buffer over the response and calls `next` once |
| LibLogger.ResponseEntryFields | src/lib-logger.ts:193-214 | the response entry is debug, carries the status code, keeps its clock timestamp, and takes the client IP and referer as the request entry does |
| LibLogger.ResponseBuffer.Write | src/lib-logger.ts:184-187 | buffers the first argument and forwards the same arguments (recorded in the facade's effects), or throws first when `new Buffer` rejects the argument |
| LibLogger.ResponseBuffer.End | src/lib-logger.ts:188-218 | buffers a truthy first argument, logs the response entry with all buffered text as body, then forwards the same arguments: the facade's effects show the log before the forward |
| LibLogger.ResponseBuffer.BodyIsForwardedText | src/lib-logger.ts:183-192 | the buffered body is the text of every forwarded call in order, however the calls split into runs |
| LibLogger.ConcatAppend | src/lib-logger.ts:192 | `Buffer.concat` of two chunk lists is the concatenation of their texts |

## Left out

- **The winston runtime.**
  - `loggers.add` returning an existing logger of the same name is not modelled, and neither is the logger registry.
  - Level filtering is not modelled, and neither are `format.combine`, `timestamp`, `splat`, `colorize` and `printf` themselves.
  - The transports' own behaviour and the CloudWatch upload, batching and retries are not modelled: the facade's calls into them are recorded in `effects`.
- **The `levels` option.** The `levels` table passed to winston is not modelled, because `src/helpers/logLevels.ts` is not part of this model. The log levels are taken to be the strings "error", "warn", "info" and "debug".
- **`MetadataService`.** The facade's `MetadataService` field is never used by the modelled operations.
- **Logz.io.** Nothing ever assigns the Logz.io logger, so `end` never sees one.
- **`end` callbacks.** They run synchronously in the model. The flush is asynchronous in winston, and the model does not capture the interleaving.
- **`ConsoleLogs`.** Its transport (`src/consoleLogs.ts`) is represented by its two arguments. The formatter chain it builds is modelled through the `Formats` members it uses.
- **Library calls.** JSON serialisation and parsing, json-stringify-safe, mask-json and date parsing are inputs (`Runtime`): only how the core combines their results is modelled. MaskFormatIdempotent assumes that masking a masked record changes nothing, which is mask-json's behaviour, not this code's.
- **The clock and md5.** They are inputs (`Env`): the clock is a sequence of ISO readings, and md5 is any function to 32 hex characters.
- **Numbers** are integers only: floating point, NaN, Infinity and negative zero are not modelled. They are also unbounded: JavaScript's 53-bit precision (`${2**64}` prints "18446744073709552000") and its exponent form from 1e21 on (`${1e21}` prints "1e+21") are not modelled, so a template literal of such a number prints its plain decimal digits in the model. `Number()` of a string reads decimal digits only (no whitespace, sign, fraction, exponent or hex).
- JsValues.PutKeys: property order is plain insertion order. JavaScript lists array-index keys first, in ascending order, and symbol keys after string keys; neither is modelled. The logger only writes non-index string keys (`level`, `meta`, `timestamp`, `message`, `x-request-id`), for which insertion order is JavaScript's order.
- **Strings** are sequences of characters: `toUpperCase` is modelled on ASCII letters only, and UTF-8 decoding of the response buffer is not modelled.
- **Array `meta`.** An array's named properties are not modelled, and nested objects are values, so aliasing between a record and its `meta` is not captured.
- **Formats.LevelFormat** requires a string `level`: a non-string level would make `toUpperCase` throw, and winston always supplies a string.
- **LibLogger.ResponseBuffer.Write** treats every non-string first argument as making `new Buffer` throw; the Buffer, array and number argument forms of `new Buffer` are not modelled. **LibLogger.ResponseBuffer.End** does the same for a truthy first argument.
- **`res.end` callbacks.** Callbacks passed to `res.end` and the response's own `write` and `end` behaviour are not modelled beyond recording the forwarded calls.
- **The middleware.** The middleware and correlation-id helpers of `src/middlewares/logger.middleware.ts` are not part of this model.
