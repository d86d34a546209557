/** The CloudWatch transport configuration of src/cloudWatchLogs.ts: fixed
    defaults, a shallow merge of the caller's options over them, the per-instance
    stream name, and the options handed to the winston-cloudwatch transport. The
    clock readings and the md5 digest are inputs. */
module CloudWatchLogs {
  import opened JsText
  import opened JsValues
  import opened LogLevels

  /** IHttpOptions */
  datatype HttpOptions = HttpOptions(timeout: Field<int>)

  /** IAWSConfig */
  datatype AwsConfig = AwsConfig(
    accessKeyId: Field<string>,
    secretAccessKey: Field<string>,
    region: Field<string>,
    httpOptions: Field<HttpOptions>)

  /** What `formatLog` holds: the default wraps setCwlFormat; a caller may pass any
      other function, told apart here by a number. */
  datatype Formatter = CwlFormatter | CustomFormatter(id: nat)

  /** ICloudWatchConfig. `logGroupName` is declared required, but what a caller
      passes can still be `undefined` at run time (an unset environment variable),
      so it is a Field like the rest. */
  datatype CloudWatchConfig = CloudWatchConfig(
    logGroupName: Field<string>,
    logStreamPrefix: Field<string>,
    createLogGroup: Field<bool>,
    createLogStream: Field<bool>,
    awsConfig: Field<AwsConfig>,
    submissionInterval: Field<int>,
    submissionRetryCount: Field<int>,
    batchSize: Field<int>,
    formatLog: Field<Formatter>)

  const DefaultRegion := "ap-southeast-1"

  /** DEFAULT_CWL_OPTIONS */
  const DefaultCwlOptions := CloudWatchConfig(
    Present("Main"),
    Absent,
    Present(true),
    Present(true),
    Present(AwsConfig(Absent, Absent, Present(DefaultRegion), Present(HttpOptions(Present(1000))))),
    Present(2000),
    Present(1),
    Present(20),
    Present(CwlFormatter))

  /** `{...defaults, ...caller}`: every property the caller wrote replaces the
      default as a whole, nested objects included. */
  function Merge(defaults: CloudWatchConfig, caller: CloudWatchConfig): CloudWatchConfig {
    CloudWatchConfig(
      Override(defaults.logGroupName, caller.logGroupName),
      Override(defaults.logStreamPrefix, caller.logStreamPrefix),
      Override(defaults.createLogGroup, caller.createLogGroup),
      Override(defaults.createLogStream, caller.createLogStream),
      Override(defaults.awsConfig, caller.awsConfig),
      Override(defaults.submissionInterval, caller.submissionInterval),
      Override(defaults.submissionRetryCount, caller.submissionRetryCount),
      Override(defaults.batchSize, caller.batchSize),
      Override(defaults.formatLog, caller.formatLog))
  }

  /** The merge over DEFAULT_CWL_OPTIONS: a property the caller left out takes its
      default; one the caller wrote, even as `undefined`, is the caller's. So a
      group name given as `undefined` stays `undefined` and is not "Main". */
  lemma MergeDefaults(caller: CloudWatchConfig)
    ensures var c := Merge(DefaultCwlOptions, caller);
      c.logGroupName == (if caller.logGroupName.Absent? then Present("Main") else caller.logGroupName) &&
      c.logStreamPrefix == caller.logStreamPrefix &&
      c.createLogGroup == (if caller.createLogGroup.Absent? then Present(true) else caller.createLogGroup) &&
      c.createLogStream == (if caller.createLogStream.Absent? then Present(true) else caller.createLogStream) &&
      c.submissionInterval == (if caller.submissionInterval.Absent? then Present(2000) else caller.submissionInterval) &&
      c.submissionRetryCount == (if caller.submissionRetryCount.Absent? then Present(1) else caller.submissionRetryCount) &&
      c.batchSize == (if caller.batchSize.Absent? then Present(20) else caller.batchSize) &&
      c.formatLog == (if caller.formatLog.Absent? then Present(CwlFormatter) else caller.formatLog)
  {
  }

  /** A caller's `awsConfig` replaces the default one entirely: the default region
      and timeout survive only when the caller gives no `awsConfig` at all. */
  lemma AwsConfigReplacedWhole(caller: CloudWatchConfig)
    ensures var c := Merge(DefaultCwlOptions, caller);
      (caller.awsConfig.Absent? ==>
        c.awsConfig.Present? && c.awsConfig.value.region == Present(DefaultRegion) &&
        c.awsConfig.value.httpOptions == Present(HttpOptions(Present(1000)))) &&
      (!caller.awsConfig.Absent? ==> c.awsConfig == caller.awsConfig)
  {
  }

  // ----- the stream name -----

  /** The shape Date.prototype.toISOString produces for years 0 to 9999:
      YYYY-MM-DDTHH:mm:ss.sssZ */
  predicate IsIsoTimestamp(s: string) {
    |s| == 24 &&
    s[4] == '-' && s[7] == '-' && s[10] == 'T' && s[13] == ':' && s[16] == ':' && s[19] == '.' && s[23] == 'Z' &&
    forall i :: 0 <= i < 24 && i != 4 && i != 7 && i != 10 && i != 13 && i != 16 && i != 19 && i != 23 ==> DigitAt(s, i)
  }

  /** The character at `i` is a decimal digit. */
  predicate DigitAt(s: string, i: int) {
    0 <= i < |s| && IsDigit(s[i])
  }

  /** The character at `i` is a lower-case hexadecimal digit. */
  predicate HexAt(s: string, i: int) {
    0 <= i < |s| && (IsDigit(s[i]) || 'a' <= s[i] <= 'f')
  }

  /** A hex md5 digest: 32 lower-case hexadecimal characters. */
  predicate IsHexDigest(h: string) {
    |h| == 32 && forall i :: 0 <= i < |h| ==> HexAt(h, i)
  }

  /** `iso.split('T')[0]` */
  function DatePart(iso: string): string {
    BeforeFirst(iso, 'T')
  }

  /** The date part of an ISO timestamp is its first ten characters, YYYY-MM-DD. */
  lemma DatePartOfIso(iso: string)
    requires IsIsoTimestamp(iso)
    ensures DatePart(iso) == iso[..10]
  {
    var day := iso[..10];
    forall i | 0 <= i < 10 ensures day[i] != 'T' {
      assert i == 4 || i == 7 || DigitAt(iso, i);
    }
    assert iso == day + ['T'] + iso[11..];
    SplitFirstOfJoin(day, 'T', iso[11..]);
  }

  /** setLogStreamName: prefix (default ""), the date of the second clock reading,
      "-", and the hex md5 of the first clock reading. */
  function SetLogStreamName(logStreamPrefix: Field<string>, startTime: string, now: string, md5Hex: string -> string): string {
    WithDefault(logStreamPrefix, "") + DatePart(now) + "-" + md5Hex(startTime)
  }

  /** The stream name reads back from its end: the last 32 characters are the
      digest of the start time, before them a "-", before that the ten-character
      date of the current time, and what remains in front is the prefix. */
  lemma StreamNameDecodes(logStreamPrefix: Field<string>, startTime: string, now: string, md5Hex: string -> string)
    requires IsIsoTimestamp(now) && IsHexDigest(md5Hex(startTime))
    ensures var name := SetLogStreamName(logStreamPrefix, startTime, now, md5Hex);
      |name| >= 43 &&
      name[|name| - 32..] == md5Hex(startTime) &&
      name[|name| - 33] == '-' &&
      name[|name| - 43..|name| - 33] == now[..10] &&
      name[..|name| - 43] == WithDefault(logStreamPrefix, "")
  {
    DatePartOfIso(now);
    var prefix := WithDefault(logStreamPrefix, "");
    var name := SetLogStreamName(logStreamPrefix, startTime, now, md5Hex);
    assert name == prefix + now[..10] + "-" + md5Hex(startTime);
  }

  /** Two names built from the same prefix and the same clock readings are the same
      name: the digest is of the millisecond ISO time and nothing else. */
  lemma SameMillisecondSameStream(prefix: Field<string>, start1: string, start2: string, now1: string, now2: string, md5Hex: string -> string)
    requires IsIsoTimestamp(now1) && IsIsoTimestamp(now2)
    requires start1 == start2 && now1[..10] == now2[..10]
    ensures SetLogStreamName(prefix, start1, now1, md5Hex) == SetLogStreamName(prefix, start2, now2, md5Hex)
  {
    DatePartOfIso(now1);
    DatePartOfIso(now2);
  }

  // ----- the transport -----

  /** The options the winston-cloudwatch transport is constructed with. */
  datatype TransportOptions = TransportOptions(
    name: Field<string>,
    level: LogLevel,
    logGroupName: Field<string>,
    logStreamName: string,
    awsOptions: Field<AwsConfig>,
    jsonMessage: bool,
    messageFormatter: Field<Formatter>,
    uploadRate: Field<int>)

  /** setTransport, with the two clock readings and the digest function of
      setLogStreamName as inputs. */
  function SetTransport(name: Field<string>, cwlConfig: CloudWatchConfig, startTime: string, now: string, md5Hex: string -> string): TransportOptions {
    var config := Merge(DefaultCwlOptions, cwlConfig);
    var logStreamName := SetLogStreamName(config.logStreamPrefix, startTime, now, md5Hex);
    TransportOptions(
      name,
      Debug,
      config.logGroupName,
      logStreamName,
      config.awsConfig,
      true,
      config.formatLog,
      config.submissionInterval)
  }

  /** The transport gets the caller's name, level debug, JSON messages, and the
      merged group name, upload interval, formatter and AWS options. */
  lemma TransportForwardsMerged(name: Field<string>, cwlConfig: CloudWatchConfig, startTime: string, now: string, md5Hex: string -> string)
    ensures var t := SetTransport(name, cwlConfig, startTime, now, md5Hex);
      var c := Merge(DefaultCwlOptions, cwlConfig);
      t.name == name && t.level == Debug && t.jsonMessage &&
      t.logGroupName == c.logGroupName &&
      t.uploadRate == c.submissionInterval &&
      t.messageFormatter == c.formatLog &&
      t.awsOptions == c.awsConfig &&
      t.logStreamName == SetLogStreamName(cwlConfig.logStreamPrefix, startTime, now, md5Hex)
  {
  }

  /** `createLogGroup`, `createLogStream`, `submissionRetryCount` and `batchSize`
      are merged but never reach the transport: configurations that differ only in
      them give the same transport. */
  lemma UnforwardedOptions(name: Field<string>, a: CloudWatchConfig, b: CloudWatchConfig, startTime: string, now: string, md5Hex: string -> string)
    requires a.logGroupName == b.logGroupName && a.logStreamPrefix == b.logStreamPrefix
    requires a.awsConfig == b.awsConfig && a.submissionInterval == b.submissionInterval
    requires a.formatLog == b.formatLog
    ensures SetTransport(name, a, startTime, now, md5Hex) == SetTransport(name, b, startTime, now, md5Hex)
  {
  }

  /** A caller who gives only a group name gets an upload every 2000 ms, the
      setCwlFormat formatter and the default region with a 1000 ms timeout. */
  lemma MinimalConfigTransport(group: string, startTime: string, now: string, md5Hex: string -> string)
    ensures var t := SetTransport(Present("cwl"), CloudWatchConfig(Present(group), Absent, Absent, Absent, Absent, Absent, Absent, Absent, Absent), startTime, now, md5Hex);
      t.uploadRate == Present(2000) && t.messageFormatter == Present(CwlFormatter) &&
      t.awsOptions == Present(AwsConfig(Absent, Absent, Present("ap-southeast-1"), Present(HttpOptions(Present(1000))))) &&
      t.logGroupName == Present(group) && t.logStreamName == DatePart(now) + "-" + md5Hex(startTime)
  {
  }

  /** The group name the transport gets: "Main" only when the caller's object has
      no `logGroupName` at all; a caller passing an unset environment variable
      (`logGroupName: undefined`) hands the transport `undefined`. */
  lemma GroupNameDefault(name: Field<string>, cwlConfig: CloudWatchConfig, startTime: string, now: string, md5Hex: string -> string)
    ensures var t := SetTransport(name, cwlConfig, startTime, now, md5Hex);
      (cwlConfig.logGroupName.Absent? <==> t.logGroupName == Present("Main") && !cwlConfig.logGroupName.Present?) &&
      (cwlConfig.logGroupName == Undef ==> t.logGroupName == Undef) &&
      (cwlConfig.logGroupName.Present? ==> t.logGroupName == cwlConfig.logGroupName)
  {
  }
}
