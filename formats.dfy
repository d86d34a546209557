/** The record formatters of src/helpers/formats.ts: level/meta normalisation for
    the console, the console rendering of `meta`, confidential-field masking, the
    emptiness test, never-throwing parse and serialise helpers, and the
    `{timestamp, message}` shape sent to CloudWatch. */
module Formats {
  import opened JsText
  import opened JsValues
  import opened LogLevels

  /** What mask-json is configured with. */
  datatype MaskSettings = MaskSettings(keys: Field<seq<string>>, ignoreCase: bool, replacement: string)

  /** The library calls the formatters make. Each may behave in any way its type
      allows; the model relies only on whether a call can throw.
      - stringify(v, space): JSON.stringify(v, null, space), 0 meaning no indent;
        it may throw and may return `undefined` (None).
      - stringifySafe(v): json-stringify-safe with no indent; it does not throw.
      - parse(s): JSON.parse(s); it may throw.
      - maskJson(settings, v): building a mask-json masker and applying it; may throw.
      - toIsoString(v): new Date(v).toISOString(); throws on an invalid date. */
  datatype Runtime = Runtime(
    stringify: (Json, nat) -> Thrown<Option<string>>,
    stringifySafe: Json -> Option<string>,
    parse: string -> Thrown<Json>,
    maskJson: (MaskSettings, Json) -> Thrown<Json>,
    toIsoString: Json -> Thrown<string>)

  const LevelKey := Prop("level")
  const MessageKey := Prop("message")
  const TimestampKey := Prop("timestamp")
  const MetaKey := Prop("meta")
  const DateKey := Prop("date")

  const Redaction := "********"

  // ----- safeToString / tryParseJsonString -----

  /** safeToString: the standard serialiser, or the safe one when it throws.
      Never throws. */
  function SafeToString(rt: Runtime, json: Json, space: nat): (r: Option<string>)
    ensures rt.stringify(json, space).Returned? ==> r == rt.stringify(json, space).value
    ensures rt.stringify(json, space).Threw? ==> r == rt.stringifySafe(json)
  {
    match rt.stringify(json, space)
    case Returned(s) => s
    case Threw => rt.stringifySafe(json)
  }

  /** The fallback serialiser is called without the indent: once both calls throw,
      the requested indent makes no difference. */
  lemma SafeFallbackDropsIndent(rt: Runtime, json: Json, space: nat)
    requires rt.stringify(json, space).Threw? && rt.stringify(json, 0).Threw?
    ensures SafeToString(rt, json, space) == SafeToString(rt, json, 0)
  {
  }

  /** tryParseJsonString: JSON.parse of the argument's string form, or the argument
      itself when parsing throws. Never throws. */
  function TryParseJsonString(rt: Runtime, str: Json): (r: Json)
    ensures rt.parse(ToJsString(str)).Returned? ==> r == rt.parse(ToJsString(str)).value
    ensures rt.parse(ToJsString(str)).Threw? ==> r == str
  {
    match rt.parse(ToJsString(str))
    case Returned(v) => v
    case Threw => str
  }

  /** An object argument is parsed from its string form "[object Object]"; when the
      parser rejects that text the object comes back unchanged. */
  lemma TryParseObjectGivesObject(rt: Runtime, p: Props)
    requires rt.parse("[object Object]").Threw?
    ensures TryParseJsonString(rt, Obj(p)) == Obj(p)
  {
  }

  // ----- isEmpty -----

  /** isEmpty, case by case as the source tests them. */
  predicate IsEmptyValue(obj: Json) {
    if obj.Null? || obj.Undefined? then true
    else if GreaterThanZero(LengthOf(obj)) then false
    else if LengthOf(obj) == Num(0) then true
    else match obj
      case Obj(p) => !HasStringKey(p)
      case _ => true
  }

  /** isEmpty: the `for…in` loop visits the string-keyed properties (symbol keys are
      skipped); every property of a plain record is its own, so the first one found
      makes the value non-empty. */
  method IsEmpty(obj: Json) returns (r: bool)
    ensures r == IsEmptyValue(obj)
  {
    if obj.Null? || obj.Undefined? {
      return true;
    }
    var len := LengthOf(obj);
    if GreaterThanZero(len) {
      return false;
    }
    if len == Num(0) {
      return true;
    }
    if !obj.Obj? {
      return true;
    }
    var p := obj.props;
    var i := 0;
    while i < |p|
      invariant 0 <= i <= |p|
      invariant forall j :: 0 <= j < i ==> !p[j].0.Prop?
    {
      if p[i].0.Prop? {
        return false;
      }
      i := i + 1;
    }
    return true;
  }

  /** The cases of isEmpty that do not depend on properties. */
  lemma IsEmptyCases(obj: Json)
    ensures obj.Null? || obj.Undefined? ==> IsEmptyValue(obj)
    ensures obj.Str? ==> (IsEmptyValue(obj) <==> obj.s == "")
    ensures obj.Arr? ==> (IsEmptyValue(obj) <==> obj.items == [])
    ensures obj.Bool? || obj.Num? ==> IsEmptyValue(obj)
  {
  }

  /** An object is empty exactly when its `length` property is the number 0 or it
      has no string-keyed property at all. */
  lemma ObjectEmptyIff(p: Props)
    ensures IsEmptyValue(Obj(p)) <==> (Lookup(p, Prop("length")) == Num(0) || !HasStringKey(p))
  {
    var len := Lookup(p, Prop("length"));
    if GreaterThanZero(len) {
      assert Has(p, Prop("length"));
      var i := HasWitness(p, Prop("length"));
      assert p[i].0.Prop?;
    }
  }

  // ----- levelFormat -----

  /** The copy of a record that levelFormat serialises: everything but
      `level`, `message` and `timestamp`. */
  function Residual(p: Props): (r: Props)
    ensures !Has(r, LevelKey) && !Has(r, MessageKey) && !Has(r, TimestampKey)
    ensures forall k :: k != LevelKey && k != MessageKey && k != TimestampKey ==>
      Has(r, k) == Has(p, k) && Lookup(r, k) == Lookup(p, k)
  {
    Remove(Remove(Remove(p, LevelKey), MessageKey), TimestampKey)
  }

  /** The `meta` value levelFormat stores for a residual copy. */
  function NormalizedMeta(rt: Runtime, residual: Props): Json {
    if IsEmptyValue(Obj(residual)) then Null
    else
      var s := SafeToString(rt, Obj(residual), 0);
      if s == Some("{}") then Str("") else JsOf(s)
  }

  /** The record after levelFormat. */
  function Normalized(rt: Runtime, p: Props): Props
    requires Lookup(p, LevelKey).Str?
  {
    var leveled := Put(p, LevelKey, Str(ToUpper(Lookup(p, LevelKey).s)));
    Put(leveled, MetaKey, NormalizedMeta(rt, Residual(p)))
  }

  /** levelFormat: upper-cases `level` in place and folds every other field except
      `message` and `timestamp` into a serialised `meta`. */
  method LevelFormat(rt: Runtime, info: JsObject)
    requires info.Get(LevelKey).Str?
    modifies info
    ensures info.props == Normalized(rt, old(info.props))
  {
    ghost var p := info.props;
    info.Set(LevelKey, Str(ToUpper(info.Get(LevelKey).s)));
    ghost var leveled := info.props;

    var meta := new JsObject(info.props);
    meta.Delete(LevelKey);
    meta.Delete(MessageKey);
    meta.Delete(TimestampKey);
    RemovePut(p, LevelKey, Str(ToUpper(Lookup(p, LevelKey).s)));
    assert meta.props == Residual(p);

    info.Set(MetaKey, JsOf(SafeToString(rt, Obj(meta.props), 0)));
    var empty := IsEmpty(Obj(meta.props));
    if empty {
      info.Set(MetaKey, Null);
      PutPut(leveled, MetaKey, JsOf(SafeToString(rt, Obj(meta.props), 0)), Null);
    } else {
      info.Set(MetaKey, JsOf(SafeToString(rt, Obj(meta.props), 0)));
      PutPut(leveled, MetaKey, JsOf(SafeToString(rt, Obj(meta.props), 0)), JsOf(SafeToString(rt, Obj(meta.props), 0)));
      if info.Get(MetaKey) == Str("{}") {
        info.Set(MetaKey, Str(""));
        PutPut(leveled, MetaKey, Str("{}"), Str(""));
      }
    }
  }

  /** levelFormat replaces `level` by its upper-cased form, sets `meta`, keeps every
      other property with its value, and adds `meta` last when it was not there. */
  lemma LevelFormatFields(rt: Runtime, p: Props)
    requires Lookup(p, LevelKey).Str?
    ensures Lookup(Normalized(rt, p), LevelKey) == Str(ToUpper(Lookup(p, LevelKey).s))
    ensures Lookup(Normalized(rt, p), MetaKey) == NormalizedMeta(rt, Residual(p))
    ensures forall k :: k != LevelKey && k != MetaKey ==>
      Has(Normalized(rt, p), k) == Has(p, k) && Lookup(Normalized(rt, p), k) == Lookup(p, k)
    ensures KeysOf(Normalized(rt, p)) == if Has(p, MetaKey) then KeysOf(p) else KeysOf(p) + [MetaKey]
  {
    var leveled := Put(p, LevelKey, Str(ToUpper(Lookup(p, LevelKey).s)));
    PutKeys(p, LevelKey, Str(ToUpper(Lookup(p, LevelKey).s)));
    PutKeys(leveled, MetaKey, NormalizedMeta(rt, Residual(p)));
    assert KeysOf(leveled) == KeysOf(p) by {
      assert KeysOf(p) + [] == KeysOf(p);
    }
    assert Has(leveled, MetaKey) == Has(p, MetaKey);
  }

  /** `meta` is null exactly when the residual copy counts as empty: it has no
      string-keyed property, or its `length` property is the number 0. */
  lemma MetaNullIff(rt: Runtime, p: Props)
    ensures NormalizedMeta(rt, Residual(p)) == Null <==>
      (Lookup(p, Prop("length")) == Num(0) || !HasStringKey(Residual(p)))
  {
    var r := Residual(p);
    ResidualKeepsLength(p);
    assert NormalizedMeta(rt, r) == Null <==> IsEmptyValue(Obj(r)) by {
      var s := SafeToString(rt, Obj(r), 0);
      assert JsOf(s) != Null;
    }
    ObjectEmptyIff(r);
  }

  lemma ResidualKeepsLength(p: Props)
    ensures Lookup(Residual(p), Prop("length")) == Lookup(p, Prop("length"))
  {
    var len := Prop("length");
    assert len != LevelKey && len != MessageKey && len != TimestampKey by {
      assert |len.name| == 6 && |LevelKey.name| == 5 && |MessageKey.name| == 7 && |TimestampKey.name| == 9;
    }
  }

  /** When `meta` is not null it is the serialised residual, or "" when that
      serialises to "{}", or `undefined` when the serialiser gives none. */
  lemma MetaWhenNotEmpty(rt: Runtime, p: Props)
    requires !IsEmptyValue(Obj(Residual(p)))
    ensures var s := SafeToString(rt, Obj(Residual(p)), 0);
      NormalizedMeta(rt, Residual(p)) == (if s == Some("{}") then Str("") else JsOf(s))
    ensures NormalizedMeta(rt, Residual(p)).Str? || NormalizedMeta(rt, Residual(p)).Undefined?
  {
  }

  /** A record carrying `length: 0` loses all its other fields: `meta` is null. */
  lemma LengthZeroDropsFields(rt: Runtime, level: string, extra: Props)
    ensures var p := [(LevelKey, Str(level)), (Prop("length"), Num(0))] + extra;
      NormalizedMeta(rt, Residual(p)) == Null
  {
    var p := [(LevelKey, Str(level)), (Prop("length"), Num(0))] + extra;
    assert Lookup(p, Prop("length")) == Num(0);
    MetaNullIff(rt, p);
  }

  // ----- setCslFormat -----

  /** setCslFormat: the console line for a record's `meta`; a string or `undefined`,
      as the printf callback returns. */
  function CslRender(rt: Runtime, meta: Json): Option<string> {
    if Truthy(meta) then
      match meta
      case Obj(_) => SafeToString(rt, meta, 0)
      case Arr(_) => SafeToString(rt, meta, 0)
      case Str(s) => Some(s)
      case _ => Some("")
    else Some("")
  }

  /** The console line: a non-empty string `meta` verbatim, an object serialised,
      and "" for every falsy `meta` and for truthy numbers and booleans. */
  lemma CslRenderCases(rt: Runtime, meta: Json)
    ensures meta.Str? && meta.s != "" ==> CslRender(rt, meta) == Some(meta.s)
    ensures meta.Obj? || meta.Arr? ==> CslRender(rt, meta) == SafeToString(rt, meta, 0)
    ensures !Truthy(meta) ==> CslRender(rt, meta) == Some("")
    ensures meta.Num? || meta.Bool? ==> CslRender(rt, meta) == Some("")
  {
  }

  /** After levelFormat the console prints the serialised residual, or "" when the
      residual was empty, serialised to "{}", or serialised to nothing. */
  lemma ConsoleShowsNormalizedMeta(rt: Runtime, p: Props)
    requires Lookup(p, LevelKey).Str?
    ensures var s := SafeToString(rt, Obj(Residual(p)), 0);
      CslRender(rt, Lookup(Normalized(rt, p), MetaKey)) ==
        Some(if IsEmptyValue(Obj(Residual(p))) || s == Some("{}") || s.None? then "" else s.value)
  {
    LevelFormatFields(rt, p);
  }

  // ----- maskFormat -----

  /** The options maskFormat receives. */
  datatype MaskOptions = MaskOptions(maskConfidential: Field<bool>, maskKeys: Field<seq<string>>)

  /** How maskFormat configures mask-json: case-insensitive keys, "********" as the replacement. */
  function SettingsFor(opts: MaskOptions): (s: MaskSettings)
    ensures s.keys == opts.maskKeys && s.ignoreCase && s.replacement == "********"
  {
    MaskSettings(opts.maskKeys, true, Redaction)
  }

  /** maskFormat: identity when masking is off; otherwise the masked record, or the
      original record when masking throws (fail open). */
  function MaskFormat(rt: Runtime, info: Json, opts: MaskOptions): (r: Json)
    ensures !IsOn(opts.maskConfidential) ==> r == info
    ensures IsOn(opts.maskConfidential) && rt.maskJson(SettingsFor(opts), info).Returned? ==>
      r == rt.maskJson(SettingsFor(opts), info).value
    ensures IsOn(opts.maskConfidential) && rt.maskJson(SettingsFor(opts), info).Threw? ==> r == info
  {
    if !IsOn(opts.maskConfidential) then info
    else
      match rt.maskJson(SettingsFor(opts), info)
      case Returned(masked) => masked
      case Threw => info
  }

  /** maskFormat is idempotent whenever masking its own output changes nothing
      (or throws): a second pass returns the first pass unchanged. */
  lemma MaskFormatIdempotent(rt: Runtime, info: Json, opts: MaskOptions)
    requires var once := MaskFormat(rt, info, opts);
      rt.maskJson(SettingsFor(opts), once) in {Threw, Returned(once)}
    ensures MaskFormat(rt, MaskFormat(rt, info, opts), opts) == MaskFormat(rt, info, opts)
  {
  }

  // ----- setCwlFormat -----

  /** ICloudWatchLogsFormat */
  datatype CwlLog = CwlLog(timestamp: Json, message: string)

  /** What setCwlFormat returns, with the `meta` value it leaves on the record. */
  datatype CwlOutcome = CwlOutcome(log: CwlLog, meta: Json)

  /** `${timestamp}|[${level}]|${message}` */
  function DefaultMessage(iso: string, level: string, message: Json): string {
    iso + "|[" + level + "]|" + ToJsString(message)
  }

  /** The three writes into an object `meta`: `timestamp` unless already truthy,
      `level` always, `message` unless already truthy, in that order. */
  function InjectMeta(meta: Props, iso: string, level: string, message: Json): Props {
    var withTime := Put(meta, TimestampKey, Or(Lookup(meta, TimestampKey), Str(iso)));
    var withLevel := Put(withTime, LevelKey, Str(level));
    Put(withLevel, MessageKey, Or(Lookup(withLevel, MessageKey), message))
  }

  predicate IsErrorOrDebug(level: Json) {
    level == Str(Error.Name()) || level == Str(Debug.Name())
  }

  /** setCwlFormat on a record with these `date`, `level`, `message` and `meta`.
      It throws when `level` is not a string, when `date` is not a valid date, and
      when an error or debug record carries a truthy `meta` that is not an object
      (a property write on a primitive throws in strict mode). */
  function CwlFormat(rt: Runtime, date: Json, level: Json, message: Json, meta: Json): Thrown<CwlOutcome> {
    if !level.Str? then Threw
    else
      var upper := ToUpper(level.s);
      match rt.toIsoString(date)
      case Threw => Threw
      case Returned(iso) =>
        var defaultMessage := DefaultMessage(iso, upper, message);
        if IsErrorOrDebug(level) then
          if Truthy(meta) then
            match meta
            case Obj(p) =>
              var injected := Obj(InjectMeta(p, iso, upper, message));
              Returned(CwlOutcome(CwlLog(date, OptText(SafeToString(rt, injected, 2))), injected))
            case Arr(_) =>
              Returned(CwlOutcome(CwlLog(date, OptText(SafeToString(rt, meta, 2))), meta))
            case _ => Threw
          else
            Returned(CwlOutcome(CwlLog(date, defaultMessage + "|" + OptText(SafeToString(rt, meta, 0))), meta))
        else if Truthy(meta) then
          Returned(CwlOutcome(CwlLog(date, defaultMessage + "|" + OptText(SafeToString(rt, meta, 0))), meta))
        else
          Returned(CwlOutcome(CwlLog(date, defaultMessage), meta))
  }

  /** CwlFormat applied to the properties of a record. */
  function CwlFormatRecord(rt: Runtime, p: Props): Thrown<CwlOutcome> {
    CwlFormat(rt, Lookup(p, DateKey), Lookup(p, LevelKey), Lookup(p, MessageKey), Lookup(p, MetaKey))
  }

  /** The record after setCwlFormat: it is written to only when the level is error
      or debug, `meta` is an object and the date is valid; `meta` is then the object
      after the writes of InjectMeta. */
  function CwlRecordAfter(rt: Runtime, p: Props): Props {
    var level := Lookup(p, LevelKey);
    var meta := Lookup(p, MetaKey);
    var iso := rt.toIsoString(Lookup(p, DateKey));
    if IsErrorOrDebug(level) && meta.Obj? && iso.Returned?
    then Put(p, MetaKey, Obj(InjectMeta(meta.props, iso.value, ToUpper(level.s), Lookup(p, MessageKey))))
    else p
  }

  /** The `meta` a successful setCwlFormat reports is the `meta` the record carries
      afterwards. */
  lemma OutcomeMetaIsRecordMeta(rt: Runtime, p: Props)
    requires CwlFormatRecord(rt, p).Returned?
    ensures Lookup(CwlRecordAfter(rt, p), MetaKey) == CwlFormatRecord(rt, p).value.meta
  {
  }

  /** setCwlFormat: builds `{timestamp, message}` and, for error and debug records
      with an object `meta`, writes `timestamp`, `level` and `message` into it. */
  method SetCwlFormat(rt: Runtime, logObject: JsObject) returns (r: Thrown<CwlLog>)
    modifies logObject
    ensures r == match CwlFormatRecord(rt, old(logObject.props))
                 case Threw => Threw
                 case Returned(o) => Returned(o.log)
    ensures logObject.props == CwlRecordAfter(rt, old(logObject.props))
  {
    var date := logObject.Get(DateKey);
    var level := logObject.Get(LevelKey);
    var message := logObject.Get(MessageKey);
    var meta := logObject.Get(MetaKey);
    ghost var before := logObject.props;
    if !level.Str? {
      return Threw;
    }
    var upper := ToUpper(level.s);
    var iso := rt.toIsoString(date);
    if iso.Threw? {
      return Threw;
    }
    var timestamp := iso.value;
    var defaultMessage := DefaultMessage(timestamp, upper, message);

    if IsErrorOrDebug(level) {
      if Truthy(meta) {
        if meta.Obj? {
          var m := InjectMeta(meta.props, timestamp, upper, message);
          CwlErrorDebugWithMeta(rt, date, level, message, meta.props);
          logObject.Set(MetaKey, Obj(m));
          return Returned(CwlLog(date, OptText(SafeToString(rt, Obj(m), 2))));
        } else if meta.Arr? {
          return Returned(CwlLog(date, OptText(SafeToString(rt, meta, 2))));
        } else {
          return Threw;
        }
      } else {
        CwlErrorDebugWithoutMeta(rt, date, level, message, meta);
        return Returned(CwlLog(date, defaultMessage + "|" + OptText(SafeToString(rt, meta, 0))));
      }
    }
    CwlOtherLevels(rt, date, level.s, message, meta);
    assert CwlRecordAfter(rt, before) == before;
    var text := if Truthy(meta) then defaultMessage + "|" + OptText(SafeToString(rt, meta, 0)) else defaultMessage;
    return Returned(CwlLog(date, text));
  }

  /** setCwlFormat throws exactly when `level` is not a string, `date` is not a
      valid date, or an error/debug record carries a truthy non-object `meta`. */
  lemma CwlThrowsIff(rt: Runtime, date: Json, level: Json, message: Json, meta: Json)
    ensures CwlFormat(rt, date, level, message, meta).Threw? <==>
      (!level.Str? || rt.toIsoString(date).Threw? ||
       (IsErrorOrDebug(level) && Truthy(meta) && !meta.Obj? && !meta.Arr?))
  {
  }

  /** The outer `timestamp` is always the raw `date`, not its ISO form. */
  lemma CwlTimestampIsRawDate(rt: Runtime, date: Json, level: Json, message: Json, meta: Json)
    requires CwlFormat(rt, date, level, message, meta).Returned?
    ensures CwlFormat(rt, date, level, message, meta).value.log.timestamp == date
  {
  }

  /** Levels other than error and debug: `ISO|[LEVEL]|message`, followed by `|` and
      the serialised meta only when `meta` is truthy; `meta` is left alone. */
  lemma CwlOtherLevels(rt: Runtime, date: Json, level: string, message: Json, meta: Json)
    requires !IsErrorOrDebug(Str(level)) && rt.toIsoString(date).Returned?
    ensures var iso := rt.toIsoString(date).value;
      var head := iso + "|[" + ToUpper(level) + "]|" + ToJsString(message);
      CwlFormat(rt, date, Str(level), message, meta) ==
        Returned(CwlOutcome(CwlLog(date, if Truthy(meta) then head + "|" + OptText(SafeToString(rt, meta, 0)) else head), meta))
  {
  }

  /** Error and debug without meta: the default message, `|`, then the serialised
      falsy `meta` ("null", "\"\"", or "undefined" when the serialiser gives none). */
  lemma CwlErrorDebugWithoutMeta(rt: Runtime, date: Json, level: Json, message: Json, meta: Json)
    requires IsErrorOrDebug(level) && !Truthy(meta) && rt.toIsoString(date).Returned?
    ensures var iso := rt.toIsoString(date).value;
      CwlFormat(rt, date, level, message, meta) ==
        Returned(CwlOutcome(CwlLog(date, DefaultMessage(iso, ToUpper(level.s), message) + "|" + OptText(SafeToString(rt, meta, 0))), meta))
  {
  }

  /** Error and debug with an object `meta`: the message is that object, after the
      writes of InjectMeta, serialised with indent 2, and the written object stays on
      the record. */
  lemma CwlErrorDebugWithMeta(rt: Runtime, date: Json, level: Json, message: Json, p: Props)
    requires IsErrorOrDebug(level) && rt.toIsoString(date).Returned?
    ensures var iso := rt.toIsoString(date).value;
      var m := InjectMeta(p, iso, ToUpper(level.s), message);
      CwlFormat(rt, date, level, message, Obj(p)) ==
        Returned(CwlOutcome(CwlLog(date, OptText(SafeToString(rt, Obj(m), 2))), Obj(m)))
  {
  }

  /** The writes into `meta`: `level` becomes the upper-cased level, `timestamp` and
      `message` keep a truthy value they had and otherwise take the ISO time and the
      record's message; every other property is kept, and the written properties that
      were missing are added after the existing ones in the order timestamp, level,
      message. */
  lemma InjectMetaFields(p: Props, iso: string, level: string, message: Json)
    ensures var m := InjectMeta(p, iso, level, message);
      Lookup(m, LevelKey) == Str(level) &&
      Lookup(m, TimestampKey) == Or(Lookup(p, TimestampKey), Str(iso)) &&
      Lookup(m, MessageKey) == Or(Lookup(p, MessageKey), message)
    ensures var m := InjectMeta(p, iso, level, message);
      forall k :: k != LevelKey && k != TimestampKey && k != MessageKey ==>
        Has(m, k) == Has(p, k) && Lookup(m, k) == Lookup(p, k)
    ensures KeysOf(InjectMeta(p, iso, level, message)) ==
      KeysOf(p) + (if Has(p, TimestampKey) then [] else [TimestampKey])
                + (if Has(p, LevelKey) then [] else [LevelKey])
                + (if Has(p, MessageKey) then [] else [MessageKey])
  {
    assert TimestampKey != LevelKey && TimestampKey != MessageKey && LevelKey != MessageKey;
    var withTime := Put(p, TimestampKey, Or(Lookup(p, TimestampKey), Str(iso)));
    var withLevel := Put(withTime, LevelKey, Str(level));
    var m := Put(withLevel, MessageKey, Or(Lookup(withLevel, MessageKey), message));
    assert m == InjectMeta(p, iso, level, message);
    assert Has(withTime, LevelKey) == Has(p, LevelKey);
    assert Has(withLevel, MessageKey) == Has(p, MessageKey) && Lookup(withLevel, MessageKey) == Lookup(p, MessageKey);
    PutKeys(p, TimestampKey, Or(Lookup(p, TimestampKey), Str(iso)));
    PutKeys(withTime, LevelKey, Str(level));
    PutKeys(withLevel, MessageKey, Or(Lookup(withLevel, MessageKey), message));
    assert (if Has(withTime, LevelKey) then [] else [LevelKey]) == (if Has(p, LevelKey) then [] else [LevelKey]);
    assert (if Has(withLevel, MessageKey) then [] else [MessageKey]) == (if Has(p, MessageKey) then [] else [MessageKey]);
  }

  /** On an object without `timestamp`, `level` and `message`, the writes append
      exactly those three properties, in that order. */
  lemma InjectMetaFresh(p: Props, iso: string, level: string, message: Json)
    requires !Has(p, TimestampKey) && !Has(p, LevelKey) && !Has(p, MessageKey)
    ensures InjectMeta(p, iso, level, message) ==
      p + [(TimestampKey, Str(iso)), (LevelKey, Str(level)), (MessageKey, message)]
  {
    assert TimestampKey != LevelKey && TimestampKey != MessageKey && LevelKey != MessageKey by {
      assert |LevelKey.name| == 5 && |MessageKey.name| == 7 && |TimestampKey.name| == 9;
    }
    var withTime := Put(p, TimestampKey, Or(Lookup(p, TimestampKey), Str(iso)));
    assert withTime == p + [(TimestampKey, Str(iso))];
    var withLevel := Put(withTime, LevelKey, Str(level));
    assert withLevel == withTime + [(LevelKey, Str(level))];
    assert !Has(withLevel, MessageKey);
  }

  /** When the ISO time and the level contain no `|`, the default message splits
      back at its first two `|` into the time, the bracketed level, and the rest. */
  lemma DefaultMessageSplits(iso: string, level: string, message: Json)
    requires '|' !in iso && '|' !in level
    ensures var m := DefaultMessage(iso, level, message);
      BeforeFirst(m, '|') == iso &&
      BeforeFirst(AfterFirst(m, '|'), '|') == "[" + level + "]" &&
      AfterFirst(AfterFirst(m, '|'), '|') == ToJsString(message)
  {
    var bracketed := "[" + level + "]";
    var rest := bracketed + "|" + ToJsString(message);
    assert DefaultMessage(iso, level, message) == iso + ['|'] + rest;
    SplitFirstOfJoin(iso, '|', rest);
    assert '|' !in bracketed;
    assert rest == bracketed + ['|'] + ToJsString(message);
    SplitFirstOfJoin(bracketed, '|', ToJsString(message));
  }

  /** For a level the logger names, the default message splits back into the ISO
      time, the bracketed upper-cased level name and the message text: neither the
      name nor its upper-cased form contains `|`. */
  lemma LevelMessageSplits(iso: string, level: LogLevel, message: Json)
    requires '|' !in iso
    ensures var m := DefaultMessage(iso, ToUpper(level.Name()), message);
      BeforeFirst(m, '|') == iso &&
      BeforeFirst(AfterFirst(m, '|'), '|') == "[" + ToUpper(level.Name()) + "]" &&
      AfterFirst(AfterFirst(m, '|'), '|') == ToJsString(message)
  {
    ToUpperKeepsOut(level.Name(), '|');
    DefaultMessageSplits(iso, ToUpper(level.Name()), message);
  }

  /** An info record with message "hello" and no meta gives `ISO|[INFO]|hello`. */
  lemma InfoHelloMessage(rt: Runtime, date: Json)
    requires rt.toIsoString(date).Returned?
    ensures CwlFormat(rt, date, Str(Info.Name()), Str("hello"), Null).Returned?
    ensures CwlFormat(rt, date, Str(Info.Name()), Str("hello"), Null).value.log.message ==
      rt.toIsoString(date).value + "|[INFO]|hello"
  {
    assert Info.Name() == "info";
    assert !IsErrorOrDebug(Str("info"));
    CwlOtherLevels(rt, date, "info", Str("hello"), Null);
    var iso := rt.toIsoString(date).value;
    assert ToUpper("info") == "INFO";
    assert iso + "|[" + "INFO" + "]|" + "hello" == iso + "|[INFO]|hello";
  }

  /** An error record with `meta = {a: 1}` and message "boom" is serialised, with
      indent 2, from `{a: 1, timestamp: ISO, level: "ERROR", message: "boom"}`. */
  lemma ErrorMetaMessage(rt: Runtime, date: Json)
    requires rt.toIsoString(date).Returned?
    ensures var iso := rt.toIsoString(date).value;
      var m := Obj([(Prop("a"), Num(1)), (TimestampKey, Str(iso)), (LevelKey, Str("ERROR")), (MessageKey, Str("boom"))]);
      CwlFormat(rt, date, Str(Error.Name()), Str("boom"), Obj([(Prop("a"), Num(1))])) ==
        Returned(CwlOutcome(CwlLog(date, OptText(SafeToString(rt, m, 2))), m))
  {
    var iso := rt.toIsoString(date).value;
    var a := Prop("a");
    assert a != TimestampKey && a != LevelKey && a != MessageKey by {
      assert |a.name| == 1 && |LevelKey.name| == 5 && |MessageKey.name| == 7 && |TimestampKey.name| == 9;
    }
    assert Error.Name() == "error" && ToUpper("error") == "ERROR";
    var p := [(a, Num(1))];
    NotHasAt(p, TimestampKey);
    NotHasAt(p, LevelKey);
    NotHasAt(p, MessageKey);
    InjectMetaFresh(p, iso, "ERROR", Str("boom"));
    assert p + [(TimestampKey, Str(iso)), (LevelKey, Str("ERROR")), (MessageKey, Str("boom"))] ==
      [(a, Num(1)), (TimestampKey, Str(iso)), (LevelKey, Str("ERROR")), (MessageKey, Str("boom"))];
    CwlErrorDebugWithMeta(rt, date, Str(Error.Name()), Str("boom"), p);
  }
}
