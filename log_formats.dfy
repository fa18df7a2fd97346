/**
 * The record-level formats of src/utils/logger.ts: `errorReplacer`,
 * `enhanceErrorMetadata` (the correlation-id and request lift, and the
 * classifier) and `extractNestedError`.
 *
 * A log entry (winston's `info`) is a map from its property keys to values.
 * The two formats change the entry in place; each is a method of `LogInfo`
 * proved equal to a function of the old entry, and the lemmas state what that
 * function keeps, changes and guarantees.
 */
module LogFormats {
  import opened Wrappers
  import opened Errors
  import Strings

  type Entry = map<Key, Value>

  /** `m[k]`: `undefined` for a missing key. */
  function Get(m: map<Key, Value>, k: Key): Value {
    if k in m then m[k] else Undefined
  }

  /** JavaScript truthiness. */
  predicate Truthy(v: Value) {
    match v
    case Undefined => false
    case Null => false
    case Bool(b) => b
    case Num(n) => n != 0
    case Str(s) => s != ""
    case _ => true
  }

  /** The own properties of an error object: `name`, `message`, `stack`, and an `AppError`'s readonly fields. */
  function ErrorProp(e: ErrorObject, k: Key): (r: Value)
    ensures k !in {Name, Message, Stack, Code, Status, Details, Timestamp} ==> r == Undefined
    ensures e.PlainError? && k !in {Name, Message, Stack} ==> r == Undefined
  {
    if k == Name then Str(ErrorName(e))
    else if k == Message then Str(ErrorMessage(e))
    else if k == Stack then OptionalString(ErrorStack(e))
    else match e
      case PlainError(_, _, _) => Undefined
      case App(a) =>
        if k == Code then Str(CodeString(a.code))
        else if k == Status then Num(StatusCode(a.status))
        else if k == Details then a.details
        else if k == Timestamp then Str(a.timestamp)
        else Undefined
  }

  /**
   * `v[k]` for the keys the logger reads (`correlationId`, `request`, `method`,
   * `url`, `ip`, `userAgent`): none of them is inherited by a built-in value,
   * so only own properties matter and a primitive yields `undefined`.
   */
  function Prop(v: Value, k: Key): (r: Value)
    ensures !(v.Obj? || v.Err?) ==> r == Undefined
    ensures v.Obj? ==> (r != Undefined ==> k in v.fields)
  {
    match v
    case Obj(f) => Get(f, k)
    case Err(e) => ErrorProp(e, k)
    case _ => Undefined
  }

  function OptionalString(s: Option<string>): Value {
    if s.Some? then Str(s.value) else Undefined
  }

  /** `Error.prototype.toString`. */
  function ErrorToString(name: string, message: string): (r: string)
    ensures name != "" && message != "" ==> r == name + ": " + message
    ensures name == "" || message == "" ==> r == name + message
  {
    if name == "" then message else if message == "" then name else name + ": " + message
  }

  /**
   * What a template literal `${v}` prints: a string is printed as it is, a
   * number as decimal text that reads back as that number, an error as
   * `Error.prototype.toString` prints it.
   */
  function Show(v: Value): (r: string)
    ensures v.Str? ==> r == v.s
    ensures v.Num? ==> Strings.IsDecimalText(r) && Strings.DecimalValue(r) == v.n
    ensures v.Err? ==> r == ErrorToString(ErrorName(v.err), ErrorMessage(v.err))
  {
    match v
    case Undefined => "undefined"
    case Null => "null"
    case Bool(b) => if b then "true" else "false"
    case Num(n) => Strings.DecimalRoundTrip(n); Strings.DecimalString(n)
    case Str(s) => s
    case Arr(items) => ShowItems(items)
    case Obj(_) => "[object Object]"
    case Err(e) => ErrorToString(ErrorName(e), ErrorMessage(e))
  }

  /** `Array.prototype.join(",")`, which prints `undefined` and `null` elements as nothing. */
  function ShowItems(items: seq<Value>): string
    decreases items
  {
    if items == [] then ""
    else
      var first := if items[0].Undefined? || items[0].Null? then "" else Show(items[0]);
      if |items| == 1 then first else first + "," + ShowItems(items[1..])
  }

  /** The falsy values are exactly `undefined`, `null`, `false`, `0` and `""`. */
  lemma FalsyValues(v: Value)
    ensures !Truthy(v) <==> v == Undefined || v == Null || v == Bool(false) || v == Num(0) || v == Str("")
  {
  }

  /**
   * A template literal prints an array as `Array.prototype.join(",")` does:
   * the elements' own texts separated by commas, with `undefined` and `null`
   * elements printed as nothing.
   */
  lemma {:induction false} ShowItemsIsJoin(items: seq<Value>)
    ensures ShowItems(items) ==
      Strings.Join(seq(|items|, i requires 0 <= i < |items| =>
        if items[i].Undefined? || items[i].Null? then "" else Show(items[i])), ',')
  {
    var texts := seq(|items|, i requires 0 <= i < |items| =>
      if items[i].Undefined? || items[i].Null? then "" else Show(items[i]));
    if |items| > 1 {
      ShowItemsIsJoin(items[1..]);
      var rest := seq(|items| - 1, i requires 0 <= i < |items| - 1 =>
        if items[1..][i].Undefined? || items[1..][i].Null? then "" else Show(items[1..][i]));
      assert texts[1..] == rest;
    }
  }

  /** JavaScript's `v >= bound` where `v` is a number; other values are not compared as numbers here. */
  predicate AtLeast(v: Value, bound: int) {
    v.Num? && v.n >= bound
  }

  // ---------------------------------------------------------------------------
  // errorReplacer
  // ---------------------------------------------------------------------------

  const AppErrorRecordKeys: set<Key> :=
    {Type, Name, Message, Code, Status, StatusText, Details, Timestamp, Stack}

  const ErrorRecordKeys: set<Key> := {Type, Name, Message, Stack}

  /** `HttpStatus[status]`: the member name, or `undefined` for a value that is not a member. */
  function StatusTextOf(n: int): Value {
    match StatusByCode(n)
    case Some(s) => Str(StatusName(s))
    case None => Undefined
  }

  /** The `statusText` of a member's value is the member's name. */
  lemma StatusTextOfMember(s: HttpStatus)
    ensures StatusTextOf(StatusCode(s)) == Str(StatusName(s))
  {
    StatusByCodeRoundTrip(s);
  }

  /** The record `errorReplacer` substitutes for an `AppError`. */
  function AppErrorRecord(e: AppError): map<Key, Value> {
    map[
      Type := Str("AppError"),
      Name := Str(e.name),
      Message := Str(e.message),
      Code := Str(CodeString(e.code)),
      Status := Num(StatusCode(e.status)),
      StatusText := StatusTextOf(StatusCode(e.status)),
      Details := e.details,
      Timestamp := Str(e.timestamp),
      Stack := Str(e.stack)]
  }

  /** The record `errorReplacer` substitutes for any other error. */
  function ErrorRecord(name: string, message: string, stack: Option<string>): map<Key, Value> {
    map[Type := Str("Error"), Name := Str(name), Message := Str(message), Stack := OptionalString(stack)]
  }

  /**
   * `errorReplacer(key, value)`: an `AppError` (tested first) becomes its
   * nine-field record, any other error its four-field record, and every other
   * value is returned unchanged. The key is not used.
   */
  function ErrorReplacer(key: string, value: Value): (r: Value)
    ensures !r.Err?
    ensures !value.Err? ==> r == value
    ensures value.Err? && value.err.App? ==>
      r.Obj? && r.fields.Keys == AppErrorRecordKeys && r.fields[Type] == Str("AppError")
    ensures value.Err? && value.err.PlainError? ==>
      r.Obj? && r.fields.Keys == ErrorRecordKeys && r.fields[Type] == Str("Error")
    ensures value.Err? ==>
      r.Obj? && r.fields[Name] == Str(ErrorName(value.err)) && r.fields[Message] == Str(ErrorMessage(value.err)) &&
      r.fields[Stack] == OptionalString(ErrorStack(value.err))
  {
    match value
    case Err(App(e)) => Obj(AppErrorRecord(e))
    case Err(PlainError(name, message, stack)) => Obj(ErrorRecord(name, message, stack))
    case _ => value
  }

  /**
   * Apart from `type` and `statusText`, the replacer's records are read from
   * the error's own properties: every other field is the error's property of
   * that name, as `Prop` reads it.
   */
  lemma ReplacerReadsOwnProps(key: string, e: ErrorObject, k: Key)
    ensures var r := ErrorReplacer(key, Err(e)).fields;
      k in r && k != Type && k != StatusText ==> r[k] == Prop(Err(e), k)
    ensures var r := ErrorReplacer(key, Err(e)).fields;
      k !in r ==> Prop(Err(e), k) == Undefined
  {
  }

  /** Replacing twice is replacing once: the records it produces are not errors themselves. */
  lemma ReplacerIdempotent(key: string, value: Value)
    ensures ErrorReplacer(key, ErrorReplacer(key, value)) == ErrorReplacer(key, value)
  {
  }

  /**
   * The replacer's record of an `AppError` carries the same response as
   * `toJSON`: its code, status, message, details and timestamp decode back to
   * the fields of `ToJSON(e)`, and its `statusText` is the status member's name.
   */
  lemma ReplacerAgreesWithToJSON(key: string, e: AppError)
    ensures var rec := ErrorReplacer(key, Err(App(e))).fields;
      var resp := ToJSON(e);
      && rec[Code].Str? && CodeNamed(rec[Code].s) == Some(resp.code)
      && rec[Status].Num? && StatusByCode(rec[Status].n) == Some(resp.status)
      && rec[Message] == Str(resp.message)
      && rec[Details] == resp.details
      && rec[Timestamp] == Str(resp.timestamp)
      && rec[StatusText] == Str(StatusName(resp.status))
  {
    var rec := AppErrorRecord(e);
    assert ErrorReplacer(key, Err(App(e))).fields == rec;
    assert rec[Code] == Str(CodeString(e.code)) && rec[Status] == Num(StatusCode(e.status));
    assert rec[StatusText] == StatusTextOf(StatusCode(e.status));
    CodeNamedRoundTrip(e.code);
    StatusByCodeRoundTrip(e.status);
    StatusTextOfMember(e.status);
  }

  // ---------------------------------------------------------------------------
  // enhanceErrorMetadata, as a function of the entry
  // ---------------------------------------------------------------------------

  /** The keys `enhanceErrorMetadata` may write; every other key is left alone. */
  const EnhanceKeys: set<Key> :=
    {CorrelationId, Request, Metadata, ErrorCategory, Severity, Timestamp}

  /** The keys the classifier writes. */
  const ClassifyKeys: set<Key> := {ErrorCategory, Severity, Timestamp}

  /** The keys lifted out of `metadata`. */
  const LiftedKeys: set<Key> := {CorrelationId, Request}

  /** The keys of the request record it builds. */
  const RequestKeys: set<Key> := {Method, Url, Ip, UserAgent}

  /** `info.metadata?.[k]`. */
  function MetaField(info: Entry, k: Key): Value {
    Prop(Get(info, Metadata), k)
  }

  /** `delete info.metadata[k]`, which only has an effect on a plain object. */
  function DeleteMetaField(info: Entry, k: Key): Entry {
    match Get(info, Metadata)
    case Obj(f) => info[Metadata := Obj(f - {k})]
    case _ => info
  }

  /** `metadata` without the two keys that are lifted out of it. */
  function MetaRest(info: Entry): Value {
    match Get(info, Metadata)
    case Obj(f) => Obj(f - LiftedKeys)
    case v => v
  }

  /** A truthy `metadata.correlationId` moves to the top level. */
  function LiftCorrelationId(info: Entry): Entry {
    var id := MetaField(info, CorrelationId);
    if Truthy(id) then DeleteMetaField(info[CorrelationId := id], CorrelationId) else info
  }

  /** `{ method, url, ip, userAgent }` destructured from `request`. */
  function RequestRecord(request: Value): (r: Value)
    ensures r.Obj? && r.fields.Keys == RequestKeys
    ensures forall k :: k in RequestKeys ==> r.fields[k] == Prop(request, k)
  {
    Obj(map[
      Method := Prop(request, Method),
      Url := Prop(request, Url),
      Ip := Prop(request, Ip),
      UserAgent := Prop(request, UserAgent)])
  }

  /** A truthy `metadata.request` is copied to the top level as a four-field record. */
  function LiftRequest(info: Entry): Entry {
    var request := MetaField(info, Request);
    if Truthy(request) then DeleteMetaField(info[Request := RequestRecord(request)], Request) else info
  }

  /** The gate of the classifier: an `error` value, or a `type` of 'AppError' or 'Error'. */
  predicate HasErrorInfo(info: Entry) {
    Truthy(Get(info, Error)) || Get(info, Type) == Str("AppError") || Get(info, Type) == Str("Error")
  }

  /** The category of an 'AppError' entry: the `switch` on `code` against the `ErrorCode` strings. */
  function Category(code: Value): string {
    if code == Str(CodeString(VALIDATION_ERROR)) then "validation"
    else if code == Str(CodeString(AUTHENTICATION_ERROR)) || code == Str(CodeString(AUTHORIZATION_ERROR)) then "security"
    else if code == Str(CodeString(DATABASE_ERROR)) then "database"
    else if code == Str(CodeString(EXTERNAL_SERVICE_ERROR)) then "external"
    else "application"
  }

  /** The severity a status earns: none for a truthy status below 400 (or one that is not a number). */
  function SeverityOf(status: Value): Option<string> {
    if !Truthy(status) then Some("error")
    else if AtLeast(status, 500) then Some("critical")
    else if AtLeast(status, 400) then Some("error")
    else None
  }

  /** The category step: by code for an 'AppError' entry, 'system' for an 'Error' entry. */
  function Categorized(info: Entry): Entry {
    var kind := Get(info, Type);
    if kind == Str("AppError") then info[ErrorCategory := Str(Category(Get(info, Code)))]
    else if kind == Str("Error") then info[ErrorCategory := Str("system")]
    else info
  }

  /** The severity step. */
  function Ranked(info: Entry): Entry {
    var severity := SeverityOf(Get(info, Status));
    if severity.Some? then info[Severity := Str(severity.value)] else info
  }

  /** The timestamp step: a falsy timestamp is replaced by the clock reading. */
  function Stamped(info: Entry, now: string): Entry {
    if Truthy(Get(info, Timestamp)) then info else info[Timestamp := Str(now)]
  }

  /** The classifier: the three steps, all behind the gate. */
  function Classify(info: Entry, now: string): Entry {
    if HasErrorInfo(info) then Stamped(Ranked(Categorized(info)), now) else info
  }

  /** The entry `enhanceErrorMetadata` leaves behind, given the clock reading `now`. */
  function Enhanced(info: Entry, now: string): Entry {
    Classify(LiftRequest(LiftCorrelationId(info)), now)
  }

  /**
   * Lifting the correlation id touches only `correlationId` and `metadata`;
   * a truthy id moves, a falsy one leaves the entry as it was, and `metadata`
   * is unchanged apart from the lifted keys.
   */
  lemma LiftCorrelationIdStep(info: Entry)
    ensures var id := MetaField(info, CorrelationId);
      var r := LiftCorrelationId(info);
      && r - {CorrelationId, Metadata} == info - {CorrelationId, Metadata}
      && MetaRest(r) == MetaRest(info)
      && MetaField(r, Request) == MetaField(info, Request)
      && (Truthy(id) ==> Get(r, CorrelationId) == id && MetaField(r, CorrelationId) == Undefined)
      && (!Truthy(id) ==> r == info)
  {
    var id := MetaField(info, CorrelationId);
    if Truthy(id) {
      var f := Get(info, Metadata).fields;
      assert f - {CorrelationId} - LiftedKeys == f - LiftedKeys;
    }
  }

  /**
   * Lifting the request touches only `request` and `metadata`; a truthy
   * request becomes the four-field record, a falsy one leaves the entry as it
   * was, and `metadata` is unchanged apart from the lifted keys.
   */
  lemma LiftRequestStep(info: Entry)
    ensures var request := MetaField(info, Request);
      var r := LiftRequest(info);
      && r - {Request, Metadata} == info - {Request, Metadata}
      && MetaRest(r) == MetaRest(info)
      && MetaField(r, CorrelationId) == MetaField(info, CorrelationId)
      && (Truthy(request) ==>
            && Get(r, Request) == RequestRecord(request)
            && MetaField(r, Request) == Undefined)
      && (!Truthy(request) ==> r == info)
  {
    var request := MetaField(info, Request);
    if Truthy(request) {
      var f := Get(info, Metadata).fields;
      assert f - {Request} - LiftedKeys == f - LiftedKeys;
    }
  }

  /**
   * The classifier touches only the category, the severity and the
   * timestamp, and only behind the gate: an 'AppError' entry gets the
   * category of its code, an 'Error' entry 'system', the severity follows the
   * status thresholds, and a present timestamp is never overwritten.
   */
  lemma ClassifyStep(info: Entry, now: string)
    ensures var r := Classify(info, now);
      && r - ClassifyKeys == info - ClassifyKeys
      && (!HasErrorInfo(info) ==> r == info)
      && (HasErrorInfo(info) ==>
            && Get(r, Timestamp) == (if Truthy(Get(info, Timestamp)) then Get(info, Timestamp) else Str(now))
            && Get(r, ErrorCategory) ==
                 (if Get(info, Type) == Str("AppError") then Str(Category(Get(info, Code)))
                  else if Get(info, Type) == Str("Error") then Str("system")
                  else Get(info, ErrorCategory))
            && Get(r, Severity) ==
                 (if SeverityOf(Get(info, Status)).Some? then Str(SeverityOf(Get(info, Status)).value)
                  else Get(info, Severity)))
  {
  }

  /** Two entries that agree outside `ks` agree on every key outside `ks`. */
  lemma SameOutside(a: Entry, b: Entry, ks: set<Key>, k: Key)
    requires a - ks == b - ks && k !in ks
    ensures Get(a, k) == Get(b, k)
  {
    assert k in a <==> k in a - ks;
    assert k in b <==> k in b - ks;
    if k in a { assert (a - ks)[k] == a[k]; }
    if k in b { assert (b - ks)[k] == b[k]; }
  }

  /** Agreeing outside a set of keys implies agreeing outside any larger set. */
  lemma WidenFrame(a: Entry, b: Entry, ks: set<Key>, wider: set<Key>)
    requires a - ks == b - ks && ks <= wider
    ensures a - wider == b - wider
  {
    assert a - wider == (a - ks) - wider;
    assert b - wider == (b - ks) - wider;
  }

  /** Only the keys in `EnhanceKeys` change; inside `metadata`, only `correlationId` and `request` go. */
  lemma EnhanceFrame(info: Entry, now: string)
    ensures Enhanced(info, now) - EnhanceKeys == info - EnhanceKeys
    ensures HasErrorInfo(Enhanced(info, now)) == HasErrorInfo(info)
    ensures MetaRest(Enhanced(info, now)) == MetaRest(info)
  {
    var l1 := LiftCorrelationId(info);
    var l2 := LiftRequest(l1);
    var r := Classify(l2, now);
    LiftCorrelationIdStep(info);
    LiftRequestStep(l1);
    ClassifyStep(l2, now);
    WidenFrame(l1, info, {CorrelationId, Metadata}, EnhanceKeys);
    WidenFrame(l2, l1, {Request, Metadata}, EnhanceKeys);
    WidenFrame(r, l2, ClassifyKeys, EnhanceKeys);
    assert r - EnhanceKeys == info - EnhanceKeys;
    SameOutside(r, l2, ClassifyKeys, Metadata);
    assert MetaRest(r) == MetaRest(l2);
    SameOutside(r, info, EnhanceKeys, Error);
    SameOutside(r, info, EnhanceKeys, Type);
  }

  /**
   * A truthy `metadata.correlationId` ends up at the top level and no longer
   * in `metadata`; a falsy one leaves both places as they were.
   */
  lemma EnhanceLiftsCorrelationId(info: Entry, now: string)
    ensures var id := MetaField(info, CorrelationId);
      var r := Enhanced(info, now);
      if Truthy(id) then Get(r, CorrelationId) == id && MetaField(r, CorrelationId) == Undefined
      else Get(r, CorrelationId) == Get(info, CorrelationId) && MetaField(r, CorrelationId) == id
  {
    var l1 := LiftCorrelationId(info);
    var l2 := LiftRequest(l1);
    var r := Classify(l2, now);
    LiftCorrelationIdStep(info);
    LiftRequestStep(l1);
    ClassifyStep(l2, now);
    SameOutside(l2, l1, {Request, Metadata}, CorrelationId);
    SameOutside(r, l2, ClassifyKeys, CorrelationId);
    SameOutside(r, l2, ClassifyKeys, Metadata);
  }

  /**
   * A truthy `metadata.request` is replaced by a top-level record with exactly
   * the keys method, url, ip and userAgent, each read from the original
   * (undefined when absent), and removed from `metadata`.
   */
  lemma EnhanceLiftsRequest(info: Entry, now: string)
    ensures var request := MetaField(info, Request);
      var r := Enhanced(info, now);
      if Truthy(request) then
        && Get(r, Request).Obj?
        && Get(r, Request).fields.Keys == RequestKeys
        && (forall k :: k in RequestKeys ==> Get(r, Request).fields[k] == Prop(request, k))
        && MetaField(r, Request) == Undefined
      else Get(r, Request) == Get(info, Request) && MetaField(r, Request) == request
  {
    var l1 := LiftCorrelationId(info);
    var l2 := LiftRequest(l1);
    var r := Classify(l2, now);
    LiftCorrelationIdStep(info);
    LiftRequestStep(l1);
    ClassifyStep(l2, now);
    SameOutside(l1, info, {CorrelationId, Metadata}, Request);
    SameOutside(r, l2, ClassifyKeys, Request);
    SameOutside(r, l2, ClassifyKeys, Metadata);
  }

  /**
   * The classification as seen from the original entry: without the gate
   * the category, severity and timestamp are untouched; with it, they are
   * computed from the entry's own type, code and status.
   */
  lemma EnhanceClassifies(info: Entry, now: string)
    ensures var r := Enhanced(info, now);
      && (!HasErrorInfo(info) ==>
            Get(r, ErrorCategory) == Get(info, ErrorCategory) &&
            Get(r, Severity) == Get(info, Severity) &&
            Get(r, Timestamp) == Get(info, Timestamp))
      && (HasErrorInfo(info) ==>
            && Get(r, Timestamp) == (if Truthy(Get(info, Timestamp)) then Get(info, Timestamp) else Str(now))
            && Get(r, ErrorCategory) ==
                 (if Get(info, Type) == Str("AppError") then Str(Category(Get(info, Code)))
                  else if Get(info, Type) == Str("Error") then Str("system")
                  else Get(info, ErrorCategory))
            && Get(r, Severity) ==
                 (if SeverityOf(Get(info, Status)).Some? then Str(SeverityOf(Get(info, Status)).value)
                  else Get(info, Severity)))
  {
    var l1 := LiftCorrelationId(info);
    var l2 := LiftRequest(l1);
    LiftCorrelationIdStep(info);
    LiftRequestStep(l1);
    WidenFrame(l1, info, {CorrelationId, Metadata}, LiftedKeys + {Metadata});
    WidenFrame(l2, l1, {Request, Metadata}, LiftedKeys + {Metadata});
    forall k | k in {Type, Code, Status, Error, ErrorCategory, Severity, Timestamp}
      ensures Get(l2, k) == Get(info, k)
    {
      SameOutside(l2, info, LiftedKeys + {Metadata}, k);
    }
    ClassifyStep(l2, now);
  }

  /**
   * The severity thresholds: 500 and above is 'critical', 400 to 499 'error',
   * a missing or zero status 'error', and any other number sets nothing.
   */
  lemma SeverityThresholds(n: int)
    ensures n >= 500 ==> SeverityOf(Num(n)) == Some("critical")
    ensures 400 <= n < 500 ==> SeverityOf(Num(n)) == Some("error")
    ensures n == 0 ==> SeverityOf(Num(n)) == Some("error") && SeverityOf(Undefined) == Some("error")
    ensures n != 0 && n < 400 ==> SeverityOf(Num(n)) == None
  {
  }

  /**
   * The category table, read through the codes' string values: validation,
   * security for both identity codes, database, external, and application
   * for the other three codes; a value that is not one of the codes' strings
   * is 'application' too.
   */
  lemma CategoryOfCode(c: ErrorCode, v: Value)
    ensures Category(Str(CodeString(c))) ==
      match c
      case VALIDATION_ERROR => "validation"
      case AUTHENTICATION_ERROR | AUTHORIZATION_ERROR => "security"
      case DATABASE_ERROR => "database"
      case EXTERNAL_SERVICE_ERROR => "external"
      case NOT_FOUND_ERROR | CONFLICT_ERROR | INTERNAL_ERROR => "application"
    ensures (!v.Str? || CodeNamed(v.s).None?) ==> Category(v) == "application"
  {
    if v.Str? && CodeNamed(v.s).None? {
      assert CodeString(VALIDATION_ERROR) != v.s && CodeString(AUTHENTICATION_ERROR) != v.s;
      assert CodeString(AUTHORIZATION_ERROR) != v.s && CodeString(DATABASE_ERROR) != v.s;
      assert CodeString(EXTERNAL_SERVICE_ERROR) != v.s;
    }
  }

  /** Every category is a non-empty name, so the summary always prints it. */
  lemma CategoryNamed(code: Value)
    ensures Category(code) in {"validation", "security", "database", "external", "application"}
  {
  }

  /** Every subclass's status is ranked: 'error' for a client code, 'critical' for a server code. */
  lemma KindStatusRanked(k: ErrorKind)
    ensures SeverityOf(Num(StatusCode(KindStatus(k)))) == Some(if IsClientCode(KindCode(k)) then "error" else "critical")
  {
    KindStatusMatchesCodeGroup(k);
  }

  /** An entry carrying an `AppError`'s replacer record is categorized by its code and ranked by its status. */
  lemma AppErrorRecordClassified(info: Entry, e: AppError, now: string)
    ensures var r := Enhanced(info + AppErrorRecord(e), now);
      var severity := SeverityOf(Num(StatusCode(e.status)));
      && Get(r, ErrorCategory) == Str(Category(Str(CodeString(e.code))))
      && (severity.Some? ==> Get(r, Severity) == Str(severity.value))
  {
    var rec := AppErrorRecord(e);
    var i := info + rec;
    assert Get(i, Type) == Str("AppError") by { assert i[Type] == rec[Type]; }
    assert Get(i, Code) == Str(CodeString(e.code)) by { assert i[Code] == rec[Code]; }
    assert Get(i, Status) == Num(StatusCode(e.status)) by { assert i[Status] == rec[Status]; }
    EnhanceClassifies(i, now);
  }

  /**
   * The status table and the classifier agree on every subclass: an entry
   * that carries the replacer's record of a subclass instance at its top
   * level is ranked 'error' for a client code and 'critical' for a server code.
   */
  lemma KindSeverityFollowsCodeGroup(k: ErrorKind, message: Option<string>, details: Value,
                                     stamp: string, stack: string, info: Entry, now: string)
    requires message.Some? || DefaultMessage(k).Some?
    ensures var e := NewKindError(k, message, details, stamp, stack);
      var r := Enhanced(info + AppErrorRecord(e), now);
      && Get(r, Severity) == Str(if IsClientCode(KindCode(k)) then "error" else "critical")
      && Get(r, ErrorCategory) == Str(Category(Str(CodeString(KindCode(k)))))
  {
    var e := NewKindError(k, message, details, stamp, stack);
    AppErrorRecordClassified(info, e, now);
    KindStatusRanked(k);
  }

  /** With a non-empty clock reading, classifying twice is classifying once. */
  lemma ClassifyIdempotent(info: Entry, now: string, later: string)
    requires now != ""
    ensures Classify(Classify(info, now), later) == Classify(info, now)
  {
    if HasErrorInfo(info) {
      var c := Classify(info, now);
      ClassifyStep(info, now);
      SameOutside(c, info, ClassifyKeys, Type);
      SameOutside(c, info, ClassifyKeys, Code);
      SameOutside(c, info, ClassifyKeys, Status);
      SameOutside(c, info, ClassifyKeys, Error);
      assert Categorized(c) == c;
      assert Ranked(c) == c;
      assert Stamped(c, later) == c;
    }
  }

  /**
   * Running the format a second time changes nothing, whatever the second
   * clock reading: the lifted keys are gone from `metadata`, the
   * classification is recomputed from unchanged keys and the timestamp is set.
   */
  lemma EnhanceIdempotent(info: Entry, now: string, later: string)
    requires now != ""
    ensures Enhanced(Enhanced(info, now), later) == Enhanced(info, now)
  {
    var l2 := LiftRequest(LiftCorrelationId(info));
    var r := Enhanced(info, now);
    EnhanceLiftsCorrelationId(info, now);
    EnhanceLiftsRequest(info, now);
    LiftCorrelationIdStep(r);
    LiftRequestStep(r);
    ClassifyIdempotent(l2, now, later);
  }

  // ---------------------------------------------------------------------------
  // extractNestedError, as a function of the entry
  // ---------------------------------------------------------------------------

  /** The keys `extractNestedError` may write. */
  const ExtractKeys: set<Key> := {Message, Stack, Error}

  /** The entry `extractNestedError` leaves behind. */
  function Extracted(info: Entry): Entry {
    match Get(info, Error)
    case Err(e) =>
      info[Message := Str(Show(Get(info, Message)) + ": " + ErrorMessage(e))]
          [Stack := OptionalString(ErrorStack(e))]
        - {Error}
    case _ => info
  }

  /**
   * Only when `error` holds an error object: the message becomes
   * "message: error message", the stack is the error's, and `error` is gone;
   * no other key changes. Any other entry is returned as it is.
   */
  lemma ExtractFrame(info: Entry)
    ensures Extracted(info) - ExtractKeys == info - ExtractKeys
    ensures !Get(info, Error).Err? ==> Extracted(info) == info
    ensures Get(info, Error).Err? ==>
      var e := Get(info, Error).err;
      var r := Extracted(info);
      && Error !in r
      && Get(r, Message) == Str(Show(Get(info, Message)) + ": " + ErrorMessage(e))
      && Get(r, Stack) == OptionalString(ErrorStack(e))
  {
  }

  /** Extracting twice is extracting once: the first pass removes the `error` key. */
  lemma ExtractIdempotent(info: Entry)
    ensures Extracted(Extracted(info)) == Extracted(info)
  {
    ExtractFrame(info);
  }

  // ---------------------------------------------------------------------------
  // The formats as they run: in place on the entry
  // ---------------------------------------------------------------------------

  /** A log entry that the formats update in place. */
  class LogInfo {
    var entry: Entry

    constructor (entry: Entry)
      ensures this.entry == entry
    {
      this.entry := entry;
    }

    /** `extractNestedError`. */
    method ExtractNestedError()
      modifies this
      ensures entry == Extracted(old(entry))
    {
      var error := Get(entry, Error);
      if error.Err? {
        entry := entry[Message := Str(Show(Get(entry, Message)) + ": " + ErrorMessage(error.err))];
        entry := entry[Stack := OptionalString(ErrorStack(error.err))];
        entry := entry - {Error};
      }
    }

    /** The first step of `enhanceErrorMetadata`: move a truthy `metadata.correlationId` up. */
    method MoveCorrelationId()
      modifies this
      ensures entry == LiftCorrelationId(old(entry))
    {
      var id := MetaField(entry, CorrelationId);
      if Truthy(id) {
        entry := entry[CorrelationId := id];
        entry := DeleteMetaField(entry, CorrelationId);
      }
    }

    /** The second step: replace a truthy `metadata.request` by its four-field record at the top level. */
    method MoveRequest()
      modifies this
      ensures entry == LiftRequest(old(entry))
    {
      var request := MetaField(entry, Request);
      if Truthy(request) {
        entry := entry[Request := RequestRecord(request)];
        entry := DeleteMetaField(entry, Request);
      }
    }

    /** The category assignment and the `switch` on the code. */
    method AddCategory()
      modifies this
      ensures entry == Categorized(old(entry))
    {
      if Get(entry, Type) == Str("AppError") {
        entry := entry[ErrorCategory := Str("application")];
        var code := Get(entry, Code);
        if code == Str(CodeString(VALIDATION_ERROR)) {
          entry := entry[ErrorCategory := Str("validation")];
        } else if code == Str(CodeString(AUTHENTICATION_ERROR)) || code == Str(CodeString(AUTHORIZATION_ERROR)) {
          entry := entry[ErrorCategory := Str("security")];
        } else if code == Str(CodeString(DATABASE_ERROR)) {
          entry := entry[ErrorCategory := Str("database")];
        } else if code == Str(CodeString(EXTERNAL_SERVICE_ERROR)) {
          entry := entry[ErrorCategory := Str("external")];
        }
      } else if Get(entry, Type) == Str("Error") {
        entry := entry[ErrorCategory := Str("system")];
      }
    }

    /** The severity assignment from the status. */
    method AddSeverity()
      modifies this
      ensures entry == Ranked(old(entry))
    {
      var status := Get(entry, Status);
      if Truthy(status) {
        if AtLeast(status, 500) {
          entry := entry[Severity := Str("critical")];
        } else if AtLeast(status, 400) {
          entry := entry[Severity := Str("error")];
        }
      } else {
        entry := entry[Severity := Str("error")];
      }
    }

    /** A falsy timestamp is replaced by the clock reading `now`. */
    method AddTimestamp(now: string)
      modifies this
      ensures entry == Stamped(old(entry), now)
    {
      if !Truthy(Get(entry, Timestamp)) {
        entry := entry[Timestamp := Str(now)];
      }
    }

    /** `enhanceErrorMetadata`, with the clock reading `now` for a missing timestamp. */
    method EnhanceErrorMetadata(now: string)
      modifies this
      ensures entry == Enhanced(old(entry), now)
    {
      MoveCorrelationId();
      MoveRequest();
      if Truthy(Get(entry, Error)) || Get(entry, Type) == Str("AppError") || Get(entry, Type) == Str("Error") {
        AddCategory();
        AddSeverity();
        AddTimestamp(now);
      }
    }
  }
}
