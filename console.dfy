/**
 * The console transport's `printf` renderer in src/utils/logger.ts: a summary
 * line followed by optional blocks in a fixed order, built by successive
 * appends to `output`.
 *
 * The renderer reads thirteen keys by name and collects every other key of
 * the entry into `meta`. The JSON pretty-printer (`JSON.stringify(v, null, 2)`)
 * is the parameter `pretty`.
 */
module Console {
  import opened Wrappers
  import opened Errors
  import Strings
  import opened LogFormats

  /** The keys `printf` destructures by name; the rest of the entry is `meta`. */
  const DestructuredKeys: set<Key> :=
    {Timestamp, Level, Message, Stack, Type, Code, Status, StatusText, Details,
     ErrorCategory, Severity, CorrelationId, Request}

  /** `...meta`: the entry without the destructured keys. */
  function Residual(info: Entry): (meta: map<Key, Value>)
    ensures forall k :: k in meta <==> k in info && k !in DestructuredKeys
    ensures forall k :: k in meta ==> meta[k] == info[k]
  {
    info - DestructuredKeys
  }

  /** The entries rendered as errors: a `type` of 'AppError' or 'Error'. */
  predicate IsErrorType(kind: Value) {
    kind == Str("AppError") || kind == Str("Error")
  }

  /**
   * `'method' in request`: a key test on an object, false for an array or an
   * error (neither has an own or inherited `method`), and `None` for a
   * primitive (`undefined`, `null`, a boolean, a number or a string), on which
   * the `in` operator throws a TypeError.
   */
  function HasMethod(request: Value): (r: Option<bool>)
    ensures r.None? <==> !(request.Obj? || request.Arr? || request.Err?)
    ensures request.Obj? ==> r == Some(Method in request.fields)
    ensures request.Arr? || request.Err? ==> r == Some(false)
  {
    match request
    case Obj(f) => Some(Method in f)
    case Arr(_) => Some(false)
    case Err(_) => Some(false)
    case _ => None
  }

  /** `x` when `p` holds, nothing otherwise. */
  function When(p: bool, x: string): string {
    if p then x else ""
  }

  /** The start of every line: `timestamp [level]: ` and `[correlationId] ` when it is truthy. */
  function Header(info: Entry): string {
    var id := Get(info, CorrelationId);
    Show(Get(info, Timestamp)) + " [" + Show(Get(info, Level)) + "]: "
      + (if Truthy(id) then "[" + Show(id) + "] " else "")
  }

  /**
   * The error summary: `[type]`, ` [category]` and ` [severity]` when truthy,
   * for 'AppError' ` [code]` and ` [status statusText]` when the status is
   * truthy, then ` message` and a line break.
   */
  function ErrorSummary(info: Entry): string {
    var kind := Get(info, Type);
    var category := Get(info, ErrorCategory);
    var severity := Get(info, Severity);
    var status := Get(info, Status);
    "[" + Show(kind) + "]"
      + When(Truthy(category), " [" + Show(category) + "]")
      + When(Truthy(severity), " [" + Show(severity) + "]")
      + When(kind == Str("AppError"),
             " [" + Show(Get(info, Code)) + "]"
               + When(Truthy(status), " [" + Show(status) + " " + Show(Get(info, StatusText)) + "]"))
      + (" " + Show(Get(info, Message)) + "\n")
  }

  /** The Request Context block. */
  function RequestBlock(request: Value): string {
    "\nRequest Context:\n"
      + "  Method: " + Show(Prop(request, Method)) + "\n"
      + "  URL: " + Show(Prop(request, Url)) + "\n"
      + "  IP: " + Show(Prop(request, Ip)) + "\n"
      + "  User Agent: " + Show(Prop(request, UserAgent)) + "\n"
  }

  /** The Stack Trace block: a non-empty string stack without its first line. */
  function StackBlock(stack: Value): string {
    match stack
    case Str(s) => When(s != "", "\nStack Trace:\n" + Strings.DropFirstLine(s) + "\n")
    case _ => ""
  }

  /** The Details block, for truthy details. */
  function DetailsBlock(details: Value, pretty: Value -> string): string {
    When(Truthy(details), "\nDetails:\n" + pretty(details) + "\n")
  }

  /** The Metadata block, when any key is left over. */
  function MetaBlock(info: Entry, pretty: Value -> string): string {
    var meta := Residual(info);
    When(|meta| > 0, "\nMetadata:\n" + pretty(Obj(meta)))
  }

  /** `'method' in request` guarded by `request &&`, or `None` when it throws. */
  function RequestTest(request: Value): Option<bool> {
    if Truthy(request) then HasMethod(request) else Some(false)
  }

  /** The summary line of an error entry, appended piece by piece after the header. */
  function SummaryLine(info: Entry): string {
    var kind := Get(info, Type);
    var s0 := Header(info) + ("[" + Show(kind) + "]");
    var s1 := if Truthy(Get(info, ErrorCategory)) then s0 + (" [" + Show(Get(info, ErrorCategory)) + "]") else s0;
    var s2 := if Truthy(Get(info, Severity)) then s1 + (" [" + Show(Get(info, Severity)) + "]") else s1;
    var s3 := if kind == Str("AppError") then s2 + (" [" + Show(Get(info, Code)) + "]") else s2;
    var s4 :=
      if kind == Str("AppError") && Truthy(Get(info, Status))
      then s3 + (" [" + Show(Get(info, Status)) + " " + Show(Get(info, StatusText)) + "]")
      else s3;
    s4 + (" " + Show(Get(info, Message)) + "\n")
  }

  /**
   * Everything before the Metadata block, or `None` when rendering throws:
   * an error entry whose truthy `request` is a primitive.
   */
  function Body(info: Entry, pretty: Value -> string): Option<string> {
    if IsErrorType(Get(info, Type)) then
      var request := Get(info, Request);
      var hasMethod := RequestTest(request);
      if hasMethod.None? then None
      else
        var stack := Get(info, Stack);
        var details := Get(info, Details);
        var s0 := SummaryLine(info);
        var s1 := if hasMethod.value then s0 + RequestBlock(request) else s0;
        var s2 := if stack.Str? && stack.s != "" then s1 + ("\nStack Trace:\n" + Strings.DropFirstLine(stack.s) + "\n") else s1;
        var s3 := if Truthy(details) then s2 + ("\nDetails:\n" + pretty(details) + "\n") else s2;
        Some(s3)
    else
      Some(Header(info) + Show(Get(info, Message)))
  }

  /** The rendered line: the body and the Metadata block, or `None` when rendering throws. */
  function ConsoleLine(info: Entry, pretty: Value -> string): Option<string> {
    match Body(info, pretty)
    case None => None
    case Some(body) =>
      var meta := Residual(info);
      Some(if |meta| > 0 then body + ("\nMetadata:\n" + pretty(Obj(meta))) else body)
  }

  /** `printf`'s callback, appending to `output` in the order it does. */
  method Render(info: Entry, pretty: Value -> string) returns (r: Option<string>)
    ensures r == ConsoleLine(info, pretty)
  {
    var timestamp, level, message := Get(info, Timestamp), Get(info, Level), Get(info, Message);
    var kind, correlationId := Get(info, Type), Get(info, CorrelationId);
    var meta := info - DestructuredKeys;

    var output := Show(timestamp) + " [" + Show(level) + "]: ";
    if Truthy(correlationId) {
      output := output + ("[" + Show(correlationId) + "] ");
    }
    assert output == Header(info);

    if kind == Str("AppError") || kind == Str("Error") {
      output := AppendSummary(info, output);
      var body := AppendErrorBlocks(info, pretty, output);
      if body.None? {
        return None;
      }
      output := body.value;
    } else {
      output := output + Show(message);
    }

    if |meta| > 0 {
      output := output + ("\nMetadata:\n" + pretty(Obj(meta)));
    }
    return Some(output);
  }

  /** The summary appends of an error entry, after the header. */
  method AppendSummary(info: Entry, header: string) returns (output: string)
    requires header == Header(info)
    ensures output == SummaryLine(info)
  {
    var kind, code, status, statusText := Get(info, Type), Get(info, Code), Get(info, Status), Get(info, StatusText);
    var errorCategory, severity, message := Get(info, ErrorCategory), Get(info, Severity), Get(info, Message);
    output := header + ("[" + Show(kind) + "]");
    if Truthy(errorCategory) {
      output := output + (" [" + Show(errorCategory) + "]");
    }
    if Truthy(severity) {
      output := output + (" [" + Show(severity) + "]");
    }
    if kind == Str("AppError") {
      output := output + (" [" + Show(code) + "]");
      if Truthy(status) {
        output := output + (" [" + Show(status) + " " + Show(statusText) + "]");
      }
    }
    output := output + (" " + Show(message) + "\n");
  }

  /**
   * The optional blocks of an error entry, after its summary: Request
   * Context, Stack Trace and Details; `None` when the `request` test throws.
   */
  method AppendErrorBlocks(info: Entry, pretty: Value -> string, summary: string) returns (r: Option<string>)
    requires IsErrorType(Get(info, Type)) && summary == SummaryLine(info)
    ensures r == Body(info, pretty)
  {
    var stack, details, request := Get(info, Stack), Get(info, Details), Get(info, Request);
    var output := summary;
    if Truthy(request) {
      var hasMethod := HasMethod(request);
      if hasMethod.None? {
        return None;
      }
      if hasMethod.value {
        output := output + RequestBlock(request);
      }
    }
    if stack.Str? && stack.s != "" {
      output := output + ("\nStack Trace:\n" + Strings.DropFirstLine(stack.s) + "\n");
    }
    if Truthy(details) {
      output := output + ("\nDetails:\n" + pretty(details) + "\n");
    }
    return Some(output);
  }

  // ---------------------------------------------------------------------------
  // What the line is made of
  // ---------------------------------------------------------------------------

  /** Appending optional pieces one by one is appending them all at once. */
  lemma AppendWhen(s: string, p: bool, x: string)
    ensures (if p then s + x else s) == s + When(p, x)
  {
  }

  lemma Assoc(a: string, b: string, c: string)
    ensures a + b + c == a + (b + c)
  {
  }

  /** The summary's appends, over arbitrary pieces. */
  lemma {:induction false} SummaryChain(h: string, t: string, c: string, v: string, cx: string, sx: string, m: string,
                                        pc: bool, pv: bool, pa: bool, ps: bool)
    ensures
      var s0 := h + t;
      var s1 := if pc then s0 + c else s0;
      var s2 := if pv then s1 + v else s1;
      var s3 := if pa then s2 + cx else s2;
      var s4 := if pa && ps then s3 + sx else s3;
      s4 + m == h + (t + When(pc, c) + When(pv, v) + When(pa, cx + When(ps, sx)) + m)
  {
    var s0 := h + t;
    var s1 := if pc then s0 + c else s0;
    var s2 := if pv then s1 + v else s1;
    var s3 := if pa then s2 + cx else s2;
    var s4 := if pa && ps then s3 + sx else s3;
    AppendWhen(s0, pc, c);
    AppendWhen(s1, pv, v);
    AppendWhen(s2, pa, cx);
    AppendWhen(s3, pa && ps, sx);
    assert When(pa, cx) + When(pa && ps, sx) == When(pa, cx + When(ps, sx));
    Assoc(h, t, When(pc, c));
    Assoc(h, t + When(pc, c), When(pv, v));
    Assoc(h + t + When(pc, c) + When(pv, v), When(pa, cx), When(pa && ps, sx));
    Assoc(h, t + When(pc, c) + When(pv, v), When(pa, cx + When(ps, sx)));
    Assoc(h, t + When(pc, c) + When(pv, v) + When(pa, cx + When(ps, sx)), m);
  }

  /** The summary line is the header followed by the error summary. */
  lemma SummaryLayout(info: Entry)
    ensures SummaryLine(info) == Header(info) + ErrorSummary(info)
  {
    var kind := Get(info, Type);
    SummaryChain(Header(info), "[" + Show(kind) + "]",
                 " [" + Show(Get(info, ErrorCategory)) + "]",
                 " [" + Show(Get(info, Severity)) + "]",
                 " [" + Show(Get(info, Code)) + "]",
                 " [" + Show(Get(info, Status)) + " " + Show(Get(info, StatusText)) + "]",
                 " " + Show(Get(info, Message)) + "\n",
                 Truthy(Get(info, ErrorCategory)), Truthy(Get(info, Severity)),
                 kind == Str("AppError"), Truthy(Get(info, Status)));
  }

  /** The blocks' appends, over arbitrary pieces. */
  lemma {:induction false} BlockChain(s0: string, q: string, st: string, d: string, pq: bool, pst: bool, pd: bool)
    ensures
      var s1 := if pq then s0 + q else s0;
      var s2 := if pst then s1 + st else s1;
      var s3 := if pd then s2 + d else s2;
      s3 == s0 + When(pq, q) + When(pst, st) + When(pd, d)
  {
    var s1 := if pq then s0 + q else s0;
    var s2 := if pst then s1 + st else s1;
    AppendWhen(s0, pq, q);
    AppendWhen(s1, pst, st);
    AppendWhen(s2, pd, d);
  }

  /** A non-error entry prints the header, its message and the Metadata block. */
  lemma PlainLineLayout(info: Entry, pretty: Value -> string)
    requires !IsErrorType(Get(info, Type))
    ensures ConsoleLine(info, pretty) == Some(Header(info) + Show(Get(info, Message)) + MetaBlock(info, pretty))
  {
    var meta := Residual(info);
    AppendWhen(Header(info) + Show(Get(info, Message)), |meta| > 0, "\nMetadata:\n" + pretty(Obj(meta)));
  }

  /**
   * An error entry prints the header, the error summary, then the Request
   * Context, Stack Trace and Details blocks in that order, each only when
   * present, then the Metadata block; it throws instead exactly when its
   * truthy `request` is a primitive.
   */
  lemma ErrorLineLayout(info: Entry, pretty: Value -> string)
    requires IsErrorType(Get(info, Type))
    ensures var request := Get(info, Request);
      ConsoleLine(info, pretty) ==
        if RequestTest(request).None? then None
        else
          Some(Header(info) + ErrorSummary(info)
               + When(RequestTest(request).value, RequestBlock(request))
               + StackBlock(Get(info, Stack))
               + DetailsBlock(Get(info, Details), pretty)
               + MetaBlock(info, pretty))
  {
    var request := Get(info, Request);
    if RequestTest(request).Some? {
      var meta := Residual(info);
      var stack, details := Get(info, Stack), Get(info, Details);
      var pst := stack.Str? && stack.s != "";
      var st := if stack.Str? then "\nStack Trace:\n" + Strings.DropFirstLine(stack.s) + "\n" else "";
      assert StackBlock(stack) == When(pst, st);
      SummaryLayout(info);
      BlockChain(SummaryLine(info), RequestBlock(request), st, "\nDetails:\n" + pretty(details) + "\n",
                 RequestTest(request).value, pst, Truthy(details));
      AppendWhen(Body(info, pretty).value, |meta| > 0, "\nMetadata:\n" + pretty(Obj(meta)));
    }
  }

  /** The Metadata block is present exactly when keys other than the named ones remain. */
  lemma MetaBlockPresent(info: Entry, pretty: Value -> string)
    ensures MetaBlock(info, pretty) != "" <==> exists k :: k in info && k !in DestructuredKeys
  {
    if !exists k :: k in info && k !in DestructuredKeys {
      assert Residual(info) == map[];
    } else {
      var k :| k in info && k !in DestructuredKeys;
      assert k in Residual(info);
    }
  }

  /** Rendering throws exactly for an error entry whose `request` is a truthy primitive. */
  lemma ConsoleThrows(info: Entry, pretty: Value -> string)
    ensures ConsoleLine(info, pretty).None? <==>
      IsErrorType(Get(info, Type)) && Truthy(Get(info, Request)) &&
      (Get(info, Request).Bool? || Get(info, Request).Num? || Get(info, Request).Str?)
  {
  }

  // ---------------------------------------------------------------------------
  // The console pipeline: enhanceErrorMetadata, then extractNestedError, then printf
  // ---------------------------------------------------------------------------

  /** What the console transport prints for an entry, given the clock reading. */
  function ConsoleOutput(info: Entry, now: string, pretty: Value -> string): Option<string> {
    ConsoleLine(Extracted(Enhanced(info, now)), pretty)
  }

  /**
   * Because the classifier runs before the nested error is extracted, an
   * entry whose only sign of an error is an `error` value is still ranked;
   * in the other order the gate would no longer see it.
   */
  lemma PipelineOrderMatters(info: Entry, now: string)
    requires Get(info, Error).Err?
    requires !IsErrorType(Get(info, Type)) && !Truthy(Get(info, Status))
    ensures Get(Extracted(Enhanced(info, now)), Severity) == Str("error")
    ensures Get(Enhanced(Extracted(info), now), Severity) == Get(info, Severity)
  {
    var r := Enhanced(info, now);
    EnhanceClassifies(info, now);
    EnhanceFrame(info, now);
    SameOutside(r, info, EnhanceKeys, Error);
    ExtractFrame(r);
    SameOutside(Extracted(r), r, ExtractKeys, Severity);
    var x := Extracted(info);
    ExtractFrame(info);
    SameOutside(x, info, ExtractKeys, Type);
    EnhanceClassifies(x, now);
    SameOutside(x, info, ExtractKeys, Severity);
  }

  /** Removing `a` and then `b` from an entry removes `a + b`. */
  lemma RemoveTwice(m: Entry, a: set<Key>, b: set<Key>, ab: set<Key>)
    requires ab == a + b
    ensures m - a - b == m - ab
  {
  }

  /**
   * Through the pipeline, an entry with an `error` value and no error `type`
   * keeps its type, gets the error's message appended to its own, and loses
   * only the `error` key outside the keys the formats write.
   */
  lemma NestedErrorThroughPipeline(info: Entry, now: string)
    requires Get(info, Error).Err?
    ensures var x := Extracted(Enhanced(info, now));
      && Get(x, Type) == Get(info, Type)
      && Get(x, Message) == Str(Show(Get(info, Message)) + ": " + ErrorMessage(Get(info, Error).err))
      && x - (EnhanceKeys + ExtractKeys) == info - (EnhanceKeys + ExtractKeys)
  {
    var r := Enhanced(info, now);
    EnhanceFrame(info, now);
    SameOutside(r, info, EnhanceKeys, Error);
    SameOutside(r, info, EnhanceKeys, Type);
    SameOutside(r, info, EnhanceKeys, Message);
    ExtractFrame(r);
    SameOutside(Extracted(r), r, ExtractKeys, Type);
    WidenFrame(r, info, EnhanceKeys, EnhanceKeys + ExtractKeys);
    WidenFrame(Extracted(r), r, ExtractKeys, EnhanceKeys + ExtractKeys);
  }

  /**
   * An entry with an `error` value and no error `type` is printed as a plain
   * line: the message followed by ": " and the error's message, then the
   * Metadata block. The severity the classifier added, the category and the
   * stack are among the named keys, so none of them is printed.
   */
  lemma NestedErrorRendersPlain(info: Entry, now: string, pretty: Value -> string)
    requires Get(info, Error).Err?
    requires !IsErrorType(Get(info, Type))
    ensures var x := Extracted(Enhanced(info, now));
      ConsoleOutput(info, now, pretty) ==
        Some(Header(x) + (Show(Get(info, Message)) + ": " + ErrorMessage(Get(info, Error).err)) + MetaBlock(x, pretty))
  {
    var x := Extracted(Enhanced(info, now));
    var combined := Show(Get(info, Message)) + ": " + ErrorMessage(Get(info, Error).err);
    NestedErrorThroughPipeline(info, now);
    assert Get(x, Type) == Get(info, Type) && Get(x, Message) == Str(combined);
    PlainLineLayout(x, pretty);
    assert ConsoleOutput(info, now, pretty) == ConsoleLine(x, pretty);
  }

  /**
   * What is left for the Metadata block after the pipeline: the entry's own
   * keys apart from the named ones, `metadata` (whose lifted keys are gone)
   * and `error`, which has been folded into the message.
   */
  lemma NestedErrorResidual(info: Entry, now: string)
    requires Get(info, Error).Err?
    ensures var x := Extracted(Enhanced(info, now));
      Error !in x && Residual(x) - {Error, Metadata} == Residual(info) - {Error, Metadata}
  {
    var r := Enhanced(info, now);
    var x := Extracted(r);
    EnhanceFrame(info, now);
    SameOutside(r, info, EnhanceKeys, Error);
    ExtractFrame(r);
    var all := DestructuredKeys + {Error, Metadata};
    WidenFrame(r, info, EnhanceKeys, all);
    WidenFrame(x, r, ExtractKeys, all);
    RemoveTwice(x, DestructuredKeys, {Error, Metadata}, all);
    RemoveTwice(info, DestructuredKeys, {Error, Metadata}, all);
    assert Residual(x) == x - DestructuredKeys && Residual(info) == info - DestructuredKeys;
  }

  /** The summary of an 'AppError' entry whose category, severity and status are all set. */
  lemma AppErrorSummary(x: Entry, category: string, severity: string, code: string,
                        status: int, statusName: string, message: string)
    requires Get(x, Type) == Str("AppError") && Get(x, Code) == Str(code) && Get(x, Message) == Str(message)
    requires Get(x, ErrorCategory) == Str(category) && category != ""
    requires Get(x, Severity) == Str(severity) && severity != ""
    requires Get(x, Status) == Num(status) && status != 0 && Get(x, StatusText) == Str(statusName)
    ensures ErrorSummary(x) ==
      "[" + "AppError" + "]" + (" [" + category + "]") + (" [" + severity + "]")
      + (" [" + code + "]" + (" [" + Strings.DecimalString(status) + " " + statusName + "]"))
      + (" " + message + "\n")
  {
  }

  /** Spreading the replacer's record of an `AppError` into an entry sets the record's fields. */
  lemma SpreadRecord(info: Entry, e: AppError)
    ensures var i := info + AppErrorRecord(e);
      && Get(i, Error) == Get(info, Error) && Get(i, Type) == Str("AppError")
      && Get(i, Code) == Str(CodeString(e.code)) && Get(i, Message) == Str(e.message)
      && Get(i, Status) == Num(StatusCode(e.status)) && Get(i, StatusText) == Str(StatusName(e.status))
  {
    var rec := AppErrorRecord(e);
    var i := info + rec;
    assert Error !in rec;
    assert i[Type] == rec[Type] && i[Code] == rec[Code] && i[Message] == rec[Message];
    assert i[Status] == rec[Status] && i[StatusText] == rec[StatusText];
    StatusTextOfMember(e.status);
  }

  /**
   * An 'AppError' entry without a nested error goes through the console
   * pipeline with its own fields intact and the classifier's category and
   * severity added.
   */
  lemma AppErrorEntryThroughPipeline(i: Entry, now: string)
    requires Get(i, Type) == Str("AppError") && !Get(i, Error).Err?
    ensures var x := Extracted(Enhanced(i, now));
      && Get(x, Type) == Get(i, Type) && Get(x, Code) == Get(i, Code) && Get(x, Message) == Get(i, Message)
      && Get(x, Status) == Get(i, Status) && Get(x, StatusText) == Get(i, StatusText)
      && Get(x, ErrorCategory) == Str(Category(Get(i, Code)))
      && Get(x, Severity) ==
           (if SeverityOf(Get(i, Status)).Some? then Str(SeverityOf(Get(i, Status)).value) else Get(i, Severity))
  {
    var r := Enhanced(i, now);
    EnhanceFrame(i, now);
    EnhanceClassifies(i, now);
    SameOutside(r, i, EnhanceKeys, Error);
    SameOutside(r, i, EnhanceKeys, Type);
    SameOutside(r, i, EnhanceKeys, Code);
    SameOutside(r, i, EnhanceKeys, Status);
    SameOutside(r, i, EnhanceKeys, StatusText);
    SameOutside(r, i, EnhanceKeys, Message);
    ExtractFrame(r);
  }

  /**
   * For a subclass instance whose fields are spread into the entry (as the
   * replacer's record), the console summary reads
   * `[AppError] [category] [severity] [CODE] [status STATUS_NAME] message`.
   */
  lemma KindErrorSummary(k: ErrorKind, message: Option<string>, details: Value,
                         stamp: string, stack: string, info: Entry, now: string)
    requires message.Some? || DefaultMessage(k).Some?
    requires !Get(info, Error).Err?
    ensures var e := NewKindError(k, message, details, stamp, stack);
      var x := Extracted(Enhanced(info + AppErrorRecord(e), now));
      ErrorSummary(x) ==
        "[" + "AppError" + "]"
        + (" [" + Category(Str(CodeString(KindCode(k)))) + "]")
        + (" [" + (if IsClientCode(KindCode(k)) then "error" else "critical") + "]")
        + (" [" + CodeString(KindCode(k)) + "]"
           + (" [" + Strings.DecimalString(StatusCode(KindStatus(k))) + " " + StatusName(KindStatus(k)) + "]"))
        + (" " + e.message + "\n")
  {
    var e := NewKindError(k, message, details, stamp, stack);
    var i := info + AppErrorRecord(e);
    var code, status := KindCode(k), KindStatus(k);
    var category, severity := Category(Str(CodeString(code))), if IsClientCode(code) then "error" else "critical";
    SpreadRecord(info, e);
    AppErrorEntryThroughPipeline(i, now);
    KindStatusRanked(k);
    CategoryNamed(Str(CodeString(code)));
    var x := Extracted(Enhanced(i, now));
    AppErrorSummary(x, category, severity, CodeString(code), StatusCode(status), StatusName(status), e.message);
  }
}
