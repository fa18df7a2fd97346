/**
 * The error taxonomy of src/types/errors.ts: the `HttpStatus` and `ErrorCode`
 * enums, the `AppError` record and its seven subclasses, and `toJSON`.
 *
 * `AppError.details` is `unknown` and error objects travel inside log entries,
 * so the JavaScript values the logger inspects are declared here as well.
 */
module Errors {
  import opened Wrappers

  // ---------------------------------------------------------------------------
  // HttpStatus
  // ---------------------------------------------------------------------------

  /** The members of the numeric enum `HttpStatus`. */
  datatype HttpStatus =
    | OK | CREATED | BAD_REQUEST | UNAUTHORIZED | FORBIDDEN
    | NOT_FOUND | CONFLICT | INTERNAL_SERVER_ERROR | SERVICE_UNAVAILABLE

  /** The members in declaration order, the order in which the compiled enum object is filled. */
  const AllStatuses: seq<HttpStatus> :=
    [OK, CREATED, BAD_REQUEST, UNAUTHORIZED, FORBIDDEN, NOT_FOUND, CONFLICT,
     INTERNAL_SERVER_ERROR, SERVICE_UNAVAILABLE]

  /** The numeric value of a member. */
  function StatusCode(s: HttpStatus): (n: int)
    ensures 200 <= n < 600
  {
    match s
    case OK => 200
    case CREATED => 201
    case BAD_REQUEST => 400
    case UNAUTHORIZED => 401
    case FORBIDDEN => 403
    case NOT_FOUND => 404
    case CONFLICT => 409
    case INTERNAL_SERVER_ERROR => 500
    case SERVICE_UNAVAILABLE => 503
  }

  /** The member's name, which the reverse mapping of a numeric enum yields. */
  function StatusName(s: HttpStatus): string {
    match s
    case OK => "OK"
    case CREATED => "CREATED"
    case BAD_REQUEST => "BAD_REQUEST"
    case UNAUTHORIZED => "UNAUTHORIZED"
    case FORBIDDEN => "FORBIDDEN"
    case NOT_FOUND => "NOT_FOUND"
    case CONFLICT => "CONFLICT"
    case INTERNAL_SERVER_ERROR => "INTERNAL_SERVER_ERROR"
    case SERVICE_UNAVAILABLE => "SERVICE_UNAVAILABLE"
  }

  /**
   * The reverse entry for `n` of a table filled front to back: the compiled
   * enum assigns `HttpStatus[value] = name` member by member, so a later member
   * with the same value would overwrite an earlier one.
   */
  function LastWithCode(table: seq<HttpStatus>, n: int): (r: Option<HttpStatus>)
    ensures r.Some? ==> r.value in table && StatusCode(r.value) == n
    ensures r.None? ==> forall i :: 0 <= i < |table| ==> StatusCode(table[i]) != n
  {
    if table == [] then None
    else if StatusCode(table[|table| - 1]) == n then Some(table[|table| - 1])
    else LastWithCode(table[..|table| - 1], n)
  }

  /** The position of a member in the declaration. */
  function StatusIndex(s: HttpStatus): (i: nat)
    ensures i < |AllStatuses| && AllStatuses[i] == s
  {
    match s
    case OK => 0
    case CREATED => 1
    case BAD_REQUEST => 2
    case UNAUTHORIZED => 3
    case FORBIDDEN => 4
    case NOT_FOUND => 5
    case CONFLICT => 6
    case INTERNAL_SERVER_ERROR => 7
    case SERVICE_UNAVAILABLE => 8
  }

  /** `HttpStatus[n]`: the member whose value is `n`, if any. */
  function StatusByCode(n: int): (r: Option<HttpStatus>)
    ensures r.Some? ==> StatusCode(r.value) == n
    ensures r.None? <==> forall s: HttpStatus :: StatusCode(s) != n
  {
    var r := LastWithCode(AllStatuses, n);
    assert r.None? ==> forall s: HttpStatus :: StatusCode(s) != n by {
      forall s: HttpStatus | r.None? ensures StatusCode(s) != n {
        assert AllStatuses[StatusIndex(s)] == s;
      }
    }
    r
  }

  /** The enum's values are pairwise distinct. */
  lemma StatusCodeInjective(s: HttpStatus, t: HttpStatus)
    ensures StatusCode(s) == StatusCode(t) ==> s == t
  {
  }

  /** Because the values are distinct, the reverse mapping gives back every member from its value. */
  lemma StatusByCodeRoundTrip(s: HttpStatus)
    ensures StatusByCode(StatusCode(s)) == Some(s)
  {
    var r := StatusByCode(StatusCode(s));
    StatusCodeInjective(r.value, s);
  }

  // ---------------------------------------------------------------------------
  // ErrorCode
  // ---------------------------------------------------------------------------

  /** The members of the string enum `ErrorCode`; the first five form the client group (4xx), the rest the server group (5xx). */
  datatype ErrorCode =
    | VALIDATION_ERROR | AUTHENTICATION_ERROR | AUTHORIZATION_ERROR
    | NOT_FOUND_ERROR | CONFLICT_ERROR
    | INTERNAL_ERROR | EXTERNAL_SERVICE_ERROR | DATABASE_ERROR

  const AllCodes: seq<ErrorCode> :=
    [VALIDATION_ERROR, AUTHENTICATION_ERROR, AUTHORIZATION_ERROR, NOT_FOUND_ERROR,
     CONFLICT_ERROR, INTERNAL_ERROR, EXTERNAL_SERVICE_ERROR, DATABASE_ERROR]

  /** The string each member stands for: its own name. */
  function CodeString(c: ErrorCode): string {
    match c
    case VALIDATION_ERROR => "VALIDATION_ERROR"
    case AUTHENTICATION_ERROR => "AUTHENTICATION_ERROR"
    case AUTHORIZATION_ERROR => "AUTHORIZATION_ERROR"
    case NOT_FOUND_ERROR => "NOT_FOUND_ERROR"
    case CONFLICT_ERROR => "CONFLICT_ERROR"
    case INTERNAL_ERROR => "INTERNAL_ERROR"
    case EXTERNAL_SERVICE_ERROR => "EXTERNAL_SERVICE_ERROR"
    case DATABASE_ERROR => "DATABASE_ERROR"
  }

  /** Membership in the "Client Errors (4xx)" group of the declaration. */
  predicate IsClientCode(c: ErrorCode) {
    c in {VALIDATION_ERROR, AUTHENTICATION_ERROR, AUTHORIZATION_ERROR, NOT_FOUND_ERROR, CONFLICT_ERROR}
  }

  /** The first member of `table` whose string is `s`: what a `switch` over the enum selects for the string `s`. */
  function FirstCodeNamed(table: seq<ErrorCode>, s: string): (r: Option<ErrorCode>)
    ensures r.Some? ==> r.value in table && CodeString(r.value) == s
    ensures r.None? ==> forall i :: 0 <= i < |table| ==> CodeString(table[i]) != s
  {
    if table == [] then None
    else if CodeString(table[0]) == s then Some(table[0])
    else FirstCodeNamed(table[1..], s)
  }

  /** The position of a member in the declaration. */
  function CodeIndex(c: ErrorCode): (i: nat)
    ensures i < |AllCodes| && AllCodes[i] == c
  {
    match c
    case VALIDATION_ERROR => 0
    case AUTHENTICATION_ERROR => 1
    case AUTHORIZATION_ERROR => 2
    case NOT_FOUND_ERROR => 3
    case CONFLICT_ERROR => 4
    case INTERNAL_ERROR => 5
    case EXTERNAL_SERVICE_ERROR => 6
    case DATABASE_ERROR => 7
  }

  /** The member whose string value is `s`, if any. */
  function CodeNamed(s: string): (r: Option<ErrorCode>)
    ensures r.Some? ==> CodeString(r.value) == s
    ensures r.None? <==> forall c: ErrorCode :: CodeString(c) != s
  {
    var r := FirstCodeNamed(AllCodes, s);
    assert r.None? ==> forall c: ErrorCode :: CodeString(c) != s by {
      forall c: ErrorCode | r.None? ensures CodeString(c) != s {
        assert AllCodes[CodeIndex(c)] == c;
      }
    }
    r
  }

  /** The string values are pairwise distinct. */
  lemma CodeStringInjective(c: ErrorCode, d: ErrorCode)
    ensures CodeString(c) == CodeString(d) ==> c == d
  {
  }

  /** Every member is recovered from its string value, so comparing strings identifies the code. */
  lemma CodeNamedRoundTrip(c: ErrorCode)
    ensures CodeNamed(CodeString(c)) == Some(c)
  {
    var r := CodeNamed(CodeString(c));
    CodeStringInjective(r.value, c);
  }

  // ---------------------------------------------------------------------------
  // The subclasses of AppError
  // ---------------------------------------------------------------------------

  /** The seven subclasses of `AppError`. */
  datatype ErrorKind =
    | Validation | Authentication | Authorization | NotFound | Conflict
    | ExternalService | Database

  /** The code each subclass pins. */
  function KindCode(k: ErrorKind): ErrorCode {
    match k
    case Validation => VALIDATION_ERROR
    case Authentication => AUTHENTICATION_ERROR
    case Authorization => AUTHORIZATION_ERROR
    case NotFound => NOT_FOUND_ERROR
    case Conflict => CONFLICT_ERROR
    case ExternalService => EXTERNAL_SERVICE_ERROR
    case Database => DATABASE_ERROR
  }

  /** The status each subclass pins. */
  function KindStatus(k: ErrorKind): HttpStatus {
    match k
    case Validation => BAD_REQUEST
    case Authentication => UNAUTHORIZED
    case Authorization => FORBIDDEN
    case NotFound => NOT_FOUND
    case Conflict => CONFLICT
    case ExternalService => SERVICE_UNAVAILABLE
    case Database => INTERNAL_SERVER_ERROR
  }

  /** The default of the subclass's `message` parameter; `ValidationError` has none, its message is mandatory. */
  function DefaultMessage(k: ErrorKind): Option<string> {
    match k
    case Validation => None
    case Authentication => Some("Authentication failed")
    case Authorization => Some("Not authorized")
    case NotFound => Some("Resource not found")
    case Conflict => Some("Resource conflict")
    case ExternalService => Some("External service error")
    case Database => Some("Database error")
  }

  /** `this.constructor.name` for an instance of the subclass. */
  function ClassName(k: ErrorKind): string {
    match k
    case Validation => "ValidationError"
    case Authentication => "AuthenticationError"
    case Authorization => "AuthorizationError"
    case NotFound => "NotFoundError"
    case Conflict => "ConflictError"
    case ExternalService => "ExternalServiceError"
    case Database => "DatabaseError"
  }

  /** The subclass that pins `c`, if one does. */
  function KindOfCode(c: ErrorCode): Option<ErrorKind> {
    match c
    case VALIDATION_ERROR => Some(Validation)
    case AUTHENTICATION_ERROR => Some(Authentication)
    case AUTHORIZATION_ERROR => Some(Authorization)
    case NOT_FOUND_ERROR => Some(NotFound)
    case CONFLICT_ERROR => Some(Conflict)
    case INTERNAL_ERROR => None
    case EXTERNAL_SERVICE_ERROR => Some(ExternalService)
    case DATABASE_ERROR => Some(Database)
  }

  /**
   * Each subclass pins its own code, and `INTERNAL_ERROR` is the one code no
   * subclass pins: only the base constructor can produce it.
   */
  lemma KindOfCodeInverse(k: ErrorKind, c: ErrorCode)
    ensures KindOfCode(KindCode(k)) == Some(k)
    ensures KindOfCode(c) == None <==> c == INTERNAL_ERROR
    ensures KindOfCode(c).Some? ==> KindCode(KindOfCode(c).value) == c
  {
  }

  /**
   * The grouping comments of the `ErrorCode` declaration agree with the
   * statuses: a subclass has a client code exactly when its status is 4xx,
   * and otherwise its status is 5xx.
   */
  lemma KindStatusMatchesCodeGroup(k: ErrorKind)
    ensures IsClientCode(KindCode(k)) <==> 400 <= StatusCode(KindStatus(k)) < 500
    ensures !IsClientCode(KindCode(k)) <==> 500 <= StatusCode(KindStatus(k)) < 600
  {
  }

  // ---------------------------------------------------------------------------
  // JavaScript values and error objects
  // ---------------------------------------------------------------------------

  /** The property names the logger reads or writes, each of which has its own `Key` constructor. */
  const NamedKeys: set<string> := {
    "timestamp", "level", "message", "stack", "type", "code", "status", "statusText", "details",
    "errorCategory", "severity", "correlationId", "request", "metadata", "error", "name",
    "method", "url", "ip", "userAgent"}

  /** Any other property name. */
  type OtherName = s: string | s !in NamedKeys witness ""

  /**
   * A property name. The names the logger reads or writes are constructors, so
   * that their distinctness is structural; every other name is `Other(name)`,
   * which cannot spell a named one, so each property name has exactly one key.
   */
  datatype Key =
    | Timestamp | Level | Message | Stack | Type | Code | Status | StatusText | Details
    | ErrorCategory | Severity | CorrelationId | Request | Metadata | Error | Name
    | Method | Url | Ip | UserAgent
    | Other(name: OtherName)

  /** The property name a key stands for. */
  function KeyName(k: Key): string {
    match k
    case Timestamp => "timestamp"
    case Level => "level"
    case Message => "message"
    case Stack => "stack"
    case Type => "type"
    case Code => "code"
    case Status => "status"
    case StatusText => "statusText"
    case Details => "details"
    case ErrorCategory => "errorCategory"
    case Severity => "severity"
    case CorrelationId => "correlationId"
    case Request => "request"
    case Metadata => "metadata"
    case Error => "error"
    case Name => "name"
    case Method => "method"
    case Url => "url"
    case Ip => "ip"
    case UserAgent => "userAgent"
    case Other(name) => name
  }

  /** The key for a property name: a named constructor when there is one, `Other(name)` otherwise. */
  function KeyOf(name: string): (k: Key)
    ensures KeyName(k) == name
  {
    if name == "timestamp" then Timestamp
    else if name == "level" then Level
    else if name == "message" then Message
    else if name == "stack" then Stack
    else if name == "type" then Type
    else if name == "code" then Code
    else if name == "status" then Status
    else if name == "statusText" then StatusText
    else if name == "details" then Details
    else if name == "errorCategory" then ErrorCategory
    else if name == "severity" then Severity
    else if name == "correlationId" then CorrelationId
    else if name == "request" then Request
    else if name == "metadata" then Metadata
    else if name == "error" then Error
    else if name == "name" then Name
    else if name == "method" then Method
    else if name == "url" then Url
    else if name == "ip" then Ip
    else if name == "userAgent" then UserAgent
    else Other(name)
  }

  /**
   * Property names and keys correspond one to one: every key is the key of
   * its own name, so two keys that spell the same name are the same key, and
   * a map over keys holds at most one value per JavaScript property.
   */
  lemma KeyOfName(k: Key, k': Key)
    ensures KeyOf(KeyName(k)) == k
    ensures KeyName(k) == KeyName(k') ==> k == k'
    ensures KeyName(k) in NamedKeys <==> !k.Other?
  {
    KeyRoundTrip(k);
    KeyRoundTrip(k');
  }

  /** The key of a key's own name is that key. */
  lemma KeyRoundTrip(k: Key)
    ensures KeyOf(KeyName(k)) == k
    ensures KeyName(k) in NamedKeys <==> !k.Other?
  {
    match k
    case Other(name) =>
      assert name !in NamedKeys;
    case _ =>
  }

  /**
   * A JavaScript value as far as the taxonomy and the logger look at it.
   * Numbers are integers; an object is the map of its own enumerable keys.
   */
  datatype Value =
    | Undefined
    | Null
    | Bool(b: bool)
    | Num(n: int)
    | Str(s: string)
    | Arr(items: seq<Value>)
    | Obj(fields: map<Key, Value>)
    | Err(err: ErrorObject)

  /** An object that is `instanceof Error`: either an `AppError` (of any subclass) or some other error. */
  datatype ErrorObject =
    | PlainError(name: string, message: string, stack: Option<string>)
    | App(app: AppError)

  function ErrorName(e: ErrorObject): string {
    match e
    case PlainError(name, _, _) => name
    case App(a) => a.name
  }

  function ErrorMessage(e: ErrorObject): string {
    match e
    case PlainError(_, message, _) => message
    case App(a) => a.message
  }

  /** `error.stack`: an `AppError` always has one, captured by its constructor. */
  function ErrorStack(e: ErrorObject): Option<string> {
    match e
    case PlainError(_, _, stack) => stack
    case App(a) => Some(a.stack)
  }

  /** An `AppError` instance: its readonly fields and the inherited `name`, `message` and `stack`. */
  datatype AppError = AppError(
    name: string,
    code: ErrorCode,
    message: string,
    status: HttpStatus,
    details: Value,
    timestamp: string,
    stack: string)

  /**
   * The body of the `AppError` constructor run on behalf of the class named
   * `className`; the clock reading `now` and the captured `stack` are parameters.
   */
  function Construct(className: string, code: ErrorCode, message: string, status: Option<HttpStatus>,
                     details: Value, now: string, stack: string): (e: AppError)
    ensures e.name == className && e.code == code && e.message == message && e.details == details
    ensures e.status == if status.Some? then status.value else INTERNAL_SERVER_ERROR
    ensures e.timestamp == now && e.stack == stack
  {
    AppError(className, code, message, status.GetOr(INTERNAL_SERVER_ERROR), details, now, stack)
  }

  /** `new AppError(code, message, status?, details?)`: omitting the status means 500. */
  function NewAppError(code: ErrorCode, message: string, status: Option<HttpStatus>,
                       details: Value, now: string, stack: string): (e: AppError)
    ensures e.name == "AppError" && e.code == code && e.message == message && e.details == details
    ensures status.None? ==> e.status == INTERNAL_SERVER_ERROR && StatusCode(e.status) == 500
    ensures status.Some? ==> e.status == status.value
  {
    Construct("AppError", code, message, status, details, now, stack)
  }

  /**
   * `new ValidationError(message, details?)`, `new AuthenticationError(message?, details?)` and so on:
   * the subclass pins the code and the status, names the instance after itself
   * and fills in its default message when none is passed.
   */
  function NewKindError(k: ErrorKind, message: Option<string>, details: Value, now: string, stack: string): (e: AppError)
    requires message.Some? || DefaultMessage(k).Some?
    ensures e.name == ClassName(k) && e.code == KindCode(k) && e.status == KindStatus(k)
    ensures e.message == if message.Some? then message.value else DefaultMessage(k).value
    ensures e.details == details && e.code != INTERNAL_ERROR
  {
    var text := if message.Some? then message.value else DefaultMessage(k).value;
    Construct(ClassName(k), KindCode(k), text, Some(KindStatus(k)), details, now, stack)
  }

  /** Only `ValidationError` lacks a default message: every other subclass can be built without one. */
  lemma OnlyValidationNeedsMessage(k: ErrorKind)
    ensures DefaultMessage(k).None? <==> k == Validation
  {
  }

  // ---------------------------------------------------------------------------
  // toJSON
  // ---------------------------------------------------------------------------

  /** The `ErrorResponse` interface; `path` is optional and `details` may be undefined. */
  datatype ErrorResponse = ErrorResponse(
    code: ErrorCode,
    message: string,
    status: HttpStatus,
    details: Value,
    timestamp: string,
    path: Option<string>)

  /** `toJSON()`: the five response fields of the error, without a `path`; name and stack are not part of it. */
  function ToJSON(e: AppError): (r: ErrorResponse)
    ensures r.path == None
    ensures r.code == e.code && r.status == e.status && r.message == e.message
    ensures r.details == e.details && r.timestamp == e.timestamp
  {
    ErrorResponse(e.code, e.message, e.status, e.details, e.timestamp, None)
  }

  /**
   * The projection keeps everything but the name and the stack: two errors
   * that differ only there have equal responses, and two errors with equal
   * responses differ only there.
   */
  lemma ToJSONForgetsOnlyNameAndStack(e1: AppError, e2: AppError)
    ensures ToJSON(e1) == ToJSON(e2) <==> e1.(name := e2.name, stack := e2.stack) == e2
  {
  }

  /** A subclass instance's response carries the subclass's code and status whatever message and details it got. */
  lemma KindErrorResponse(k: ErrorKind, message: Option<string>, details: Value, now: string, stack: string)
    requires message.Some? || DefaultMessage(k).Some?
    ensures var r := ToJSON(NewKindError(k, message, details, now, stack));
      r.code == KindCode(k) && r.status == KindStatus(k) && r.path.None? &&
      KindOfCode(r.code) == Some(k) && StatusByCode(StatusCode(r.status)) == Some(KindStatus(k))
  {
    StatusByCodeRoundTrip(KindStatus(k));
  }
}
